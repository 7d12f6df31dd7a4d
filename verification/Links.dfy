/**
 Dancing links on paper: nodes are numbered in list order, and each keeps the
 numbers of its neighbours.  Taking a node out leaves its own links alone, so
 putting nodes back in reverse order restores every earlier list.
 */
module Links {
  import opened Histories

  /** `next[i]` is `|next|` at the end of the list, `prev[i]` is -1 at its start. */
  datatype Links = Links(next: seq<int>, prev: seq<int>)

  ghost predicate Shaped(l: Links) {
    && |l.next| == |l.prev|
    && (forall i :: 0 <= i < |l.next| ==> i < l.next[i] <= |l.next|)
    && (forall i :: 0 <= i < |l.prev| ==> -1 <= l.prev[i] < i)
  }

  ghost function Untouched(n: nat): (l: Links)
    ensures Shaped(l) && |l.next| == n
  {
    Links(seq(n, i => i + 1), seq(n, i => i - 1))
  }

  /** The links once a node has been put before all others. */
  ghost function Pushed(l: Links): (r: Links)
    requires Shaped(l)
    ensures Shaped(r) && |r.next| == |l.next| + 1
  {
    Links([1] + seq(|l.next|, i requires 0 <= i < |l.next| => l.next[i] + 1),
          [-1] + seq(|l.prev|, i requires 0 <= i < |l.prev| => if i > 0 && l.prev[i] < 0 then -1 else l.prev[i] + 1))
  }

  lemma PushedUntouched(n: nat)
    ensures Pushed(Untouched(n)) == Untouched(n + 1)
  {
  }

  /** Nothing that is still in the list lies strictly between `i` and `j`. */
  ghost predicate Adjacent(out: set<int>, i: int, j: int) {
    i < j && forall k :: i < k < j ==> k in out
  }

  /** The links of node `i` lead to its neighbours in the list without the nodes in `out`. */
  ghost predicate NodeLinked(l: Links, out: set<int>, i: int)
    requires Shaped(l) && 0 <= i < |l.next|
  {
    && Adjacent(out, i, l.next[i]) && l.next[i] !in out
    && Adjacent(out, l.prev[i], i) && l.prev[i] !in out
  }

  /**
   `gone` lists the nodes taken out, oldest first.  Nodes still in the list are
   linked past all of them; a node taken out is still linked as it was at that moment.
   */
  ghost predicate Woven(l: Links, gone: seq<int>) {
    && Shaped(l) && NoDup(gone)
    && (forall i {:trigger LiveAt(l, gone, i)} :: 0 <= i < |l.next| ==> LiveAt(l, gone, i))
    && (forall k {:trigger GoneAt(l, gone, k)} :: 0 <= k < |gone| ==> GoneAt(l, gone, k))
  }

  ghost predicate LiveAt(l: Links, gone: seq<int>, i: int)
    requires Shaped(l) && 0 <= i < |l.next|
  {
    i !in gone ==> NodeLinked(l, Elems(gone), i)
  }

  ghost predicate GoneAt(l: Links, gone: seq<int>, k: int)
    requires Shaped(l) && 0 <= k < |gone|
  {
    0 < gone[k] < |l.next| && NodeLinked(l, Elems(gone[..k]), gone[k])
  }

  lemma FirstStays(l: Links, gone: seq<int>)
    requires Woven(l, gone)
    ensures 0 !in gone
  {
    forall k | 0 <= k < |gone| ensures gone[k] != 0 {
      assert GoneAt(l, gone, k);
    }
  }

  /** Makes the neighbours of `x` skip it. */
  ghost function Unlink(l: Links, x: int): (r: Links)
    requires Shaped(l) && 0 <= x < |l.next| && 0 <= l.prev[x]
    ensures Shaped(r) && |r.next| == |l.next|
  {
    Links(l.next[l.prev[x] := l.next[x]],
          if l.next[x] < |l.next| then l.prev[l.next[x] := l.prev[x]] else l.prev)
  }

  /** Makes the neighbours that `x` remembers point at it again. */
  ghost function Relink(l: Links, x: int): (r: Links)
    requires Shaped(l) && 0 <= x < |l.next| && 0 <= l.prev[x]
    ensures Shaped(r) && |r.next| == |l.next|
  {
    Links(l.next[l.prev[x] := x],
          if l.next[x] < |l.next| then l.prev[l.next[x] := x] else l.prev)
  }

  lemma UntouchedIsWoven(n: nat)
    ensures Woven(Untouched(n), [])
  {
    forall i | 0 <= i < n ensures LiveAt(Untouched(n), [], i) {
    }
  }

  /** A node that is in the list does not lie between two neighbours. */
  lemma NotBetween(out: set<int>, i: int, j: int, k: int)
    requires Adjacent(out, i, j) && k !in out
    ensures k <= i || j <= k
  {
  }

  /** The first node is in the list, so any other node of it has a predecessor; neighbours point at each other. */
  lemma Mirrored(l: Links, gone: seq<int>, x: int)
    requires Woven(l, gone) && 0 < x < |l.next| && x !in gone
    ensures 0 <= l.prev[x] && l.prev[x] !in gone && l.next[l.prev[x]] == x
    ensures l.next[x] < |l.next| ==> l.next[x] !in gone && l.prev[l.next[x]] == x
  {
    var out := Elems(gone);
    assert LiveAt(l, gone, x);
    FirstStays(l, gone);
    NotBetween(out, l.prev[x], x, 0);
    var p, n := l.prev[x], l.next[x];
    assert LiveAt(l, gone, p);
    NotBetween(out, p, l.next[p], x);
    NotBetween(out, p, x, l.next[p]);
    if n < |l.next| {
      assert LiveAt(l, gone, n);
      NotBetween(out, l.prev[n], n, x);
      NotBetween(out, x, n, l.prev[n]);
    }
  }

  lemma NodeAfterUnlink(l: Links, out: set<int>, x: int, i: int)
    requires Shaped(l) && 0 < x < |l.next| && 0 <= i < |l.next| && i != x && i !in out && x !in out
    requires NodeLinked(l, out, x) && NodeLinked(l, out, i) && 0 <= l.prev[x]
    ensures NodeLinked(Unlink(l, x), out + {x}, i)
  {
    NotBetween(out, l.prev[x], x, i);
    NotBetween(out, x, l.next[x], i);
    NotBetween(out, i, l.next[i], l.prev[x]);
    NotBetween(out, l.prev[i], i, l.next[x]);
  }

  /** Taking a node out keeps every link right. */
  lemma {:induction false} UnlinkKeepsWoven(l: Links, gone: seq<int>, x: int)
    requires Woven(l, gone) && 0 < x < |l.next| && x !in gone
    ensures 0 <= l.prev[x] && Woven(Unlink(l, x), gone + [x])
  {
    Mirrored(l, gone, x);
    var r, gone' := Unlink(l, x), gone + [x];
    ElemsPush(gone, x);
    assert LiveAt(l, gone, x);
    forall i | 0 <= i < |r.next| ensures LiveAt(r, gone', i) {
      if i !in gone' {
        assert LiveAt(l, gone, i);
        NodeAfterUnlink(l, Elems(gone), x, i);
      }
    }
    forall k | 0 <= k < |gone'| ensures GoneAt(r, gone', k) {
      if k < |gone| {
        assert gone'[..k] == gone[..k] && gone'[k] == gone[k];
        assert GoneAt(l, gone, k);
      } else {
        assert gone'[..k] == gone;
      }
    }
  }

  lemma NodeAfterRelink(l: Links, out: set<int>, x: int, i: int)
    requires Shaped(l) && 0 < x < |l.next| && 0 <= i < |l.next| && i != x && i !in out && x !in out
    requires NodeLinked(l, out, x) && NodeLinked(l, out + {x}, i) && 0 <= l.prev[x]
    ensures NodeLinked(Relink(l, x), out, i)
  {
    NotBetween(out, l.prev[x], x, i);
    NotBetween(out, x, l.next[x], i);
    if i != l.prev[x] && i < x {
      NotBetween(out + {x}, i, l.next[i], l.prev[x]);
    }
    if i != l.next[x] && i > x {
      NotBetween(out + {x}, l.prev[i], i, l.next[x]);
    }
  }

  lemma LastOfWoven(l: Links, gone: seq<int>, x: int)
    requires Woven(l, gone + [x])
    ensures 0 < x < |l.next| && x !in gone && 0 !in gone && NodeLinked(l, Elems(gone), x)
    ensures 0 <= l.prev[x] && l.prev[x] !in gone && (l.next[x] < |l.next| ==> l.next[x] !in gone)
    ensures NoDup(gone)
  {
    var all := gone + [x];
    assert all[|gone|] == x && all[..|gone|] == gone;
    assert GoneAt(l, all, |gone|);
    FirstStays(l, all);
    forall j | 0 <= j < |gone| ensures gone[j] != x && gone[j] != 0 {
      assert all[j] == gone[j];
    }
    forall i, j | 0 <= i < j < |gone| ensures gone[i] != gone[j] {
      assert all[i] == gone[i] && all[j] == gone[j];
    }
    NotBetween(Elems(gone), l.prev[x], x, 0);
  }

  /** Putting back the node taken out last restores the list as it was before. */
  lemma {:induction false} RelinkKeepsWoven(l: Links, gone: seq<int>, x: int)
    requires Woven(l, gone + [x])
    ensures 0 < x < |l.next| && 0 <= l.prev[x] && Woven(Relink(l, x), gone)
  {
    LastOfWoven(l, gone, x);
    var all, r := gone + [x], Relink(l, x);
    ElemsPush(gone, x);
    forall i | 0 <= i < |r.next| ensures LiveAt(r, gone, i) {
      if i != x && i !in gone {
        assert LiveAt(l, all, i);
        NodeAfterRelink(l, Elems(gone), x, i);
      }
    }
    forall k | 0 <= k < |gone| ensures GoneAt(r, gone, k) {
      assert all[k] == gone[k] && all[..k] == gone[..k];
      assert GoneAt(l, all, k);
      assert gone[k] != x && gone[k] != l.prev[x] && gone[k] != l.next[x];
    }
  }

  /** Putting a node back undoes taking it out, link by link. */
  lemma RelinkUndoesUnlink(l: Links, gone: seq<int>, x: int)
    requires Woven(l, gone) && 0 < x < |l.next| && x !in gone
    ensures 0 <= l.prev[x] && Unlink(l, x).prev[x] == l.prev[x] && Unlink(l, x).next[x] == l.next[x]
    ensures Relink(Unlink(l, x), x) == l
  {
    Mirrored(l, gone, x);
  }

  lemma SameNeighbours(l: Links, k: Links, out: set<int>, i: int)
    requires Shaped(l) && Shaped(k) && |l.next| == |k.next| && 0 <= i < |l.next|
    requires NodeLinked(l, out, i) && NodeLinked(k, out, i)
    ensures l.next[i] == k.next[i] && l.prev[i] == k.prev[i]
  {
    NotBetween(out, i, l.next[i], k.next[i]);
    NotBetween(out, i, k.next[i], l.next[i]);
    NotBetween(out, l.prev[i], i, k.prev[i]);
    NotBetween(out, k.prev[i], i, l.prev[i]);
  }

  /** Which nodes were taken out, and in which order, settles every link of every node. */
  lemma {:induction false} WovenIsUnique(l: Links, k: Links, gone: seq<int>)
    requires Woven(l, gone) && Woven(k, gone) && |l.next| == |k.next|
    ensures l == k
  {
    forall i | 0 <= i < |l.next| ensures l.next[i] == k.next[i] && l.prev[i] == k.prev[i] {
      if i in gone {
        var j :| 0 <= j < |gone| && gone[j] == i;
        assert GoneAt(l, gone, j) && GoneAt(k, gone, j);
        SameNeighbours(l, k, Elems(gone[..j]), gone[j]);
      } else {
        assert LiveAt(l, gone, i) && LiveAt(k, gone, i);
        SameNeighbours(l, k, Elems(gone), i);
      }
    }
  }

  // ---------------------------------------------------------------- counting what is left

  /** How many of the first `n` nodes are still in the list. */
  ghost function LiveBelow(out: set<int>, n: int): nat
    requires 0 <= n
  {
    if n == 0 then 0 else LiveBelow(out, n - 1) + if n - 1 in out then 0 else 1
  }

  lemma {:induction false} LiveJump(out: set<int>, i: int, j: int)
    requires 0 <= i && Adjacent(out, i, j) && i !in out
    ensures LiveBelow(out, j) == LiveBelow(out, i) + 1
    decreases j
  {
    if j > i + 1 { LiveJump(out, i, j - 1); }
  }

  lemma {:induction false} LiveIsRest(out: set<int>, n: int)
    requires 0 <= n && forall x :: x in out ==> 0 <= x < n
    ensures LiveBelow(out, n) == n - |out|
    decreases n
  {
    if n == 0 {
      assert forall x :: x !in out;
      assert out == {};
    } else {
      LiveBelowOnly(out, out - {n - 1}, n - 1);
      LiveIsRest(out - {n - 1}, n - 1);
    }
  }

  lemma {:induction false} LiveBelowOnly(a: set<int>, b: set<int>, n: int)
    requires 0 <= n && forall x :: 0 <= x < n ==> (x in a <==> x in b)
    ensures LiveBelow(a, n) == LiveBelow(b, n)
    decreases n
  {
    if n > 0 { LiveBelowOnly(a, b, n - 1); }
  }

  lemma LiveInAll(l: Links, gone: seq<int>)
    requires Woven(l, gone)
    ensures LiveBelow(Elems(gone), |l.next|) == |l.next| - |gone|
  {
    DistinctCount(gone);
    forall x | x in Elems(gone) ensures 0 <= x < |l.next| {
      var k :| 0 <= k < |gone| && gone[k] == x;
      assert GoneAt(l, gone, k);
    }
    LiveIsRest(Elems(gone), |l.next|);
  }

  // ---------------------------------------------------------------- pushing

  ghost function Renumbered(gone: seq<int>): (r: seq<int>)
    ensures |r| == |gone|
  {
    seq(|gone|, k requires 0 <= k < |gone| => gone[k] + 1)
  }

  lemma {:induction false} PushedLinks(l: Links, out: seq<int>, i: int)
    requires Shaped(l) && 0 <= i < |l.next| && NodeLinked(l, Elems(out), i) && 0 !in out
    ensures NodeLinked(Pushed(l), Elems(Renumbered(out)), i + 1)
  {
    var moved := Elems(Renumbered(out));
    forall k ensures k in moved <==> k - 1 in Elems(out) {
      if k - 1 in Elems(out) {
        var j :| 0 <= j < |out| && out[j] == k - 1;
        assert Renumbered(out)[j] == k;
      }
    }
    if i > 0 { assert l.prev[i] < 0 ==> 0 in Elems(out); }
  }

  /** Pushing a node keeps the rest of the list as it is, what was taken out included. */
  lemma {:induction false} PushKeepsWoven(l: Links, gone: seq<int>)
    requires Woven(l, gone)
    ensures Woven(Pushed(l), Renumbered(gone))
  {
    var r, moved := Pushed(l), Renumbered(gone);
    FirstStays(l, gone);
    forall k | 0 <= k < |gone| ensures moved[k] == gone[k] + 1 > 1 { assert GoneAt(l, gone, k); }
    assert 1 !in Elems(moved) && -1 !in Elems(moved);
    forall i | 0 <= i < |r.next| ensures LiveAt(r, moved, i) {
      if i > 0 && i !in moved {
        assert LiveAt(l, gone, i - 1);
        PushedLinks(l, gone, i - 1);
      }
    }
    forall k | 0 <= k < |moved| ensures GoneAt(r, moved, k) {
      assert GoneAt(l, gone, k);
      PushedLinks(l, gone[..k], gone[k]);
      assert Renumbered(gone[..k]) == moved[..k];
    }
  }
}
