/**
 What the search works with: hash buckets of visited configurations, and list
 nodes numbered after the entries they carry.
 */
module Checker {
  import opened Histories
  import opened Entries
  import opened Links
  import opened LinkedLists
  import opened Bitsets
  import opened Searching

  // ---------------------------------------------------------------- the cache

  datatype CacheEntry<S> = CacheEntry(linearized: seq<bv64>, state: S)

  /** A hash value used as a bucket key. */
  datatype Key = Key(hash: bv64)

  type Cache<S> = map<Key, seq<CacheEntry<S>>>

  /** The buckets hold exactly the configurations in `entries`, each under the hash of its bit set. */
  ghost predicate Represents<S>(cache: Cache<S>, entries: set<(set<nat>, S)>, words: nat) {
    && (forall k, i {:trigger FiledAt(cache, k, i, entries, words)} ::
          k in cache && 0 <= i < |cache[k]| ==> FiledAt(cache, k, i, entries, words))
    && (forall c {:trigger InBuckets(cache, c)} :: c in entries ==> InBuckets(cache, c))
  }

  ghost predicate FiledAt<S>(cache: Cache<S>, k: Key, i: nat, entries: set<(set<nat>, S)>, words: nat)
    requires k in cache && i < |cache[k]|
  {
    var elem := cache[k][i];
    Key(HashOf(elem.linearized)) == k && |elem.linearized| == words
      && (MembersOf(elem.linearized), elem.state) in entries
  }

  ghost predicate InBuckets<S>(cache: Cache<S>, c: (set<nat>, S)) {
    exists k, i :: k in cache && 0 <= i < |cache[k]| && (MembersOf(cache[k][i].linearized), cache[k][i].state) == c
  }

  /** Looking in one bucket is as good as looking at everything ever inserted. */
  method CacheContains<S, I, O>(m: Model<S, I, O>, cache: Cache<S>, linearized: Bitset, state: S,
                                ghost entries: set<(set<nat>, S)>) returns (found: bool)
    requires Represents(cache, entries, |linearized.words|)
    ensures found <==> exists seen :: (linearized.Members(), seen) in entries && m.equal(state, seen)
  {
    var bits := linearized.Hash();
    var hash := Key(bits);
    ghost var members := linearized.Members();
    if hash in cache {
      var bucket := cache[hash];
      for i := 0 to |bucket|
        invariant forall j :: 0 <= j < i ==>
                    !(bucket[j].linearized == linearized.words && m.equal(state, bucket[j].state))
      {
        var elem := bucket[i];
        var same := SameWords(linearized.words, elem.linearized);
        if same && m.equal(state, elem.state) {
          assert FiledAt(cache, hash, i, entries, |linearized.words|);
          return true;
        }
      }
    }
    forall seen | (members, seen) in entries && m.equal(state, seen) ensures false {
      assert InBuckets(cache, (members, seen));
      var k, i :| k in cache && 0 <= i < |cache[k]|
        && (MembersOf(cache[k][i].linearized), cache[k][i].state) == (members, seen);
      assert FiledAt(cache, k, i, entries, |linearized.words|);
      SameMembersSameWords(cache[k][i].linearized, linearized.words);
    }
    return false;
  }

  function Insert<S>(cache: Cache<S>, hash: Key, entry: CacheEntry<S>): Cache<S> {
    cache[hash := (if hash in cache then cache[hash] else []) + [entry]]
  }

  lemma InsertRepresents<S>(cache: Cache<S>, entries: set<(set<nat>, S)>, words: nat, entry: CacheEntry<S>)
    requires Represents(cache, entries, words) && |entry.linearized| == words
    ensures Represents(Insert(cache, Key(HashOf(entry.linearized)), entry),
                       entries + {(MembersOf(entry.linearized), entry.state)}, words)
  {
    var hash := Key(HashOf(entry.linearized));
    var cache', entries' := Insert(cache, hash, entry), entries + {(MembersOf(entry.linearized), entry.state)};
    var bucket := if hash in cache then cache[hash] else [];
    assert cache'[hash] == bucket + [entry];
    assert forall k :: k in cache && k != hash ==> cache'[k] == cache[k];
    forall k, i | k in cache' && 0 <= i < |cache'[k]| ensures FiledAt(cache', k, i, entries', words) {
      if k in cache && i < |cache[k]| {
        assert FiledAt(cache, k, i, entries, words);
        assert cache'[k][i] == cache[k][i];
      } else {
        assert cache'[k][i] == entry;
      }
    }
    forall c | c in entries' ensures InBuckets(cache', c) {
      if c in entries {
        assert InBuckets(cache, c);
        var k, i :| k in cache && 0 <= i < |cache[k]| && (MembersOf(cache[k][i].linearized), cache[k][i].state) == c;
        assert cache'[k][i] == cache[k][i];
      } else {
        assert cache'[hash][|bucket|] == entry;
      }
    }
  }

  // ---------------------------------------------------------------- nodes and positions

  // Node 0 is the sentinel; node i + 1 carries the entry at position i.

  /** The nodes after the sentinel carry the entries, and each call knows the node of its return. */
  ghost predicate NodesOf<S(!new), I(!new), O(!new)>(nodes: seq<Node<Value<I, O>>>, t: Task<S, I, O>) {
    && |nodes| == |t.es| + 1 && t.Ready()
    && forall i {:trigger NodeAt(nodes, t, i)} :: 0 <= i < |t.es| ==> NodeAt(nodes, t, i)
  }

  ghost predicate NodeAt<S(!new), I(!new), O(!new)>(nodes: seq<Node<Value<I, O>>>, t: Task<S, I, O>, i: nat)
    requires i < |t.es| && |nodes| == |t.es| + 1 && t.Ready()
  {
    && DescribesAt(t.es, t.h, i) && DescribesOp(t.es, t.h, t.Id(i))
    && nodes[i + 1].value == t.es[i].value && nodes[i + 1].id == t.es[i].id
    && nodes[i + 1].matched == if t.es[i].kind.Call? then nodes[t.h[t.es[i].id].ret + 1] else null
  }

  lemma {:induction false} NextReturnIs<S(!new), I(!new), O(!new)>(t: Task<S, I, O>, i: nat, a: nat)
    requires t.Ready() && a in t.h && i <= t.h[a].ret
    ensures t.h[a].ret < |t.es| && NextReturn(t.es, i, a) == t.h[a].ret
    decreases t.h[a].ret - i
  {
    assert DescribesOp(t.es, t.h, a);
    if i < t.h[a].ret {
      assert DescribesAt(t.es, t.h, i);
      NextReturnIs(t, i + 1, a);
    }
  }

  lemma SentinelFirst<S(!new), I(!new), O(!new)>(sentinel: Node<Value<I, O>>, nodes: seq<Node<Value<I, O>>>,
                                                 t: Task<S, I, O>)
    requires t.Ready() && Carries(nodes, t.es)
    ensures NodesOf([sentinel] + nodes, t)
  {
    var all := [sentinel] + nodes;
    forall i | 0 <= i < |t.es| ensures NodeAt(all, t, i) {
      assert CarriesAt(nodes, t.es, 0, i);
      assert DescribesAt(t.es, t.h, i);
      assert DescribesOp(t.es, t.h, t.es[i].id);
      if t.es[i].kind.Call? {
        NextReturnIs(t, i + 1, t.es[i].id);
        assert all[t.h[t.es[i].id].ret + 1] == nodes[t.h[t.es[i].id].ret];
      }
    }
  }

  /** The position of the return of the call at position `c`. */
  ghost function RetOf<S(!new), I(!new), O(!new)>(t: Task<S, I, O>, c: int): int {
    if t.Id(c) in t.h then t.h[t.Id(c)].ret else c
  }

  /** The nodes lifted out along the stack: each call and then its return. */
  ghost function Gone<S(!new), I(!new), O(!new)>(t: Task<S, I, O>, path: seq<nat>): seq<int> {
    if path == [] then [] else
      var c := path[|path| - 1];
      Gone(t, path[..|path| - 1]) + [c + 1] + [RetOf(t, c) + 1]
  }

  /** A record is out of the list exactly when its operation is linearized; the sentinel and the end never are. */
  ghost predicate OutIs<S(!new), I(!new), O(!new)>(t: Task<S, I, O>, gone: seq<int>, done: set<nat>) {
    && 0 !in gone && |t.es| + 1 !in gone
    && forall i {:trigger OutAt(t, gone, done, i)} :: 0 <= i < |t.es| ==> OutAt(t, gone, done, i)
  }

  ghost predicate OutAt<S(!new), I(!new), O(!new)>(t: Task<S, I, O>, gone: seq<int>, done: set<nat>, i: nat) {
    i + 1 in gone <==> t.Id(i) in done
  }

  lemma OutPush<S(!new), I(!new), O(!new)>(t: Task<S, I, O>, gone: seq<int>, done: set<nat>, c: nat)
    requires t.Ready() && OutIs(t, gone, done) && t.IsCall(c)
    ensures OutIs(t, gone + [c + 1] + [RetOf(t, c) + 1], done + {t.Id(c)})
  {
    assert DescribesAt(t.es, t.h, c);
    assert DescribesOp(t.es, t.h, t.Id(c));
    var gone', done' := gone + [c + 1] + [RetOf(t, c) + 1], done + {t.Id(c)};
    forall i | 0 <= i < |t.es| ensures OutAt(t, gone', done', i) {
      assert OutAt(t, gone, done, i);
      assert DescribesAt(t.es, t.h, i);
    }
  }

  lemma {:induction false} GoneIsLinear<S(!new), I(!new), O(!new)>(t: Task<S, I, O>, path: seq<nat>)
    requires t.Ready() && forall k :: 0 <= k < |path| ==> t.IsCall(path[k])
    ensures OutIs(t, Gone(t, path), t.Linear(path))
    decreases |path|
  {
    if path == [] {
      assert t.Linear(path) == {};
    } else {
      var n := |path| - 1;
      var c, rest := path[n], path[..n];
      GoneIsLinear(t, rest);
      t.LinearPush(rest, c);
      assert rest + [c] == path;
      OutPush(t, Gone(t, rest), t.Linear(rest), c);
    }
  }

  /** A record is out of the list exactly when its operation is on the stack. */
  lemma StackIsOut<S(!new), I(!new), O(!new)>(t: Task<S, I, O>, lg: Longest, path: seq<nat>, states: seq<S>)
    requires t.Ready() && t.StackDone(lg, path, states)
    ensures OutIs(t, Gone(t, path), t.Linear(path))
  {
    forall k | 0 <= k < |path| ensures t.IsCall(path[k]) {
      assert t.ChosenAt(lg, path, states, k);
    }
    GoneIsLinear(t, path);
  }

  /** The node after node `i` is the next one whose operation is still open. */
  lemma NextIsOpen<S(!new), I(!new), O(!new)>(t: Task<S, I, O>, l: Links, gone: seq<int>, done: set<nat>, i: int)
    requires Woven(l, gone) && |l.next| == |t.es| + 1 && OutIs(t, gone, done)
    requires 0 <= i <= |t.es| && i !in gone
    ensures var n := l.next[i];
            && i < n <= |t.es| + 1
            && (n <= |t.es| ==> t.Id(n - 1) !in done)
            && (forall j :: i <= j < n - 1 ==> t.Id(j) in done)
  {
    var n := l.next[i];
    assert LiveAt(l, gone, i);
    if n <= |t.es| { assert OutAt(t, gone, done, n - 1); }
    forall j | i <= j < n - 1 ensures t.Id(j) in done {
      assert j + 1 in Elems(gone);
      assert OutAt(t, gone, done, j);
    }
  }
}
