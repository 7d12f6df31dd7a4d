module Histories {
  // The question the checker answers.
  //
  // A history is a finite set of operations, each with an input, an output and a
  // call and return instant.  It is linearizable for a sequential model when the
  // operations can be put in one order that never contradicts real time and that
  // the model accepts step by step from its initial state.

  datatype Option<+T> = None | Some(value: T)

  /** One completed operation. Only the order of the instants matters. */
  datatype Op<+I, +O> = Op(input: I, output: O, call: int, ret: int)

  /** A sequential object: where it starts, how it answers, and when two states are alike. */
  datatype Model<!S, !I, !O> = Model(init: S, step: (S, I, O) -> (bool, S), equal: (S, S) -> bool)

  type History<I, O> = map<nat, Op<I, O>>

  /** Every operation is called no later than it returns. */
  ghost predicate Timed<I, O>(h: History<I, O>) {
    forall a :: a in h ==> h[a].call <= h[a].ret
  }

  /** Real-time order: `a` had returned before `b` was called. */
  predicate Precedes<I, O>(h: History<I, O>, a: nat, b: nat)
    requires a in h && b in h
  {
    h[a].ret < h[b].call
  }

  function Elems<T>(p: seq<T>): set<T> {
    set x | x in p
  }

  lemma ElemsPush<T>(s: seq<T>, x: T)
    ensures Elems(s + [x]) == Elems(s) + {x}
  {
    assert (s + [x])[|s|] == x;
    forall y | y in s ensures y in s + [x] {
      var i :| 0 <= i < |s| && s[i] == y;
      assert (s + [x])[i] == y;
    }
  }

  predicate NoDup<T(==)>(p: seq<T>) {
    forall i, j :: 0 <= i < j < |p| ==> p[i] != p[j]
  }

  lemma {:induction false} DistinctCount<T>(p: seq<T>)
    requires NoDup(p)
    ensures |Elems(p)| == |p|
  {
    if p == [] {
      assert Elems(p) == {};
    } else {
      var front, last := p[..|p| - 1], p[|p| - 1];
      DistinctCount(front);
      assert last !in front;
      ElemsPush(front, last);
      assert front + [last] == p;
    }
  }

  /** Numbers below n are at most n. */
  lemma {:induction false} FitsBelow(s: set<int>, n: nat)
    requires forall x :: x in s ==> 0 <= x < n
    ensures |s| <= n
    decreases n
  {
    if n == 0 {
      assert forall x :: x !in s;
      assert s == {};
    } else {
      FitsBelow(s - {n - 1}, n - 1);
      assert |s| <= |s - {n - 1}| + 1;
    }
  }

  ghost predicate Within<I, O>(h: History<I, O>, p: seq<nat>) {
    forall x :: x in p ==> x in h
  }

  function Step<S, I, O>(m: Model<S, I, O>, h: History<I, O>, s: S, x: nat): (bool, S)
    requires x in h
  {
    m.step(s, h[x].input, h[x].output)
  }

  /** The model accepts the operations of `p` one after the other, starting from `s`. */
  ghost predicate Accepts<S, I, O>(m: Model<S, I, O>, h: History<I, O>, s: S, p: seq<nat>)
    requires Within(h, p)
  {
    p == [] || (Step(m, h, s, p[0]).0 && Accepts(m, h, Step(m, h, s, p[0]).1, p[1..]))
  }

  /** No operation of `p` comes after one that it precedes in real time. */
  ghost predicate RespectsRealTime<I, O>(h: History<I, O>, p: seq<nat>)
    requires Within(h, p)
  {
    forall i, j :: 0 <= i < j < |p| ==> !Precedes(h, p[j], p[i])
  }

  /** `p` orders exactly the operations outside `done`, legally, from `s`. */
  ghost predicate Completes<S, I, O>(m: Model<S, I, O>, h: History<I, O>, done: set<nat>, s: S, p: seq<nat>) {
    && NoDup(p) && Within(h, p)
    && Elems(p) == h.Keys - done
    && RespectsRealTime(h, p)
    && Accepts(m, h, s, p)
  }

  /** The definition: some permutation of all operations respects real time and is accepted. */
  ghost predicate Linearizable<S, I, O>(m: Model<S, I, O>, h: History<I, O>) {
    exists p :: Completes(m, h, {}, m.init, p)
  }

  /** `x` may be linearized next: nothing still open returned before it was called. */
  ghost predicate Minimal<I, O>(h: History<I, O>, done: set<nat>, x: nat) {
    x in h && x !in done && forall a :: a in h && a !in done && a != x ==> !Precedes(h, a, x)
  }

  /** `x` may be linearized next and the model accepts it in state `s`. */
  ghost predicate Enabled<S, I, O>(m: Model<S, I, O>, h: History<I, O>, done: set<nat>, s: S, x: nat) {
    Minimal(h, done, x) && Step(m, h, s, x).0
  }

  /** The plain backtracking search, without a memo table: some enabled choice leads to completion. */
  ghost predicate CanFinish<S, I, O>(m: Model<S, I, O>, h: History<I, O>, done: set<nat>, s: S)
    decreases h.Keys - done
  {
    h.Keys <= done ||
    exists x :: Enabled(m, h, done, s, x) && CanFinish(m, h, done + {x}, Step(m, h, s, x).1)
  }

  lemma {:induction false} ConsCompletes<S, I, O>(m: Model<S, I, O>, h: History<I, O>, done: set<nat>, s: S, x: nat,
                                                  q: seq<nat>)
    requires Enabled(m, h, done, s, x) && Completes(m, h, done + {x}, Step(m, h, s, x).1, q)
    ensures Completes(m, h, done, s, [x] + q)
  {
    var p := [x] + q;
    assert Elems(p) == {x} + Elems(q);
    forall i, j | 0 <= i < j < |p| ensures !Precedes(h, p[j], p[i]) && p[i] != p[j] {
      assert p[j] == q[j - 1] && p[j] in Elems(q);
    }
    assert p[1..] == q;
  }

  lemma {:induction false} FinishGivesOrder<S, I, O>(m: Model<S, I, O>, h: History<I, O>, done: set<nat>, s: S)
    returns (p: seq<nat>)
    requires CanFinish(m, h, done, s)
    ensures Completes(m, h, done, s, p)
    decreases h.Keys - done
  {
    if h.Keys <= done {
      p := [];
    } else {
      var x :| Enabled(m, h, done, s, x) && CanFinish(m, h, done + {x}, Step(m, h, s, x).1);
      var q := FinishGivesOrder(m, h, done + {x}, Step(m, h, s, x).1);
      ConsCompletes(m, h, done, s, x, q);
      p := [x] + q;
    }
  }

  lemma {:induction false} OrderGivesFinish<S, I, O>(m: Model<S, I, O>, h: History<I, O>, done: set<nat>, s: S,
                                                     p: seq<nat>)
    requires Completes(m, h, done, s, p)
    ensures CanFinish(m, h, done, s)
    decreases |p|
  {
    if p == [] {
      assert Elems(p) == {};
      forall a | a in h ensures a in done { assert a !in h.Keys - done; }
    } else {
      var x, q := p[0], p[1..];
      assert x in Elems(p);
      forall a | a in h && a !in done && a != x ensures !Precedes(h, a, x) {
        assert a in Elems(p);
        var j :| 0 <= j < |p| && p[j] == a;
      }
      assert Enabled(m, h, done, s, x);
      assert Elems(q) == h.Keys - (done + {x}) by {
        assert Elems(p) == {x} + Elems(q);
        assert x !in q;
      }
      OrderGivesFinish(m, h, done + {x}, Step(m, h, s, x).1, q);
    }
  }

  /** The plain search decides linearizability: it finishes exactly when a legal order exists. */
  lemma {:induction false} FinishIffLinearizable<S, I, O>(m: Model<S, I, O>, h: History<I, O>)
    ensures CanFinish(m, h, {}, m.init) <==> Linearizable(m, h)
  {
    if CanFinish(m, h, {}, m.init) {
      var p := FinishGivesOrder(m, h, {}, m.init);
    }
    if Linearizable(m, h) {
      var p :| Completes(m, h, {}, m.init, p);
      OrderGivesFinish(m, h, {}, m.init, p);
    }
  }

  // ---------------------------------------------------------------- partial linearizations

  /** `q` extends `done` legally from `s`, each operation being enabled when its turn comes. */
  ghost predicate PartialFrom<S, I, O>(m: Model<S, I, O>, h: History<I, O>, done: set<nat>, s: S, q: seq<nat>)
    decreases |q|
  {
    q == [] || (Enabled(m, h, done, s, q[0]) && PartialFrom(m, h, done + {q[0]}, Step(m, h, s, q[0]).1, q[1..]))
  }

  /** A legal beginning of a linearization. */
  ghost predicate PartialLinearization<S, I, O>(m: Model<S, I, O>, h: History<I, O>, q: seq<nat>) {
    PartialFrom(m, h, {}, m.init, q)
  }

  ghost function StateAfter<S, I, O>(m: Model<S, I, O>, h: History<I, O>, s: S, q: seq<nat>): S
    requires Within(h, q)
    decreases |q|
  {
    if q == [] then s else StateAfter(m, h, Step(m, h, s, q[0]).1, q[1..])
  }

  lemma {:induction false} PartialInHistory<S, I, O>(m: Model<S, I, O>, h: History<I, O>, done: set<nat>, s: S,
                                                     q: seq<nat>)
    requires PartialFrom(m, h, done, s, q)
    ensures NoDup(q) && Within(h, q) && Elems(q) <= h.Keys - done && Accepts(m, h, s, q)
    decreases |q|
  {
    if q != [] {
      PartialInHistory(m, h, done + {q[0]}, Step(m, h, s, q[0]).1, q[1..]);
      assert Elems(q) == {q[0]} + Elems(q[1..]);
      forall i, j | 0 <= i < j < |q| ensures q[i] != q[j] {
        assert q[j] == q[1..][j - 1] && q[j] in Elems(q[1..]);
      }
      forall x | x in q[1..] ensures x in h { assert x in Elems(q[1..]); }
    }
  }

  lemma {:induction false} PartialExtend<S, I, O>(m: Model<S, I, O>, h: History<I, O>, done: set<nat>, s: S,
                                                  q: seq<nat>, x: nat)
    requires Within(h, q)
    requires PartialFrom(m, h, done, s, q)
    requires Enabled(m, h, done + Elems(q), StateAfter(m, h, s, q), x)
    ensures PartialFrom(m, h, done, s, q + [x])
    ensures Within(h, q + [x])
    ensures StateAfter(m, h, s, q + [x]) == Step(m, h, StateAfter(m, h, s, q), x).1
    decreases |q|
  {
    if q == [] {
      assert done + Elems(q) == done;
      assert q + [x] == [x];
    } else {
      var s' := Step(m, h, s, q[0]).1;
      assert done + {q[0]} + Elems(q[1..]) == done + Elems(q) by { assert Elems(q) == {q[0]} + Elems(q[1..]); }
      PartialExtend(m, h, done + {q[0]}, s', q[1..], x);
      assert (q + [x])[1..] == q[1..] + [x];
    }
  }

  // ---------------------------------------------------------------- states that count as equal

  /**
   What the search needs of the model's `equal`: it is reflexive, and whatever the left state can do the right one can
   match.
   */
  ghost predicate EqualIsSafe<S(!new), I(!new), O(!new)>(m: Model<S, I, O>) {
    && (forall s :: m.equal(s, s))
    && (forall a, b, i, o :: m.equal(a, b) && m.step(a, i, o).0 ==>
          m.step(b, i, o).0 && m.equal(m.step(a, i, o).1, m.step(b, i, o).1))
  }

  lemma {:induction false} EqualStatesFinishAlike<S(!new), I(!new), O(!new)>(m: Model<S, I, O>, h: History<I, O>,
                                                                             done: set<nat>, a: S, b: S)
    requires EqualIsSafe(m) && m.equal(a, b) && CanFinish(m, h, done, a)
    ensures CanFinish(m, h, done, b)
    decreases h.Keys - done
  {
    if !(h.Keys <= done) {
      var x :| Enabled(m, h, done, a, x) && CanFinish(m, h, done + {x}, Step(m, h, a, x).1);
      EqualStatesFinishAlike(m, h, done + {x}, Step(m, h, a, x).1, Step(m, h, b, x).1);
      assert Enabled(m, h, done, b, x);
    }
  }

  // ---------------------------------------------------------------- renaming and re-timing

  /** `f` renames the operations of `h` onto those of `k`, keeping values and real-time order. */
  ghost predicate SameQuestion<I, O>(h: History<I, O>, k: History<I, O>, f: map<nat, nat>) {
    && f.Keys == h.Keys && f.Values == k.Keys
    && (forall a, b :: a in h && b in h && a != b ==> f[a] != f[b])
    && (forall a :: a in h ==> f[a] in k && k[f[a]].input == h[a].input && k[f[a]].output == h[a].output)
    && (forall a, b :: a in h && b in h && a != b ==> (Precedes(h, a, b) <==> Precedes(k, f[a], f[b])))
  }

  ghost function Renamed(f: map<nat, nat>, done: set<nat>): set<nat>
  {
    set a | a in f && a in done :: f[a]
  }

  lemma {:induction false} RenamedMinimal<I, O>(h: History<I, O>, k: History<I, O>, f: map<nat, nat>, done: set<nat>,
                                                x: nat)
    requires SameQuestion(h, k, f) && Minimal(h, done, x)
    ensures Minimal(k, Renamed(f, done), f[x]) && Renamed(f, done + {x}) == Renamed(f, done) + {f[x]}
  {
    forall b | b in k && b !in Renamed(f, done) && b != f[x] ensures !Precedes(k, b, f[x]) {
      assert b in f.Values;
      var a :| a in f && f[a] == b;
      assert a !in done && a != x;
      assert !Precedes(h, a, x);
    }
  }

  lemma {:induction false} RenamedAll<I, O>(h: History<I, O>, k: History<I, O>, f: map<nat, nat>, done: set<nat>)
    requires SameQuestion(h, k, f) && h.Keys <= done
    ensures k.Keys <= Renamed(f, done)
  {
    forall b | b in k ensures b in Renamed(f, done) {
      assert b in f.Values;
      var a :| a in f && f[a] == b;
    }
  }

  lemma {:induction false} RenamedFinishes<S, I, O>(m: Model<S, I, O>, h: History<I, O>, k: History<I, O>,
                                                    f: map<nat, nat>, done: set<nat>, s: S)
    requires SameQuestion(h, k, f) && CanFinish(m, h, done, s)
    ensures CanFinish(m, k, Renamed(f, done), s)
    decreases h.Keys - done
  {
    if h.Keys <= done {
      RenamedAll(h, k, f, done);
    } else {
      var x :| Enabled(m, h, done, s, x) && CanFinish(m, h, done + {x}, Step(m, h, s, x).1);
      RenamedFinishes(m, h, k, f, done + {x}, Step(m, h, s, x).1);
      RenamedMinimal(h, k, f, done, x);
      assert Enabled(m, k, Renamed(f, done), s, f[x]);
    }
  }

  lemma {:induction false} InverseRenaming<I, O>(h: History<I, O>, k: History<I, O>, f: map<nat, nat>)
    returns (g: map<nat, nat>)
    requires SameQuestion(h, k, f)
    ensures SameQuestion(k, h, g)
  {
    g := map b | b in k :: (assert b in f.Values; var a :| a in f && f[a] == b; a);
    forall a | a in h ensures f[a] in g && g[f[a]] == a { assert a in f; }
    forall b | b in k ensures g[b] in h && f[g[b]] == b { }
    assert g.Values == h.Keys by {
      forall a | a in h ensures a in g.Values { assert f[a] in g && g[f[a]] == a; }
    }
  }

  lemma {:induction false} RenamedLinearizable<S, I, O>(m: Model<S, I, O>, h: History<I, O>, k: History<I, O>,
                                                        f: map<nat, nat>)
    requires SameQuestion(h, k, f) && Linearizable(m, h)
    ensures Linearizable(m, k)
  {
    var p :| Completes(m, h, {}, m.init, p);
    OrderGivesFinish(m, h, {}, m.init, p);
    RenamedFinishes(m, h, k, f, {}, m.init);
    assert Renamed(f, {}) == {};
    var q := FinishGivesOrder(m, k, {}, m.init);
  }

  /** Linearizability does not depend on names or exact instants, only on values and real-time order. */
  lemma {:induction false} SameQuestionSameAnswer<S, I, O>(m: Model<S, I, O>, h: History<I, O>, k: History<I, O>,
                                                           f: map<nat, nat>)
    requires SameQuestion(h, k, f)
    ensures Linearizable(m, h) <==> Linearizable(m, k)
  {
    var g := InverseRenaming(h, k, f);
    if Linearizable(m, h) { RenamedLinearizable(m, h, k, f); }
    if Linearizable(m, k) { RenamedLinearizable(m, k, h, g); }
  }
}
