/**
 What the backtracking search keeps true, as statements about entries, sets and
 states; the code that maintains it lives in `Search`.
 */
module Searching {
  import opened Histories
  import opened Entries

  /** For each operation, the longest partial linearization containing it seen so far. */
  type Longest = seq<Option<seq<nat>>>

  ghost predicate Recorded(lg: Longest, i: nat, n: nat) {
    i < |lg| && lg[i].Some? && |lg[i].value| >= n
  }

  ghost predicate AllRecorded(lg: Longest, ids: set<nat>, n: nat) {
    forall i {:trigger Recorded(lg, i, n)} :: i in ids ==> Recorded(lg, i, n)
  }

  ghost predicate Grows(lg: Longest, lg': Longest) {
    forall i: nat, n: nat :: Recorded(lg, i, n) ==> Recorded(lg', i, n)
  }

  /** Every partial linearization through this configuration has been recorded for all its operations. */
  ghost predicate Covered<S, I, O>(m: Model<S, I, O>, h: History<I, O>, lg: Longest, done: set<nat>, s: S)
    decreases h.Keys - done
  {
    && AllRecorded(lg, done, |done|)
    && (forall x :: Enabled(m, h, done, s, x) ==> Covered(m, h, lg, done + {x}, Step(m, h, s, x).1))
  }

  /** Nothing more to learn here: no completion exists and, if asked for, all that is partial is recorded. */
  ghost predicate Exhausted<S, I, O>(m: Model<S, I, O>, h: History<I, O>, partial: bool, lg: Longest, done: set<nat>,
                                     s: S)
  {
    !CanFinish(m, h, done, s) && (partial ==> Covered(m, h, lg, done, s))
  }

  // ---------------------------------------------------------------- facts about exhausted configurations

  lemma {:induction false} CoveredGrows<S, I, O>(m: Model<S, I, O>, h: History<I, O>, lg: Longest, lg': Longest,
                                                 done: set<nat>, s: S)
    requires Covered(m, h, lg, done, s) && Grows(lg, lg')
    ensures Covered(m, h, lg', done, s)
    decreases h.Keys - done
  {
    forall x | Enabled(m, h, done, s, x) ensures Covered(m, h, lg', done + {x}, Step(m, h, s, x).1) {
      CoveredGrows(m, h, lg, lg', done + {x}, Step(m, h, s, x).1);
    }
  }

  lemma ExhaustedGrows<S, I, O>(m: Model<S, I, O>, h: History<I, O>, partial: bool, lg: Longest, lg': Longest,
                                done: set<nat>, s: S)
    requires Exhausted(m, h, partial, lg, done, s) && Grows(lg, lg')
    ensures Exhausted(m, h, partial, lg', done, s)
  {
    if partial { CoveredGrows(m, h, lg, lg', done, s); }
  }

  lemma {:induction false} EqualStatesCoveredAlike<S(!new), I(!new), O(!new)>(m: Model<S, I, O>, h: History<I, O>,
                                                                              lg: Longest, done: set<nat>, a: S, b: S)
    requires EqualIsSafe(m) && m.equal(a, b) && Covered(m, h, lg, done, b)
    ensures Covered(m, h, lg, done, a)
    decreases h.Keys - done
  {
    forall x | Enabled(m, h, done, a, x) ensures Covered(m, h, lg, done + {x}, Step(m, h, a, x).1) {
      assert Enabled(m, h, done, b, x);
      EqualStatesCoveredAlike(m, h, lg, done + {x}, Step(m, h, a, x).1, Step(m, h, b, x).1);
    }
  }

  /** Skipping a configuration because an equal one is exhausted loses nothing. */
  lemma EqualStatesExhaustedAlike<S(!new), I(!new), O(!new)>(m: Model<S, I, O>, h: History<I, O>, partial: bool,
                                                             lg: Longest, done: set<nat>, a: S, b: S)
    requires EqualIsSafe(m) && m.equal(a, b) && Exhausted(m, h, partial, lg, done, b)
    ensures Exhausted(m, h, partial, lg, done, a)
  {
    if CanFinish(m, h, done, a) { EqualStatesFinishAlike(m, h, done, a, b); }
    if partial { EqualStatesCoveredAlike(m, h, lg, done, a, b); }
  }

  lemma {:induction false} CoveredBounds<S, I, O>(m: Model<S, I, O>, h: History<I, O>, lg: Longest, done: set<nat>,
                                                  s: S, q: seq<nat>, i: nat)
    requires Covered(m, h, lg, done, s) && PartialFrom(m, h, done, s, q) && (i in done || i in q)
    ensures Recorded(lg, i, |done| + |q|)
    decreases |q|
  {
    if q != [] {
      assert i in done || i == q[0] || i in q[1..];
      CoveredBounds(m, h, lg, done + {q[0]}, Step(m, h, s, q[0]).1, q[1..], i);
    }
  }

  // ---------------------------------------------------------------- small facts

  /** A partial linearization that leaves nothing out is a linearization. */
  lemma {:induction false} PartialCompletes<S, I, O>(m: Model<S, I, O>, h: History<I, O>, done: set<nat>, s: S,
                                                     q: seq<nat>)
    requires PartialFrom(m, h, done, s, q) && h.Keys <= done + Elems(q)
    ensures Completes(m, h, done, s, q)
    decreases |q|
  {
    if q == [] {
      assert Elems(q) == {} && h.Keys - done == {};
    } else {
      assert Elems(q) == {q[0]} + Elems(q[1..]);
      PartialCompletes(m, h, done + {q[0]}, Step(m, h, s, q[0]).1, q[1..]);
      ConsCompletes(m, h, done, s, q[0], q[1..]);
      assert [q[0]] + q[1..] == q;
    }
  }

  // ---------------------------------------------------------------- finitely many configurations

  /** All configurations that choices from here can lead to, legal or not. */
  ghost function Reach<S, I, O>(m: Model<S, I, O>, h: History<I, O>, done: set<nat>, s: S): set<(set<nat>, S)>
    decreases h.Keys - done
  {
    {(done, s)} + set x, c | x in h.Keys - done && c in Reach(m, h, done + {x}, Step(m, h, s, x).1) :: c
  }

  lemma {:induction false} ReachIsClosed<S, I, O>(m: Model<S, I, O>, h: History<I, O>, done: set<nat>, s: S,
                                                  c: (set<nat>, S), x: nat)
    requires c in Reach(m, h, done, s) && x in h && x !in c.0
    ensures (c.0 + {x}, Step(m, h, c.1, x).1) in Reach(m, h, done, s)
    decreases h.Keys - done
  {
    if c == (done, s) {
      var n := (done + {x}, Step(m, h, s, x).1);
      assert x in h.Keys - done && n in Reach(m, h, done + {x}, Step(m, h, s, x).1);
    } else {
      var y :| y in h.Keys - done && c in Reach(m, h, done + {y}, Step(m, h, s, y).1);
      ReachIsClosed(m, h, done + {y}, Step(m, h, s, y).1, c, x);
    }
  }

  // ---------------------------------------------------------------- the search

  /**
   What a search works on: a model, the entries and the history they describe,
   whether partial results are wanted, and a finite set that holds every configuration it can meet.
   */
  datatype Task<!S(!new), !I(!new), !O(!new)> =
    Task(m: Model<S, I, O>, es: seq<Entry<Value<I, O>>>, h: History<I, O>, partial: bool,
         ghost configs: set<(set<nat>, S)>)
  {
    /** The entries describe the history, and the configurations are closed under linearizing one more operation. */
    ghost predicate Ready() {
      && Describes(es, h)
      && ({}, m.init) in configs
      && (forall c, x {:trigger NextIn(c, x)} :: c in configs && x in h && x !in c.0 ==> NextIn(c, x))
    }

    ghost predicate NextIn(c: (set<nat>, S), x: nat)
      requires x in h
    {
      (c.0 + {x}, Step(m, h, c.1, x).1) in configs
    }

    ghost predicate IsCall(i: int) {
      0 <= i < |es| && es[i].kind.Call?
    }

    ghost predicate IsReturn(i: int) {
      0 <= i < |es| && es[i].kind.Return?
    }

    ghost function Id(i: int): nat {
      if 0 <= i < |es| then es[i].id else 0
    }

    /** The operations on a stack of call positions, in order and as a set. */
    ghost function Names(path: seq<nat>): (q: seq<nat>)
      ensures |q| == |path|
    {
      if path == [] then [] else Names(path[..|path| - 1]) + [Id(path[|path| - 1])]
    }

    ghost function Linear(path: seq<nat>): set<nat> {
      Elems(Names(path))
    }

    /** Linearizing `x` next has been tried, or is known to fail. */
    ghost predicate ChoiceDone(lg: Longest, done: set<nat>, s: S, x: nat) {
      x in h && (Step(m, h, s, x).0 ==> Exhausted(m, h, partial, lg, done + {x}, Step(m, h, s, x).1))
    }

    ghost predicate Tried(lg: Longest, done: set<nat>, s: S, j: nat) {
      Id(j) !in done ==> IsCall(j) && ChoiceDone(lg, done, s, Id(j))
    }

    /** All open records before position `bound` are calls that have been tried in vain. */
    ghost predicate LevelDone(lg: Longest, done: set<nat>, s: S, bound: int) {
      forall j {:trigger Tried(lg, done, s, j)} :: 0 <= j < bound && j < |es| ==> Tried(lg, done, s, j)
    }

    /** From `done` and `s`, the call at position `c` was chosen after all earlier ones had failed, and led to `s'`. */
    ghost predicate Chosen(lg: Longest, done: set<nat>, s: S, c: nat, s': S) {
      && IsCall(c) && Id(c) !in done && Id(c) in h
      && Step(m, h, s, Id(c)) == (true, s')
      && LevelDone(lg, done, s, c)
    }

    ghost predicate ChosenAt(lg: Longest, path: seq<nat>, states: seq<S>, k: nat)
      requires k < |path| < |states|
    {
      && Chosen(lg, Linear(path[..k]), states[k], path[k], states[k + 1])
      && (Linear(path[..k]), states[k]) in configs
    }

    ghost predicate StackDone(lg: Longest, path: seq<nat>, states: seq<S>) {
      && |states| == |path| + 1 && states[0] == m.init
      && (forall k {:trigger ChosenAt(lg, path, states, k)} :: 0 <= k < |path| ==> ChosenAt(lg, path, states, k))
    }

    ghost predicate Stacked(path: seq<nat>, states: seq<S>, c: (set<nat>, S))
      requires |path| < |states|
    {
      exists k :: 1 <= k <= |path| && c == (Linear(path[..k]), states[k])
    }

    ghost predicate Settled(lg: Longest, path: seq<nat>, states: seq<S>, c: (set<nat>, S))
      requires |path| < |states|
    {
      Exhausted(m, h, partial, lg, c.0, c.1) || Stacked(path, states, c)
    }

    /** Everything ever cached is exhausted, or is a configuration still on the stack. */
    ghost predicate CacheDone(lg: Longest, path: seq<nat>, states: seq<S>, cache: set<(set<nat>, S)>)
      requires |path| < |states|
    {
      forall c {:trigger Settled(lg, path, states, c)} :: c in cache ==> Settled(lg, path, states, c)
    }

    /** What is recorded for an operation is a partial linearization that contains it. */
    ghost predicate LongestSound(lg: Longest) {
      forall i {:trigger SoundAt(lg, i)} :: 0 <= i < |lg| ==> SoundAt(lg, i)
    }

    ghost predicate SoundAt(lg: Longest, i: nat)
      requires i < |lg|
    {
      lg[i].Some? ==> PartialLinearization(m, h, lg[i].value) && i in lg[i].value
    }

    /**
     Nothing kept so far got shorter, and every operation on the stack now has something at least as long as the
     stack.
     */
    ghost predicate Improves(lg: Longest, lg': Longest, path: seq<nat>) {
      && Grows(lg, lg') && LongestSound(lg')
      && (partial ==> AllRecorded(lg', Linear(path), |path|))
    }

    /** The invariant of the search; `e` is the position being looked at. */
    ghost predicate SearchInv(lg: Longest, path: seq<nat>, states: seq<S>, cache: set<(set<nat>, S)>, e: int) {
      && Ready()
      && StackDone(lg, path, states)
      && LevelDone(lg, Linear(path), states[|path|], e)
      && CacheDone(lg, path, states, cache)
      && LongestSound(lg)
    }

    // -------------------------------------------------------------- positions and operations

    /** A call with no open return before it may be linearized next. */
    lemma CallIsMinimal(lg: Longest, done: set<nat>, s: S, c: nat)
      requires Ready() && IsCall(c) && Id(c) !in done && LevelDone(lg, done, s, c)
      ensures Minimal(h, done, Id(c))
    {
      assert DescribesAt(es, h, c);
      forall a | a in h && a !in done && a != Id(c) ensures !Precedes(h, a, Id(c)) {
        assert DescribesOp(es, h, a);
        assert h[a].ret < c ==> Tried(lg, done, s, h[a].ret);
      }
    }

    /** At an open return, with every call before it tried in vain, the configuration is exhausted. */
    lemma {:induction false} StuckIsExhausted(lg: Longest, done: set<nat>, s: S, r: nat)
      requires Ready() && IsReturn(r) && Id(r) !in done && LevelDone(lg, done, s, r)
      requires partial ==> AllRecorded(lg, done, |done|)
      ensures Exhausted(m, h, partial, lg, done, s)
    {
      assert DescribesAt(es, h, r);
      assert DescribesOp(es, h, Id(r));
      forall x | Enabled(m, h, done, s, x) ensures Exhausted(m, h, partial, lg, done + {x}, Step(m, h, s, x).1) {
        assert DescribesOp(es, h, x);
        assert Id(r) != x ==> !Precedes(h, Id(r), x);
        assert Tried(lg, done, s, h[x].call);
      }
    }

    // -------------------------------------------------------------- the path is a partial linearization

    lemma LinearPush(path: seq<nat>, c: nat)
      ensures Names(path + [c]) == Names(path) + [Id(c)]
      ensures Linear(path + [c]) == Linear(path) + {Id(c)}
    {
      assert (path + [c])[..|path|] == path;
      ElemsPush(Names(path), Id(c));
    }

    lemma {:induction false} LinearPrefix(path: seq<nat>, k: nat)
      requires k <= |path|
      ensures Linear(path[..k]) <= Linear(path)
      decreases |path|
    {
      if k < |path| {
        var n := |path| - 1;
        LinearPrefix(path[..n], k);
        assert path[..n][..k] == path[..k] && path[..n] + [path[n]] == path;
        LinearPush(path[..n], path[n]);
      } else {
        assert path[..k] == path;
      }
    }

    /** The calls on the stack spell out a partial linearization that ends in state `s`. */
    ghost predicate SpellsOut(path: seq<nat>, s: S) {
      var q := Names(path);
      && Within(h, q) && PartialLinearization(m, h, q) && StateAfter(m, h, m.init, q) == s
      && |Linear(path)| == |path| && Linear(path) <= h.Keys
    }

    lemma {:induction false} SpellsOneMore(lg: Longest, path: seq<nat>, s: S, c: nat, s': S)
      requires Ready() && SpellsOut(path, s) && Chosen(lg, Linear(path), s, c, s')
      ensures SpellsOut(path + [c], s')
    {
      LinearPush(path, c);
      CallIsMinimal(lg, Linear(path), s, c);
      assert {} + Linear(path) == Linear(path);
      PartialExtend(m, h, {}, m.init, Names(path), Id(c));
    }

    lemma {:induction false} PathSpells(lg: Longest, path: seq<nat>, states: seq<S>, k: nat)
      requires Ready() && StackDone(lg, path, states) && k <= |path|
      ensures SpellsOut(path[..k], states[k])
      decreases k
    {
      if k == 0 {
        assert Linear(path[..0]) == {};
      } else {
        PathSpells(lg, path, states, k - 1);
        assert ChosenAt(lg, path, states, k - 1);
        SpellsOneMore(lg, path[..k - 1], states[k - 1], path[k - 1], states[k]);
        assert path[..k] == path[..k - 1] + [path[k - 1]];
      }
    }

    lemma {:induction false} TopIsConfig(lg: Longest, path: seq<nat>, states: seq<S>)
      requires Ready() && StackDone(lg, path, states)
      ensures (Linear(path), states[|path|]) in configs
    {
      if path == [] {
        assert Linear(path) == {};
      } else {
        var n := |path| - 1;
        assert ChosenAt(lg, path, states, n);
        assert path[..n] + [path[n]] == path;
        LinearPush(path[..n], path[n]);
        assert NextIn((Linear(path[..n]), states[n]), Id(path[n]));
      }
    }

    /** The whole stack spells out a partial linearization that ends in the current state. */
    lemma {:induction false} StackSpells(lg: Longest, path: seq<nat>, states: seq<S>)
      requires Ready() && StackDone(lg, path, states)
      ensures SpellsOut(path, states[|path|])
    {
      PathSpells(lg, path, states, |path|);
      assert path[..|path|] == path;
    }

    /** Whatever the search caches next is one of finitely many configurations: this bounds the search. */
    lemma {:induction false} NextIsConfig(lg: Longest, path: seq<nat>, states: seq<S>, x: nat)
      requires Ready() && StackDone(lg, path, states) && x in h && x !in Linear(path)
      ensures (Linear(path) + {x}, Step(m, h, states[|path|], x).1) in configs
    {
      TopIsConfig(lg, path, states);
      assert NextIn((Linear(path), states[|path|]), x);
    }

    // -------------------------------------------------------------- the moves of the search

    lemma LevelGrows(lg: Longest, lg': Longest, done: set<nat>, s: S, bound: int)
      requires LevelDone(lg, done, s, bound) && Grows(lg, lg')
      ensures LevelDone(lg', done, s, bound)
    {
      forall j | 0 <= j < bound && j < |es| ensures Tried(lg', done, s, j) {
        assert Tried(lg, done, s, j);
        var x := Id(j);
        if x !in done && Step(m, h, s, x).0 {
          ExhaustedGrows(m, h, partial, lg, lg', done + {x}, Step(m, h, s, x).1);
        }
      }
    }

    /** On to the next open record, once the call at `e` has failed. */
    lemma LevelAdvances(lg: Longest, done: set<nat>, s: S, e: nat, e': int)
      requires LevelDone(lg, done, s, e) && IsCall(e) && ChoiceDone(lg, done, s, Id(e))
      requires forall j :: e < j < e' && j < |es| ==> Id(j) in done
      ensures LevelDone(lg, done, s, e')
    {
      forall j | 0 <= j < e' && j < |es| ensures Tried(lg, done, s, j) {
        assert j < e ==> Tried(lg, done, s, j);
      }
    }

    /** A choice whose outcome equals a cached configuration is exhausted: that configuration cannot be on the stack. */
    lemma CachedChoiceIsDone(lg: Longest, path: seq<nat>, states: seq<S>, cache: set<(set<nat>, S)>, x: nat, s': S,
                             seen: S)
      requires EqualIsSafe(m) && |states| == |path| + 1 && CacheDone(lg, path, states, cache)
      requires x in h && x !in Linear(path) && Step(m, h, states[|path|], x) == (true, s')
      requires (Linear(path) + {x}, seen) in cache && m.equal(s', seen)
      ensures ChoiceDone(lg, Linear(path), states[|path|], x)
    {
      var c := (Linear(path) + {x}, seen);
      assert Settled(lg, path, states, c);
      assert !Stacked(path, states, c) by {
        forall k | 1 <= k <= |path| ensures x !in Linear(path[..k]) {
          LinearPrefix(path, k);
        }
      }
      EqualStatesExhaustedAlike(m, h, partial, lg, c.0, s', seen);
    }

    lemma StackPush(lg: Longest, path: seq<nat>, states: seq<S>, e: nat, s': S)
      requires Ready() && StackDone(lg, path, states) && Chosen(lg, Linear(path), states[|path|], e, s')
      ensures StackDone(lg, path + [e], states + [s'])
    {
      var p, t := path + [e], states + [s'];
      TopIsConfig(lg, path, states);
      forall k | 0 <= k < |p| ensures ChosenAt(lg, p, t, k) {
        if k < |path| {
          assert p[..k] == path[..k];
          assert ChosenAt(lg, path, states, k);
        } else {
          assert p[..k] == path;
        }
      }
    }

    /** The search goes one level down: the new configuration is cached and on the stack. */
    lemma Descend(lg: Longest, path: seq<nat>, states: seq<S>, cache: set<(set<nat>, S)>, e: nat, s': S, e': int)
      requires SearchInv(lg, path, states, cache, e) && IsCall(e) && Id(e) !in Linear(path)
      requires Id(e) in h && Step(m, h, states[|path|], Id(e)) == (true, s')
      requires forall j :: 0 <= j < e' && j < |es| ==> Id(j) in Linear(path) + {Id(e)}
      ensures SearchInv(lg, path + [e], states + [s'], cache + {(Linear(path) + {Id(e)}, s')}, e')
    {
      var p, t, cache' := path + [e], states + [s'], cache + {(Linear(path) + {Id(e)}, s')};
      StackPush(lg, path, states, e, s');
      LinearPush(path, e);
      forall c | c in cache' ensures Settled(lg, p, t, c) {
        if c in cache {
          assert Settled(lg, path, states, c);
          if Stacked(path, states, c) {
            var k :| 1 <= k <= |path| && c == (Linear(path[..k]), states[k]);
            assert p[..k] == path[..k] && t[k] == states[k];
          }
        } else {
          assert p[..|p|] == p && t[|p|] == s';
        }
      }
      forall j | 0 <= j < e' && j < |es| ensures Tried(lg, Linear(p), s', j) {
      }
    }

    lemma StackPop(lg: Longest, lg': Longest, path: seq<nat>, states: seq<S>)
      requires StackDone(lg, path, states) && path != [] && Grows(lg, lg')
      ensures StackDone(lg', path[..|path| - 1], states[..|path|])
      ensures ChosenAt(lg', path, states, |path| - 1)
    {
      forall k | 0 <= k < |path| ensures ChosenAt(lg', path, states, k) {
        assert ChosenAt(lg, path, states, k);
        LevelGrows(lg, lg', Linear(path[..k]), states[k], path[k]);
      }
      var p, t := path[..|path| - 1], states[..|path|];
      forall k | 0 <= k < |p| ensures ChosenAt(lg', p, t, k) {
        assert p[..k] == path[..k];
        assert ChosenAt(lg', path, states, k);
      }
    }

    lemma CachePop(lg: Longest, lg': Longest, path: seq<nat>, states: seq<S>, cache: set<(set<nat>, S)>)
      requires |states| == |path| + 1 && path != [] && Grows(lg, lg') && CacheDone(lg, path, states, cache)
      requires Exhausted(m, h, partial, lg', Linear(path), states[|path|])
      ensures CacheDone(lg', path[..|path| - 1], states[..|path|], cache)
    {
      var p, t := path[..|path| - 1], states[..|path|];
      forall c | c in cache ensures Settled(lg', p, t, c) {
        assert Settled(lg, path, states, c);
        if Exhausted(m, h, partial, lg, c.0, c.1) {
          ExhaustedGrows(m, h, partial, lg, lg', c.0, c.1);
        } else {
          var k :| 1 <= k <= |path| && c == (Linear(path[..k]), states[k]);
          if k == |path| {
            assert path[..k] == path;
          } else {
            assert p[..k] == path[..k] && t[k] == states[k];
          }
        }
      }
    }

    lemma {:induction false} TopIsExhausted(lg: Longest, lg': Longest, path: seq<nat>, states: seq<S>, e: nat)
      requires Ready() && StackDone(lg, path, states) && LevelDone(lg, Linear(path), states[|path|], e)
      requires IsReturn(e) && Id(e) !in Linear(path) && Improves(lg, lg', path)
      ensures Exhausted(m, h, partial, lg', Linear(path), states[|path|])
    {
      StackSpells(lg, path, states);
      LevelGrows(lg, lg', Linear(path), states[|path|], e);
      StuckIsExhausted(lg', Linear(path), states[|path|], e);
    }

    /** The search goes back up one level: the configuration it leaves is exhausted. */
    lemma {:induction false} Backtrack(lg: Longest, lg': Longest, path: seq<nat>, states: seq<S>,
                                       cache: set<(set<nat>, S)>, e: nat, e': int)
      requires SearchInv(lg, path, states, cache, e) && path != [] && IsReturn(e) && Id(e) !in Linear(path)
      requires Improves(lg, lg', path)
      requires forall j :: path[|path| - 1] < j < e' && j < |es| ==> Id(j) in Linear(path[..|path| - 1])
      ensures SearchInv(lg', path[..|path| - 1], states[..|path|], cache, e')
    {
      var n := |path| - 1;
      TopIsExhausted(lg, lg', path, states, e);
      StackPop(lg, lg', path, states);
      CachePop(lg, lg', path, states, cache);
      LinearPush(path[..n], path[n]);
      assert path[..n] + [path[n]] == path;
      LevelAdvances(lg', Linear(path[..n]), states[n], path[n], e');
    }

    /** All records linearized: the stack is a legal order of the whole history. */
    lemma {:induction false} AllLinearized(lg: Longest, path: seq<nat>, states: seq<S>)
      requires Ready() && StackDone(lg, path, states)
      requires forall i :: 0 <= i < |es| ==> Id(i) in Linear(path)
      ensures Completes(m, h, {}, m.init, Names(path))
    {
      StackSpells(lg, path, states);
      forall a | a in h ensures a in Linear(path) {
        assert DescribesOp(es, h, a);
        assert Id(h[a].call) == a;
      }
      PartialCompletes(m, h, {}, m.init, Names(path));
    }

    /** Stuck with an empty stack: there is no legal order, and all partial ones are recorded. */
    lemma {:induction false} NothingLeft(lg: Longest, states: seq<S>, cache: set<(set<nat>, S)>, e: nat)
      requires SearchInv(lg, [], states, cache, e) && IsReturn(e)
      ensures !Linearizable(m, h)
      ensures partial ==> Covered(m, h, lg, {}, m.init)
    {
      assert Linear([]) == {};
      StuckIsExhausted(lg, {}, m.init, e);
      FinishIffLinearizable(m, h);
    }
  }

  lemma WellFormedIsReady<S(!new), I(!new), O(!new)>(t: Task<S, I, O>)
    requires WellFormed(t.es) && t.h == HistoryOf(t.es) && t.configs == Reach(t.m, t.h, {}, t.m.init)
    ensures t.Ready()
  {
    forall c, x | c in t.configs && x in t.h && x !in c.0 ensures t.NextIn(c, x) {
      ReachIsClosed(t.m, t.h, {}, t.m.init, c, x);
    }
    WellFormedDescribes(t.es);
  }
}
