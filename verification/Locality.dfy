module Locality {
  // Splitting a history by key.
  //
  // A store of independent objects, one per key, is itself an object whose state
  // is the map of all their states.  A history of the store is linearizable exactly
  // when the part of it that touches each key is linearizable for that one object.

  import opened Histories

  /** The state of the object at `k`; a key never written is still in the initial state. */
  function At<K, S>(m: map<K, S>, init: S, k: K): S {
    if k in m then m[k] else init
  }

  function StoreStep<K, S, I, O>(m: Model<S, I, O>, key: I -> K, st: map<K, S>, i: I, o: O): (bool, map<K, S>) {
    var r := m.step(At(st, m.init, key(i)), i, o);
    (r.0, st[key(i) := r.1])
  }

  /** The store of all keys as one sequential object. */
  function Store<K(==), S(==), I, O>(m: Model<S, I, O>, key: I -> K): Model<map<K, S>, I, O> {
    Model(map[], (st, i, o) => StoreStep(m, key, st, i, o), (a: map<K, S>, b: map<K, S>) => a == b)
  }

  /** The operations on key `k`, under their original names. */
  function Sub<K(==), I, O>(h: History<I, O>, key: I -> K, k: K): History<I, O> {
    map a | a in h && key(h[a].input) == k :: h[a]
  }

  /** Each key's part of the history can be finished from where the store's state leaves that key. */
  ghost predicate EachKeyFinishes<K(!new), S, I, O>(m: Model<S, I, O>, key: I -> K, h: History<I, O>, done: set<nat>,
                                                    st: map<K, S>)
  {
    forall k :: CanFinish(m, Sub(h, key, k), done * Sub(h, key, k).Keys, At(st, m.init, k))
  }

  /** A step on one key is that key's own step, and leaves every other key where it was. */
  lemma StepIsLocal<K(!new), S, I, O>(m: Model<S, I, O>, key: I -> K, h: History<I, O>, done: set<nat>, st: map<K, S>,
                                      x: nat, k: K)
    requires x in h
    ensures var sub := Sub(h, key, k);
            var after := Step(Store(m, key), h, st, x);
            if key(h[x].input) == k then
              && x in sub
              && Step(m, sub, At(st, m.init, k), x) == (after.0, At(after.1, m.init, k))
              && (done + {x}) * sub.Keys == done * sub.Keys + {x}
            else
              && At(after.1, m.init, k) == At(st, m.init, k)
              && (done + {x}) * sub.Keys == done * sub.Keys
  {
  }

  lemma {:induction false} StoreFinishesEachKey<K(!new), S, I, O>(m: Model<S, I, O>, key: I -> K, h: History<I, O>,
                                                                  done: set<nat>, st: map<K, S>)
    requires CanFinish(Store(m, key), h, done, st)
    ensures EachKeyFinishes(m, key, h, done, st)
    decreases h.Keys - done
  {
    var store := Store(m, key);
    if h.Keys <= done {
    } else {
      var x :| Enabled(store, h, done, st, x) && CanFinish(store, h, done + {x}, Step(store, h, st, x).1);
      var st' := Step(store, h, st, x).1;
      StoreFinishesEachKey(m, key, h, done + {x}, st');
      forall k ensures CanFinish(m, Sub(h, key, k), done * Sub(h, key, k).Keys, At(st, m.init, k)) {
        StepIsLocal(m, key, h, done, st, x, k);
        assert CanFinish(m, Sub(h, key, k), (done + {x}) * Sub(h, key, k).Keys, At(st', m.init, k));
        if key(h[x].input) == k {
          assert Enabled(m, Sub(h, key, k), done * Sub(h, key, k).Keys, At(st, m.init, k), x);
        }
      }
    }
  }

  /** Among the operations still open there is one that returns first. */
  lemma {:induction false} FirstToReturn<I, O>(h: History<I, O>, open: set<nat>) returns (a: nat)
    requires open <= h.Keys && open != {}
    ensures a in open && forall b :: b in open ==> h[a].ret <= h[b].ret
    decreases open
  {
    var x :| x in open;
    if open == {x} {
      a := x;
    } else {
      var y := FirstToReturn(h, open - {x});
      a := if h[x].ret <= h[y].ret then x else y;
    }
  }

  /**
   The key of the operation that returns first always has a next operation that
   no open operation of any key precedes, so the per-key orders merge without a cycle.
   */
  lemma {:induction false} EachKeyFinishesStore<K(!new), S, I, O>(m: Model<S, I, O>, key: I -> K, h: History<I, O>,
                                                                  done: set<nat>, st: map<K, S>)
    requires Timed(h) && EachKeyFinishes(m, key, h, done, st)
    ensures CanFinish(Store(m, key), h, done, st)
    decreases h.Keys - done
  {
    if !(h.Keys <= done) {
      var store := Store(m, key);
      var c :| c in h && c !in done;
      assert c in h.Keys - done;
      var a := FirstToReturn(h, h.Keys - done);
      var k0 := key(h[a].input);
      var sub, s0 := Sub(h, key, k0), At(st, m.init, k0);
      assert CanFinish(m, sub, done * sub.Keys, s0);
      assert a in sub && a !in done;
      var x :| Enabled(m, sub, done * sub.Keys, s0, x)
        && CanFinish(m, sub, done * sub.Keys + {x}, Step(m, sub, s0, x).1);
      assert a != x ==> !Precedes(sub, a, x);
      assert Enabled(store, h, done, st, x) by {
        StepIsLocal(m, key, h, done, st, x, k0);
      }
      var st' := Step(store, h, st, x).1;
      forall k ensures CanFinish(m, Sub(h, key, k), (done + {x}) * Sub(h, key, k).Keys, At(st', m.init, k)) {
        StepIsLocal(m, key, h, done, st, x, k);
        assert CanFinish(m, Sub(h, key, k), done * Sub(h, key, k).Keys, At(st, m.init, k));
      }
      EachKeyFinishesStore(m, key, h, done + {x}, st');
    }
  }

  /** Locality (Herlihy and Wing, Theorem 1): the whole is linearizable exactly when every key's part is. */
  lemma {:induction false} LinearizableIffEachKeyIs<K(!new), S, I, O>(m: Model<S, I, O>, key: I -> K, h: History<I, O>)
    requires Timed(h)
    ensures Linearizable(Store(m, key), h) <==> forall k :: Linearizable(m, Sub(h, key, k))
  {
    var store := Store(m, key);
    FinishIffLinearizable(store, h);
    forall k
      ensures {} * Sub(h, key, k).Keys == {}
      ensures (CanFinish(m, Sub(h, key, k), {}, m.init) <==> Linearizable(m, Sub(h, key, k)))
    {
      FinishIffLinearizable(m, Sub(h, key, k));
    }
    assert EachKeyFinishes(m, key, h, {}, map[]) <==> forall k :: CanFinish(m, Sub(h, key, k), {}, m.init);
    if Linearizable(store, h) {
      StoreFinishesEachKey(m, key, h, {}, map[]);
    }
    if forall k :: Linearizable(m, Sub(h, key, k)) {
      EachKeyFinishesStore(m, key, h, {}, map[]);
    }
  }
}
