/**
 Picking out the part of a history that touches one key.
 */
module Partitioning {
  import opened Histories
  import opened Entries
  import opened Preparation
  import opened Renumbering
  import opened Locality

  // ---------------------------------------------------------------- the positions of one key

  /** The positions below `n` that carry key `k`, in order. */
  function Spots<K(==)>(ks: seq<K>, k: K, n: nat): seq<nat>
    requires n <= |ks|
  {
    if n == 0 then [] else if ks[n - 1] == k then Spots(ks, k, n - 1) + [n - 1] else Spots(ks, k, n - 1)
  }

  /** How many positions before `i` carry the key. */
  ghost function Rank<K>(ks: seq<K>, k: K, i: nat): nat
    requires i <= |ks|
  {
    |Spots(ks, k, i)|
  }

  lemma {:induction false} SpotIs<K>(ks: seq<K>, k: K, n: nat, j: nat)
    requires n <= |ks| && j < |Spots(ks, k, n)|
    ensures var p := Spots(ks, k, n)[j]; p < n && ks[p] == k && Rank(ks, k, p) == j
    decreases n
  {
    if ks[n - 1] == k && j == |Spots(ks, k, n - 1)| {
    } else {
      SpotIs(ks, k, n - 1, j);
    }
  }

  lemma {:induction false} SpotAt<K>(ks: seq<K>, k: K, n: nat, i: nat)
    requires i < n <= |ks| && ks[i] == k
    ensures Rank(ks, k, i) < |Spots(ks, k, n)| && Spots(ks, k, n)[Rank(ks, k, i)] == i
    decreases n
  {
    if i < n - 1 { SpotAt(ks, k, n - 1, i); }
  }

  lemma RankOrder<K>(ks: seq<K>, k: K, i: nat, j: nat)
    requires i < |ks| && j < |ks| && ks[i] == k && ks[j] == k
    ensures Rank(ks, k, i) < Rank(ks, k, j) <==> i < j
  {
    if i < j { SpotAt(ks, k, j, i); }
    if j < i { SpotAt(ks, k, i, j); }
  }

  /** The elements of `xs` whose key is `k`, in order. */
  function Part<K(==), T>(xs: seq<T>, ks: seq<K>, k: K, n: nat): (part: seq<T>)
    requires |xs| == |ks| && n <= |xs|
  {
    if n == 0 then [] else if ks[n - 1] == k then Part(xs, ks, k, n - 1) + [xs[n - 1]] else Part(xs, ks, k, n - 1)
  }

  lemma {:induction false} PartIs<K, T>(xs: seq<T>, ks: seq<K>, k: K, n: nat, j: nat)
    requires |xs| == |ks| && n <= |xs|
    ensures |Part(xs, ks, k, n)| == |Spots(ks, k, n)|
    ensures j < |Spots(ks, k, n)| ==> Spots(ks, k, n)[j] < |xs| && Part(xs, ks, k, n)[j] == xs[Spots(ks, k, n)[j]]
    decreases n
  {
    if n > 0 { PartIs(xs, ks, k, n - 1, j); }
  }

  // ---------------------------------------------------------------- timed operations

  ghost function OpKeys<K, I, O>(ops: seq<Operation<I, O>>, key: I -> K): seq<K> {
    seq(|ops|, i requires 0 <= i < |ops| => key(ops[i].input))
  }

  ghost function OpsPart<K, I, O>(ops: seq<Operation<I, O>>, key: I -> K, k: K): seq<Operation<I, O>> {
    Part(ops, OpKeys(ops, key), k, |ops|)
  }

  ghost function OpsRank<K, I, O>(ops: seq<Operation<I, O>>, key: I -> K, k: K): map<nat, nat> {
    map a: nat | a < |ops| && key(ops[a].input) == k :: Rank(OpKeys(ops, key), k, a)
  }

  lemma OpRanked<K, I, O>(ops: seq<Operation<I, O>>, key: I -> K, k: K, a: nat)
    requires a in OpsRank(ops, key, k)
    ensures OpsRank(ops, key, k)[a] < |OpsPart(ops, key, k)| && OpsPart(ops, key, k)[OpsRank(ops, key, k)[a]] == ops[a]
  {
    var ks := OpKeys(ops, key);
    SpotAt(ks, k, |ops|, a);
    PartIs(ops, ks, k, |ops|, Rank(ks, k, a));
  }

  lemma OpUnranked<K, I, O>(ops: seq<Operation<I, O>>, key: I -> K, k: K, b: nat)
    requires b < |OpsPart(ops, key, k)|
    ensures b in OpsRank(ops, key, k).Values
  {
    var ks, f := OpKeys(ops, key), OpsRank(ops, key, k);
    PartIs(ops, ks, k, |ops|, b);
    SpotIs(ks, k, |ops|, b);
    var a := Spots(ks, k, |ops|)[b];
    assert a in f && f[a] == b;
  }

  lemma {:induction false} OpsPartSameQuestion<K, I, O>(ops: seq<Operation<I, O>>, key: I -> K, k: K)
    ensures SameQuestion(Sub(OpsHistory(ops), key, k), OpsHistory(OpsPart(ops, key, k)), OpsRank(ops, key, k))
  {
    var h, sub, f := Sub(OpsHistory(ops), key, k), OpsHistory(OpsPart(ops, key, k)), OpsRank(ops, key, k);
    forall a | a in h ensures f[a] in sub && sub[f[a]] == h[a] {
      OpRanked(ops, key, k, a);
    }
    forall b | b in sub ensures b in f.Values {
      OpUnranked(ops, key, k, b);
    }
    forall a, b | a in h && b in h && a != b ensures f[a] != f[b] {
      RankOrder(OpKeys(ops, key), k, a, b);
      RankOrder(OpKeys(ops, key), k, b, a);
    }
  }

  /** A key's own list of operations asks what that key's part of the history asks. */
  lemma {:induction false} OpsPartSameAnswer<K, S, I, O>(m: Model<S, I, O>, key: I -> K, ops: seq<Operation<I, O>>,
                                                         k: K)
    ensures Linearizable(m, Sub(OpsHistory(ops), key, k)) <==> Linearizable(m, OpsHistory(OpsPart(ops, key, k)))
  {
    OpsPartSameQuestion(ops, key, k);
    SameQuestionSameAnswer(m, Sub(OpsHistory(ops), key, k), OpsHistory(OpsPart(ops, key, k)), OpsRank(ops, key, k));
  }

  // ---------------------------------------------------------------- events

  /** The key of each event: that of the input with which its operation was called. */
  ghost function EventKeys<K, I, O>(events: seq<Event<Value<I, O>>>, key: I -> K): seq<K>
    requires WellFormedEvents(events)
  {
    WellFormedDescribes(ConvertEntries(events));
    seq(|events|, i requires 0 <= i < |events| =>
      (assert DescribesAt(ConvertEntries(events), EventsHistory(events), i);
         key(EventsHistory(events)[events[i].id].input)))
  }

  /** Every event belongs to an operation of the history, and `ks` names that operation's key. */
  ghost predicate Keyed<K, I, O>(events: seq<Event<Value<I, O>>>, h: History<I, O>, key: I -> K, ks: seq<K>) {
    && Describes(ConvertEntries(events), h) && |ks| == |events|
    && forall i :: 0 <= i < |events| ==> events[i].id in h && ks[i] == key(h[events[i].id].input)
  }

  lemma EventsAreKeyed<K, I, O>(events: seq<Event<Value<I, O>>>, key: I -> K)
    requires WellFormedEvents(events)
    ensures Keyed(events, EventsHistory(events), key, EventKeys(events, key))
  {
    var es, h := ConvertEntries(events), EventsHistory(events);
    WellFormedDescribes(es);
    forall i | 0 <= i < |events| ensures events[i].id in h {
      assert DescribesAt(es, h, i);
    }
  }

  ghost function EventsPart<K, I, O>(events: seq<Event<Value<I, O>>>, key: I -> K, k: K): seq<Event<Value<I, O>>>
    requires WellFormedEvents(events)
  {
    Part(events, EventKeys(events, key), k, |events|)
  }

  ghost function RankedHistory<K, I, O>(h: History<I, O>, ks: seq<K>, k: K): History<I, O>
    requires forall a :: a in h ==> 0 <= h[a].call <= |ks| && 0 <= h[a].ret <= |ks|
  {
    map a | a in h :: Op(h[a].input, h[a].output, Rank(ks, k, h[a].call), Rank(ks, k, h[a].ret))
  }

  lemma SubFacts<K, I, O>(events: seq<Event<Value<I, O>>>, h: History<I, O>, key: I -> K, ks: seq<K>, k: K, a: nat)
    requires Keyed(events, h, key, ks) && a in Sub(h, key, k)
    ensures DescribesOp(ConvertEntries(events), h, a) && ks[h[a].call] == k && ks[h[a].ret] == k
  {
    var es := ConvertEntries(events);
    assert DescribesOp(es, h, a);
    assert es[h[a].call].id == events[h[a].call].id && es[h[a].ret].id == events[h[a].ret].id;
  }

  lemma {:induction false} PartDescribes<K, I, O>(events: seq<Event<Value<I, O>>>, h: History<I, O>, key: I -> K,
                                                  ks: seq<K>, k: K)
    requires Keyed(events, h, key, ks)
    ensures forall a :: a in Sub(h, key, k) ==> 0 <= h[a].call <= |ks| && 0 <= h[a].ret <= |ks|
    ensures Describes(ConvertEntries(Part(events, ks, k, |events|)), RankedHistory(Sub(h, key, k), ks, k))
  {
    var es, n, sub := ConvertEntries(events), |events|, Sub(h, key, k);
    forall a | a in sub ensures 0 <= h[a].call <= |ks| && 0 <= h[a].ret <= |ks| { SubFacts(events, h, key, ks, k, a); }
    var part, ranked := Part(events, ks, k, n), RankedHistory(sub, ks, k);
    var ps := ConvertEntries(part);
    PartIs(events, ks, k, n, 0);
    forall j | 0 <= j < |ps| ensures DescribesAt(ps, ranked, j) {
      PartIs(events, ks, k, n, j);
      SpotIs(ks, k, n, j);
      assert DescribesAt(es, h, Spots(ks, k, n)[j]);
    }
    forall a | a in ranked ensures DescribesOp(ps, ranked, a) {
      SubFacts(events, h, key, ks, k, a);
      var c, r := h[a].call, h[a].ret;
      SpotAt(ks, k, n, c);
      SpotAt(ks, k, n, r);
      RankOrder(ks, k, c, r);
      PartIs(events, ks, k, n, Rank(ks, k, c));
      PartIs(events, ks, k, n, Rank(ks, k, r));
    }
  }

  lemma {:induction false} RankedSameOrder<K, I, O>(events: seq<Event<Value<I, O>>>, h: History<I, O>, key: I -> K,
                                                    ks: seq<K>, k: K)
    requires Keyed(events, h, key, ks)
    requires forall a :: a in Sub(h, key, k) ==> 0 <= h[a].call <= |ks| && 0 <= h[a].ret <= |ks|
    ensures SameOrder(Sub(h, key, k), RankedHistory(Sub(h, key, k), ks, k))
  {
    var sub, ranked := Sub(h, key, k), RankedHistory(Sub(h, key, k), ks, k);
    forall a, b | a in sub && b in sub && a != b ensures Precedes(sub, a, b) <==> Precedes(ranked, a, b) {
      SubFacts(events, h, key, ks, k, a);
      SubFacts(events, h, key, ks, k, b);
      RankOrder(ks, k, h[a].ret, h[b].call);
    }
  }

  /** A key's own events are well formed and ask what that key's part of the history asks. */
  lemma {:induction false} EventPartSameAnswer<K, S, I, O>(m: Model<S, I, O>, key: I -> K,
                                                           events: seq<Event<Value<I, O>>>, k: K)
    requires WellFormedEvents(events)
    ensures var part := EventsPart(events, key, k);
            WellFormedEvents(part)
              && (Linearizable(m, Sub(EventsHistory(events), key, k)) <==> Linearizable(m, EventsHistory(part)))
  {
    var h, ks := EventsHistory(events), EventKeys(events, key);
    EventsAreKeyed(events, key);
    PartDescribes(events, h, key, ks, k);
    var ranked := RankedHistory(Sub(h, key, k), ks, k);
    DescribesIsHistoryOf(ConvertEntries(Part(events, ks, k, |events|)), ranked);
    RankedSameOrder(events, h, key, ks, k);
    SameOrderSameAnswer(m, Sub(h, key, k), ranked);
  }
}
