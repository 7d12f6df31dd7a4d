/**
 Event histories: renaming operations onto 0, 1, 2, ... so that they fit a bit set.
 */
module Renumbering {
  import opened Histories
  import opened Entries

  /** Events as entries, in the same order and without a time of their own. */
  function ConvertEntries<T>(events: seq<Event<T>>): seq<Entry<T>> {
    seq(|events|, i requires 0 <= i < |events| => Entry(events[i].kind, events[i].value, events[i].id, -1))
  }

  ghost predicate WellFormedEvents<I, O>(events: seq<Event<Value<I, O>>>) {
    WellFormed(ConvertEntries(events))
  }

  ghost function EventsHistory<I, O>(events: seq<Event<Value<I, O>>>): History<I, O>
    requires WellFormedEvents(events)
  {
    HistoryOf(ConvertEntries(events))
  }

  /** The names that occur in the first `n` events, in order of first sight. */
  ghost function FirstSeen<T>(events: seq<Event<T>>, n: nat): (names: seq<nat>)
    requires n <= |events|
    ensures NoDup(names)
    ensures forall i :: 0 <= i < n ==> events[i].id in names
  {
    if n == 0 then [] else
      var names := FirstSeen(events, n - 1);
      if events[n - 1].id in names then names else names + [events[n - 1].id]
  }

  lemma {:induction false} SeenSomewhere<T>(events: seq<Event<T>>, n: nat, a: nat) returns (i: nat)
    requires n <= |events| && a in FirstSeen(events, n)
    ensures i < n && events[i].id == a
  {
    if a == events[n - 1].id { i := n - 1; } else { i := SeenSomewhere(events, n - 1, a); }
  }

  /** `f` tells the index of each name in the list. */
  ghost predicate IndexIn(f: map<nat, nat>, names: seq<nat>) {
    && f.Keys == Elems(names)
    && (forall a {:trigger f[a]} :: a in f ==> f[a] < |names| && names[f[a]] == a)
  }

  lemma IndexPush(f: map<nat, nat>, names: seq<nat>, a: nat)
    requires IndexIn(f, names) && a !in f
    ensures IndexIn(f[a := |names|], names + [a])
  {
    ElemsPush(names, a);
  }

  ghost predicate RelabelledAt<T>(events: seq<Event<T>>, e: seq<Event<T>>, f: map<nat, nat>, i: nat)
    requires i < |events| && i < |e|
  {
    events[i].id in f && e[i] == Event(events[i].kind, events[i].value, f[events[i].id])
  }

  /** The same events under new names, numbered in order of first sight. */
  ghost predicate Renumbered<T>(events: seq<Event<T>>, e: seq<Event<T>>, f: map<nat, nat>) {
    && |e| == |events| && IndexIn(f, FirstSeen(events, |events|))
    && (forall i {:trigger RelabelledAt(events, e, f, i)} :: 0 <= i < |events| ==> RelabelledAt(events, e, f, i))
  }

  ghost predicate RenumberedInOrder<T>(events: seq<Event<T>>, e: seq<Event<T>>) {
    exists f :: Renumbered(events, e, f)
  }

  method Renumber<T>(events: seq<Event<T>>) returns (e: seq<Event<T>>)
    ensures RenumberedInOrder(events, e)
  {
    e := [];
    var m: map<nat, nat> := map[];
    var id := 0;
    for i := 0 to |events|
      invariant IndexIn(m, FirstSeen(events, i)) && id == |FirstSeen(events, i)| && |e| == i
      invariant forall j {:trigger RelabelledAt(events, e, m, j)} :: 0 <= j < i ==> RelabelledAt(events, e, m, j)
    {
      var event := events[i];
      ghost var e0, m0 := e, m;
      if event.id !in m {
        IndexPush(m, FirstSeen(events, i), event.id);
        m := m[event.id := id];
        id := id + 1;
      }
      e := e + [Event(event.kind, event.value, m[event.id])];
      forall j | 0 <= j < i + 1 ensures RelabelledAt(events, e, m, j) {
        assert j < i ==> RelabelledAt(events, e0, m0, j);
      }
    }
    assert Renumbered(events, e, m);
  }

  // ---------------------------------------------------------------- two records per operation

  ghost function Places<I, O>(h: History<I, O>, ids: set<nat>): set<int>
    requires ids <= h.Keys
  {
    (set a | a in ids :: h[a].call) + (set a | a in ids :: h[a].ret)
  }

  lemma PlacesMore<I, O>(es: seq<Entry<Value<I, O>>>, h: History<I, O>, rest: set<nat>, a: nat)
    requires Describes(es, h) && rest + {a} <= h.Keys && a !in rest
    ensures Places(h, rest + {a}) == Places(h, rest) + {h[a].call, h[a].ret}
    ensures |Places(h, rest + {a})| == |Places(h, rest)| + 2
  {
    assert DescribesOp(es, h, a);
    forall p | p in Places(h, rest) ensures p != h[a].call && p != h[a].ret {
      var b :| b in rest && (p == h[b].call || p == h[b].ret);
      assert DescribesOp(es, h, b);
    }
    assert |Places(h, rest) + {h[a].call, h[a].ret}| == |Places(h, rest)| + |{h[a].call, h[a].ret}|;
  }

  lemma {:induction false} TwoPlacesEach<I, O>(es: seq<Entry<Value<I, O>>>, h: History<I, O>, ids: set<nat>)
    requires Describes(es, h) && ids <= h.Keys
    ensures |Places(h, ids)| == 2 * |ids|
    decreases ids
  {
    if ids == {} {
      assert Places(h, ids) == {};
    } else {
      var a :| a in ids;
      var rest := ids - {a};
      assert rest + {a} == ids;
      TwoPlacesEach(es, h, rest);
      PlacesMore(es, h, rest, a);
    }
  }

  lemma {:induction false} NamesFit<I, O>(es: seq<Entry<Value<I, O>>>, h: History<I, O>, names: seq<nat>)
    requires Describes(es, h) && NoDup(names) && Elems(names) == h.Keys
    ensures 2 * |names| <= |es|
  {
    DistinctCount(names);
    TwoPlacesEach(es, h, h.Keys);
    forall p | p in Places(h, h.Keys) ensures 0 <= p < |es| {
      var a :| a in h.Keys && (p == h[a].call || p == h[a].ret);
      assert DescribesOp(es, h, a);
    }
    FitsBelow(Places(h, h.Keys), |es|);
  }

  // ---------------------------------------------------------------- renumbering keeps the question

  ghost function RenamedHistory<I, O>(h: History<I, O>, names: seq<nat>): History<I, O>
    requires Elems(names) == h.Keys
  {
    map b: nat | b < |names| :: (assert names[b] in Elems(names); h[names[b]])
  }

  lemma {:induction false} RenumberedDescribes<I, O>(events: seq<Event<Value<I, O>>>, e: seq<Event<Value<I, O>>>,
                                                     f: map<nat, nat>, h: History<I, O>)
    requires Renumbered(events, e, f) && Describes(ConvertEntries(events), h)
    ensures Elems(FirstSeen(events, |events|)) == h.Keys
    ensures Describes(ConvertEntries(e), RenamedHistory(h, FirstSeen(events, |events|)))
  {
    var es, es', names := ConvertEntries(events), ConvertEntries(e), FirstSeen(events, |events|);
    forall a | a in h ensures a in names {
      assert DescribesOp(es, h, a);
      assert events[h[a].call].id == a;
    }
    forall a | a in names ensures a in h {
      var i := SeenSomewhere(events, |events|, a);
      assert DescribesAt(es, h, i);
    }
    assert Elems(names) == h.Keys;
    var k := RenamedHistory(h, names);
    forall i | 0 <= i < |es'| ensures DescribesAt(es', k, i) {
      assert DescribesAt(es, h, i) && RelabelledAt(events, e, f, i);
    }
    forall b | b in k ensures DescribesOp(es', k, b) {
      var a := names[b];
      assert a in Elems(names);
      assert DescribesOp(es, h, a);
      assert f[a] == b;
      assert RelabelledAt(events, e, f, h[a].call) && RelabelledAt(events, e, f, h[a].ret);
    }
  }

  lemma {:induction false} RenamedIsSameQuestion<I, O>(h: History<I, O>, names: seq<nat>, f: map<nat, nat>)
    requires Elems(names) == h.Keys && NoDup(names) && IndexIn(f, names)
    ensures SameQuestion(h, RenamedHistory(h, names), f)
  {
    var k := RenamedHistory(h, names);
    forall b | b in k ensures b in f.Values {
      assert names[b] in Elems(names);
      assert f[names[b]] == b;
    }
    forall a, b | a in h && b in h && a != b ensures f[a] != f[b] {
      assert names[f[a]] == a && names[f[b]] == b;
    }
  }

  /** Renumbering an event history fits its names to half its length and keeps the question. */
  lemma {:induction false} RenumberedSameAnswer<S, I, O>(m: Model<S, I, O>, events: seq<Event<Value<I, O>>>,
                                                         e: seq<Event<Value<I, O>>>)
    requires WellFormedEvents(events) && RenumberedInOrder(events, e)
    ensures WellFormedEvents(e) && Dense(ConvertEntries(e))
    ensures Linearizable(m, EventsHistory(events)) <==> Linearizable(m, EventsHistory(e))
  {
    var f :| Renumbered(events, e, f);
    var es, es', names := ConvertEntries(events), ConvertEntries(e), FirstSeen(events, |events|);
    var h := HistoryOf(es);
    WellFormedDescribes(es);
    RenumberedDescribes(events, e, f, h);
    DescribesIsHistoryOf(es', RenamedHistory(h, names));
    RenamedIsSameQuestion(h, names, f);
    SameQuestionSameAnswer(m, h, RenamedHistory(h, names), f);
    NamesFit(es, h, names);
    forall i | 0 <= i < |es'| ensures es'[i].id < |es'| / 2 {
      assert RelabelledAt(events, e, f, i);
    }
  }
}
