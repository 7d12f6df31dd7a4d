module KvModels {
  // The key/value model: one key's string, and how a history of a whole store is
  // split into the histories of its keys.

  import opened Histories
  import opened Entries
  import opened Preparation
  import opened Renumbering
  import opened Locality
  import opened Partitioning

  datatype KvOp = Get | Put | Append

  datatype KvInput = KvInput(op: KvOp, key: string, value: string)

  datatype KvOutput = KvOutput(value: string)

  function KvStep(state: string, input: KvInput, output: KvOutput): (bool, string) {
    match input.op
    case Get => (output.value == state, state)
    case Put => (true, input.value)
    case Append => (true, state + input.value)
  }

  function KeyOf(input: KvInput): string {
    input.key
  }

  /** The object behind one key. */
  function KvModel(): Model<string, KvInput, KvOutput> {
    Model("", KvStep, (a: string, b: string) => a == b)
  }

  /** The whole store: every key holds a string, the empty one until it is written. */
  function KvStore(): Model<map<string, string>, KvInput, KvOutput> {
    Store(KvModel(), KeyOf)
  }

  lemma KvEqualIsSafe()
    ensures EqualIsSafe(KvModel())
  {
  }

  // ---------------------------------------------------------------- what the store promises, told from the order alone

  /** The state after the first j operations of an order. */
  ghost function StateAt<S, I, O>(m: Model<S, I, O>, h: History<I, O>, s: S, p: seq<nat>, j: nat): S
    requires Within(h, p) && j <= |p|
  {
    if j == 0 then s else Step(m, h, StateAt(m, h, s, p, j - 1), p[j - 1]).1
  }

  lemma {:induction false} StateAtNext<S, I, O>(m: Model<S, I, O>, h: History<I, O>, s: S, p: seq<nat>, j: nat)
    requires Within(h, p) && 0 < j <= |p|
    ensures StateAt(m, h, s, p, j) == StateAt(m, h, Step(m, h, s, p[0]).1, p[1..], j - 1)
  {
    if j > 1 { StateAtNext(m, h, s, p, j - 1); }
  }

  /** An order is accepted exactly when each operation is, in the state that those before it lead to. */
  lemma {:induction false} AcceptsIffEach<S, I, O>(m: Model<S, I, O>, h: History<I, O>, s: S, p: seq<nat>)
    requires Within(h, p)
    ensures Accepts(m, h, s, p) <==> forall j :: 0 <= j < |p| ==> Step(m, h, StateAt(m, h, s, p, j), p[j]).0
  {
    if p != [] {
      var s' := Step(m, h, s, p[0]).1;
      AcceptsIffEach(m, h, s', p[1..]);
      forall j | 0 < j < |p| ensures StateAt(m, h, s, p, j) == StateAt(m, h, s', p[1..], j - 1) {
        StateAtNext(m, h, s, p, j);
      }
      assert StateAt(m, h, s, p, 0) == s;
      if Accepts(m, h, s, p) {
        forall j | 0 <= j < |p| ensures Step(m, h, StateAt(m, h, s, p, j), p[j]).0 {
          if j > 0 { assert p[j] == p[1..][j - 1]; }
        }
      }
      if forall j :: 0 <= j < |p| ==> Step(m, h, StateAt(m, h, s, p, j), p[j]).0 {
        forall j | 0 <= j < |p[1..]| ensures Step(m, h, StateAt(m, h, s', p[1..], j), p[1..][j]).0 {
          assert Step(m, h, StateAt(m, h, s, p, j + 1), p[j + 1]).0;
        }
        assert Step(m, h, StateAt(m, h, s, p, 0), p[0]).0;
      }
    }
  }

  /** Of the operations before position j, the one at i is the last Put that counts; none if i is -1. */
  ghost predicate LastPut(h: History<KvInput, KvOutput>, p: seq<nat>, on: KvInput -> bool, i: int, j: nat)
    requires Within(h, p) && j <= |p|
  {
    && -1 <= i < j && (i >= 0 ==> h[p[i]].input.op.Put? && on(h[p[i]].input))
    && forall x :: i < x < j && on(h[p[x]].input) ==> !h[p[x]].input.op.Put?
  }

  /** The values of the Appends that count from position i up to j, in order. */
  ghost function Appended(h: History<KvInput, KvOutput>, p: seq<nat>, on: KvInput -> bool, i: nat, j: nat): string
    requires Within(h, p) && i <= j <= |p|
  {
    if i == j then ""
    else
      var input := h[p[j - 1]].input;
      Appended(h, p, on, i, j - 1) + if input.op.Append? && on(input) then input.value else ""
  }

  /** The value is what the Put at i wrote, the empty string if there is none, and then what was appended to it. */
  ghost predicate WrittenFrom(h: History<KvInput, KvOutput>, p: seq<nat>, on: KvInput -> bool, i: int, j: nat,
                              value: string)
    requires Within(h, p) && j <= |p|
  {
    LastPut(h, p, on, i, j) && value == (if i < 0 then "" else h[p[i]].input.value) + Appended(h, p, on, i + 1, j)
  }

  ghost predicate Written(h: History<KvInput, KvOutput>, p: seq<nat>, on: KvInput -> bool, j: nat, value: string)
    requires Within(h, p) && j <= |p|
  {
    exists i :: WrittenFrom(h, p, on, i, j, value)
  }

  lemma NothingWritten(h: History<KvInput, KvOutput>, p: seq<nat>, on: KvInput -> bool)
    requires Within(h, p)
    ensures Written(h, p, on, 0, "")
  {
    assert WrittenFrom(h, p, on, -1, 0, "");
  }

  lemma PutWrites(h: History<KvInput, KvOutput>, p: seq<nat>, on: KvInput -> bool, j: nat)
    requires Within(h, p) && j < |p| && on(h[p[j]].input) && h[p[j]].input.op.Put?
    ensures Written(h, p, on, j + 1, h[p[j]].input.value)
  {
    assert h[p[j]].input.value + "" == h[p[j]].input.value;
    assert WrittenFrom(h, p, on, j, j + 1, h[p[j]].input.value);
  }

  lemma AppendWrites(h: History<KvInput, KvOutput>, p: seq<nat>, on: KvInput -> bool, j: nat, value: string)
    requires Within(h, p) && j < |p| && Written(h, p, on, j, value) && on(h[p[j]].input) && h[p[j]].input.op.Append?
    ensures Written(h, p, on, j + 1, value + h[p[j]].input.value)
  {
    var i :| WrittenFrom(h, p, on, i, j, value);
    var first := if i < 0 then "" else h[p[i]].input.value;
    assert first + (Appended(h, p, on, i + 1, j) + h[p[j]].input.value) == value + h[p[j]].input.value;
    assert WrittenFrom(h, p, on, i, j + 1, value + h[p[j]].input.value);
  }

  lemma OthersWriteNothing(h: History<KvInput, KvOutput>, p: seq<nat>, on: KvInput -> bool, j: nat, value: string)
    requires Within(h, p) && j < |p| && Written(h, p, on, j, value) && (!on(h[p[j]].input) || h[p[j]].input.op.Get?)
    ensures Written(h, p, on, j + 1, value)
  {
    var i :| WrittenFrom(h, p, on, i, j, value);
    assert Appended(h, p, on, i + 1, j) + "" == Appended(h, p, on, i + 1, j);
    assert WrittenFrom(h, p, on, i, j + 1, value);
  }

  lemma {:induction false} WrittenOnce(h: History<KvInput, KvOutput>, p: seq<nat>, on: KvInput -> bool, j: nat,
                                       a: string, b: string)
    requires Within(h, p) && j <= |p| && Written(h, p, on, j, a) && Written(h, p, on, j, b)
    ensures a == b
  {
    var x :| WrittenFrom(h, p, on, x, j, a);
    var y :| WrittenFrom(h, p, on, y, j, b);
    assert x == y;
  }

  ghost function Any(): KvInput -> bool {
    (_: KvInput) => true
  }

  ghost function On(k: string): KvInput -> bool {
    (input: KvInput) => input.key == k
  }

  lemma {:induction false} ModelHolds(h: History<KvInput, KvOutput>, p: seq<nat>, j: nat)
    requires Within(h, p) && j <= |p|
    ensures Written(h, p, Any(), j, StateAt(KvModel(), h, "", p, j))
  {
    if j == 0 {
      NothingWritten(h, p, Any());
    } else {
      ModelHolds(h, p, j - 1);
      var s := StateAt(KvModel(), h, "", p, j - 1);
      match h[p[j - 1]].input.op {
        case Get => OthersWriteNothing(h, p, Any(), j - 1, s);
        case Put => PutWrites(h, p, Any(), j - 1);
        case Append => AppendWrites(h, p, Any(), j - 1, s);
      }
    }
  }

  lemma {:induction false} StoreHolds(h: History<KvInput, KvOutput>, p: seq<nat>, j: nat, k: string)
    requires Within(h, p) && j <= |p|
    ensures Written(h, p, On(k), j, At(StateAt(KvStore(), h, map[], p, j), "", k))
  {
    if j == 0 {
      NothingWritten(h, p, On(k));
    } else {
      StoreHolds(h, p, j - 1, k);
      var s, input := At(StateAt(KvStore(), h, map[], p, j - 1), "", k), h[p[j - 1]].input;
      if input.key != k || input.op.Get? {
        OthersWriteNothing(h, p, On(k), j - 1, s);
      } else if input.op.Put? {
        PutWrites(h, p, On(k), j - 1);
      } else {
        AppendWrites(h, p, On(k), j - 1, s);
      }
    }
  }

  /**
   One key accepts an order of operations exactly when every Get returns what the last Put before it wrote, the empty
   string if there is none, followed by what was appended in between.
   */
  lemma {:induction false} KeyAcceptsIff(h: History<KvInput, KvOutput>, p: seq<nat>)
    requires Within(h, p)
    ensures Accepts(KvModel(), h, "", p) <==>
              forall j :: 0 <= j < |p| && h[p[j]].input.op.Get? ==> Written(h, p, Any(), j, h[p[j]].output.value)
  {
    AcceptsIffEach(KvModel(), h, "", p);
    forall j | 0 <= j < |p|
      ensures Step(KvModel(), h, StateAt(KvModel(), h, "", p, j), p[j]).0
              <==> (h[p[j]].input.op.Get? ==> Written(h, p, Any(), j, h[p[j]].output.value))
    {
      ModelHolds(h, p, j);
      if h[p[j]].input.op.Get? && Written(h, p, Any(), j, h[p[j]].output.value) {
        WrittenOnce(h, p, Any(), j, h[p[j]].output.value, StateAt(KvModel(), h, "", p, j));
      }
    }
  }

  /** So does the whole store, with the Puts and Appends of the Get's own key. */
  lemma {:induction false} StoreAcceptsIff(h: History<KvInput, KvOutput>, p: seq<nat>)
    requires Within(h, p)
    ensures Accepts(KvStore(), h, map[], p) <==> ReadsRight(h, p)
  {
    AcceptsIffEach(KvStore(), h, map[], p);
    forall j | 0 <= j < |p|
      ensures Step(KvStore(), h, StateAt(KvStore(), h, map[], p, j), p[j]).0
              <==> (h[p[j]].input.op.Get? ==> Written(h, p, On(h[p[j]].input.key), j, h[p[j]].output.value))
    {
      var k := h[p[j]].input.key;
      StoreHolds(h, p, j, k);
      if h[p[j]].input.op.Get? && Written(h, p, On(k), j, h[p[j]].output.value) {
        WrittenOnce(h, p, On(k), j, h[p[j]].output.value, At(StateAt(KvStore(), h, map[], p, j), "", k));
      }
    }
  }

  /** Every Get of the order reads what the operations before it on its key wrote. */
  ghost predicate ReadsRight(h: History<KvInput, KvOutput>, p: seq<nat>)
    requires Within(h, p)
  {
    forall j :: 0 <= j < |p| && h[p[j]].input.op.Get? ==> Written(h, p, On(h[p[j]].input.key), j, h[p[j]].output.value)
  }

  /** All operations in an order that respects real time. */
  ghost predicate InRealTime(h: History<KvInput, KvOutput>, p: seq<nat>) {
    NoDup(p) && Within(h, p) && Elems(p) == h.Keys && RespectsRealTime(h, p)
  }

  /** What it means for a history of the store to be linearizable, told without a model. */
  ghost predicate Sequential(h: History<KvInput, KvOutput>) {
    exists p :: InRealTime(h, p) && ReadsRight(h, p)
  }

  lemma {:induction false} StoreLinearizableIff(h: History<KvInput, KvOutput>)
    ensures Linearizable(KvStore(), h) <==> Sequential(h)
  {
    if Linearizable(KvStore(), h) {
      var p :| Completes(KvStore(), h, {}, map[], p);
      StoreAcceptsIff(h, p);
      assert InRealTime(h, p) && ReadsRight(h, p);
    }
    if p :| InRealTime(h, p) && ReadsRight(h, p) {
      StoreAcceptsIff(h, p);
      assert Completes(KvStore(), h, {}, map[], p);
    }
  }

  // ---------------------------------------------------------------- grouping by key

  /** The group filed under `k` is its part; there is no group for a key that does not occur. */
  ghost predicate GroupAt<T>(m: map<string, seq<T>>, xs: seq<T>, ks: seq<string>, n: nat, k: string)
    requires |xs| == |ks| && n <= |xs|
  {
    if k in m then m[k] == Part(xs, ks, k, n) && m[k] != [] else Part(xs, ks, k, n) == []
  }

  ghost predicate Grouped<T>(m: map<string, seq<T>>, xs: seq<T>, ks: seq<string>, n: nat)
    requires |xs| == |ks| && n <= |xs|
  {
    forall k {:trigger GroupAt(m, xs, ks, n, k)} :: GroupAt(m, xs, ks, n, k)
  }

  function AddTo<T>(m: map<string, seq<T>>, k: string, x: T): map<string, seq<T>> {
    m[k := (if k in m then m[k] else []) + [x]]
  }

  lemma AddKeepsGroups<T>(m: map<string, seq<T>>, xs: seq<T>, ks: seq<string>, n: nat)
    requires |xs| == |ks| && n < |xs| && Grouped(m, xs, ks, n)
    ensures Grouped(AddTo(m, ks[n], xs[n]), xs, ks, n + 1)
  {
    var m', n' := AddTo(m, ks[n], xs[n]), n + 1;
    forall k ensures GroupAt(m', xs, ks, n', k) {
      assert GroupAt(m, xs, ks, n, k);
    }
  }

  /** One list per key that occurs, in whatever order the map yields its keys. */
  ghost predicate OnePerKey<T>(ret: seq<seq<T>>, keys: seq<string>, xs: seq<T>, ks: seq<string>)
    requires |xs| == |ks|
  {
    && |ret| == |keys| && NoDup(keys)
    && (forall i :: 0 <= i < |keys| ==> ret[i] == Part(xs, ks, keys[i], |xs|))
    && (forall k :: k !in keys ==> Part(xs, ks, k, |xs|) == [])
  }

  ghost predicate ByKey<T>(ret: seq<seq<T>>, xs: seq<T>, ks: seq<string>)
    requires |xs| == |ks|
  {
    exists keys :: OnePerKey(ret, keys, xs, ks)
  }

  method Flatten<T>(m: map<string, seq<T>>, ghost xs: seq<T>, ghost ks: seq<string>) returns (ret: seq<seq<T>>)
    requires |xs| == |ks| && Grouped(m, xs, ks, |xs|)
    ensures ByKey(ret, xs, ks)
  {
    ret := [];
    ghost var keys: seq<string> := [];
    var rest := m.Keys;
    while rest != {}
      invariant |ret| == |keys| && NoDup(keys) && rest <= m.Keys
      invariant forall k :: k in m <==> k in rest || k in keys
      invariant forall k :: k in rest ==> k !in keys
      invariant forall i :: 0 <= i < |keys| ==> ret[i] == Part(xs, ks, keys[i], |xs|)
    {
      var k :| k in rest;
      assert GroupAt(m, xs, ks, |xs|, k);
      ret := ret + [m[k]];
      keys := keys + [k];
      rest := rest - {k};
    }
    forall k | k !in keys ensures Part(xs, ks, k, |xs|) == [] {
      assert GroupAt(m, xs, ks, |xs|, k);
    }
    assert OnePerKey(ret, keys, xs, ks);
  }

  method Partition(history: seq<Operation<KvInput, KvOutput>>) returns (ret: seq<seq<Operation<KvInput, KvOutput>>>)
    ensures ByKey(ret, history, OpKeys(history, KeyOf))
  {
    var m := map[];
    ghost var ks := OpKeys(history, KeyOf);
    for i := 0 to |history|
      invariant Grouped(m, history, ks, i)
    {
      AddKeepsGroups(m, history, ks, i);
      m := AddTo(m, history[i].input.key, history[i]);
    }
    ret := Flatten(m, history, ks);
  }

  /** What the return of an operation needs to know: the key it was called with. */
  ghost predicate Knows(events: seq<Event<Value<KvInput, KvOutput>>>, h: History<KvInput, KvOutput>,
                        matched: map<nat, string>, j: nat)
    requires j < |events|
  {
    events[j].id in matched && events[j].id in h && matched[events[j].id] == h[events[j].id].input.key
  }

  method GroupEvents(history: seq<Event<Value<KvInput, KvOutput>>>, ghost h: History<KvInput, KvOutput>,
                     ghost ks: seq<string>)
    returns (m: map<string, seq<Event<Value<KvInput, KvOutput>>>>)
    requires Keyed(history, h, KeyOf, ks)
    ensures Grouped(m, history, ks, |history|)
  {
    m := map[];
    var matched: map<nat, string> := map[];
    ghost var es := ConvertEntries(history);
    for i := 0 to |history|
      invariant Grouped(m, history, ks, i)
      invariant forall j {:trigger Knows(history, h, matched, j)} :: 0 <= j < i ==> Knows(history, h, matched, j)
    {
      var event := history[i];
      ghost var before := matched;
      assert DescribesAt(es, h, i);
      assert DescribesOp(es, h, event.id);
      AddKeepsGroups(m, history, ks, i);
      if event.kind.Call? {
        var key := event.value.input.key;
        matched := matched[event.id := key];
        m := AddTo(m, key, event);
      } else {
        assert Knows(history, h, matched, h[event.id].call);
        var key := matched[event.id];
        m := AddTo(m, key, event);
      }
      forall j | 0 <= j < i + 1 ensures Knows(history, h, matched, j) {
        assert j < i ==> Knows(history, h, before, j);
      }
    }
  }

  method PartitionEvent(history: seq<Event<Value<KvInput, KvOutput>>>)
    returns (ret: seq<seq<Event<Value<KvInput, KvOutput>>>>)
    requires WellFormedEvents(history)
    ensures ByKey(ret, history, EventKeys(history, KeyOf))
  {
    ghost var ks := EventKeys(history, KeyOf);
    EventsAreKeyed(history, KeyOf);
    var m := GroupEvents(history, EventsHistory(history), ks);
    ret := Flatten(m, history, ks);
  }

  // ---------------------------------------------------------------- the promise of the partition functions

  lemma NothingIsLinearizable()
    ensures Linearizable(KvModel(), map[])
  {
    assert Completes(KvModel(), map[], {}, "", []);
  }

  /** Splitting timed operations by key: the store's history is linearizable exactly when every list is. */
  lemma {:induction false} PartitionDecides(history: seq<Operation<KvInput, KvOutput>>,
                                            ret: seq<seq<Operation<KvInput, KvOutput>>>)
    requires Proper(history) && ByKey(ret, history, OpKeys(history, KeyOf))
    ensures Linearizable(KvStore(), OpsHistory(history)) <==> forall i :: 0 <= i < |ret| ==>
              Linearizable(KvModel(), OpsHistory(ret[i]))
  {
    var m, h := KvModel(), OpsHistory(history);
    var keys :| OnePerKey(ret, keys, history, OpKeys(history, KeyOf));
    LinearizableIffEachKeyIs(m, KeyOf, h);
    if Linearizable(KvStore(), h) {
      forall i | 0 <= i < |ret| ensures Linearizable(m, OpsHistory(ret[i])) {
        assert Linearizable(m, Sub(h, KeyOf, keys[i]));
        OpsPartSameAnswer(m, KeyOf, history, keys[i]);
      }
    }
    if forall i :: 0 <= i < |ret| ==> Linearizable(m, OpsHistory(ret[i])) {
      forall k ensures Linearizable(m, Sub(h, KeyOf, k)) {
        OpsPartSameAnswer(m, KeyOf, history, k);
        if k in keys {
          var i :| 0 <= i < |keys| && keys[i] == k;
          assert ret[i] == OpsPart(history, KeyOf, k);
        } else {
          assert OpsHistory(OpsPart(history, KeyOf, k)) == map[];
          NothingIsLinearizable();
        }
      }
    }
  }

  lemma NoEvents()
    ensures WellFormedEvents<KvInput, KvOutput>([]) && EventsHistory<KvInput, KvOutput>([]) == map[]
  {
    assert ConvertEntries<Value<KvInput, KvOutput>>([]) == [];
    DescribesIsHistoryOf<KvInput, KvOutput>([], map[]);
  }

  lemma EventsAreTimed<I, O>(events: seq<Event<Value<I, O>>>)
    requires WellFormedEvents(events)
    ensures Timed(EventsHistory(events))
  {
    var es := ConvertEntries(events);
    WellFormedDescribes(es);
    forall a | a in HistoryOf(es) ensures HistoryOf(es)[a].call <= HistoryOf(es)[a].ret {
      assert DescribesOp(es, HistoryOf(es), a);
    }
  }

  /**
   Splitting events by key: every list is well formed, and the store's history is linearizable exactly when every list
   is.
   */
  lemma {:induction false} PartitionEventDecides(history: seq<Event<Value<KvInput, KvOutput>>>,
                                                 ret: seq<seq<Event<Value<KvInput, KvOutput>>>>)
    requires WellFormedEvents(history) && ByKey(ret, history, EventKeys(history, KeyOf))
    ensures forall i :: 0 <= i < |ret| ==> WellFormedEvents(ret[i])
    ensures Linearizable(KvStore(), EventsHistory(history)) <==> forall i :: 0 <= i < |ret| ==>
              Linearizable(KvModel(), EventsHistory(ret[i]))
  {
    var m, h := KvModel(), EventsHistory(history);
    var keys :| OnePerKey(ret, keys, history, EventKeys(history, KeyOf));
    EventsAreTimed(history);
    LinearizableIffEachKeyIs(m, KeyOf, h);
    forall k ensures WellFormedEvents(EventsPart(history, KeyOf, k))
      && (Linearizable(m, Sub(h, KeyOf, k)) <==> Linearizable(m, EventsHistory(EventsPart(history, KeyOf, k)))) {
      EventPartSameAnswer(m, KeyOf, history, k);
    }
    forall i | 0 <= i < |ret|
      ensures WellFormedEvents(ret[i])
      ensures (Linearizable(m, Sub(h, KeyOf, keys[i])) <==> Linearizable(m, EventsHistory(ret[i])))
    {
      assert ret[i] == EventsPart(history, KeyOf, keys[i]);
    }
    if forall i :: 0 <= i < |ret| ==> Linearizable(m, EventsHistory(ret[i])) {
      forall k ensures Linearizable(m, Sub(h, KeyOf, k)) {
        if k in keys {
          var i :| 0 <= i < |keys| && keys[i] == k;
          assert ret[i] == EventsPart(history, KeyOf, k);
        } else {
          assert EventsPart(history, KeyOf, k) == [];
          NoEvents();
          NothingIsLinearizable();
        }
      }
    }
  }

  // ---------------------------------------------------------------- a tie that changes the answer

  /** A read of "x" that returns at the instant at which the write of "x" is called. */
  function TiedOps(): seq<Operation<KvInput, KvOutput>> {
    [Operation(KvInput(Get, "k", ""), 0, KvOutput("x"), 5), Operation(KvInput(Put, "k", "x"), 5, KvOutput(""), 9)]
  }

  lemma TiedIsLinearizable()
    ensures Linearizable(KvModel(), OpsHistory(TiedOps()))
  {
    var m, h, p := KvModel(), OpsHistory(TiedOps()), [1, 0];
    assert p[0] == 1 && p[1] == 0;
    assert Elems(p) == {0, 1} == h.Keys;
    assert p[1..] == [0] && p[1..][1..] == [];
    assert Accepts(m, h, "x", p[1..]);
    assert Completes(m, h, {}, m.init, p);
  }

  lemma ReadComesFirst(h: History<KvInput, KvOutput>, q: seq<nat>)
    requires h.Keys == {0, 1} && Precedes(h, 0, 1)
    requires Within(h, q) && Elems(q) == h.Keys && RespectsRealTime(h, q)
    ensures q != [] && q[0] == 0
  {
    assert 0 in Elems(q);
    var i :| 0 <= i < |q| && q[i] == 0;
    assert q[0] in Elems(q);
    assert i > 0 ==> !Precedes(h, q[i], q[0]);
  }

  lemma ReadFirstIsNot(h: History<KvInput, KvOutput>)
    requires ByTimeThenListed(TiedOps(), h)
    ensures !Linearizable(KvModel(), h)
  {
    assert h.Keys == {0, 1} && Precedes(h, 0, 1);
    forall q: seq<nat> ensures !Completes(KvModel(), h, {}, "", q) {
      if Completes(KvModel(), h, {}, "", q) { ReadComesFirst(h, q); }
    }
  }

  /** As timed operations they overlap and are linearizable; sorted stably by time alone they are not. */
  lemma {:induction false} TieChangesTheAnswer(es: seq<Entry<Value<KvInput, KvOutput>>>)
    requires StablyByTime(TiedOps(), es)
    ensures Proper(TiedOps()) && !TieFree(TiedOps()) && WellFormed(es)
    ensures Linearizable(KvModel(), OpsHistory(TiedOps())) && !Linearizable(KvModel(), HistoryOf(es))
  {
    assert TiedOps()[0].finish == TiedOps()[1].call;
    TiedIsLinearizable();
    StableIsByTimeThenListed(TiedOps(), es);
    ReadFirstIsNot(HistoryOf(es));
  }
}
