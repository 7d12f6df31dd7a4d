/**
 From timed operations to a sequence of entries: two records per operation,
 sorted by time.  What matters is whether the order of positions tells the same
 story as the instants did.
 */
module Preparation {
  import opened Histories
  import opened Entries

  /** The history a list of timed operations describes; an operation is named by its index. */
  ghost function OpsHistory<I, O>(ops: seq<Operation<I, O>>): History<I, O> {
    map a: nat | a < |ops| :: Op(ops[a].input, ops[a].output, ops[a].call, ops[a].finish)
  }

  ghost predicate Proper<I, O>(ops: seq<Operation<I, O>>) {
    forall a :: 0 <= a < |ops| ==> ops[a].call <= ops[a].finish
  }

  /** Record 2a is the call of operation a, record 2a + 1 its return. */
  ghost function Record<I, O>(ops: seq<Operation<I, O>>, k: nat): Entry<Value<I, O>>
    requires k < 2 * |ops|
  {
    var op := ops[k / 2];
    if k % 2 == 0 then Entry(Call, Input(op.input), k / 2, op.call)
       else Entry(Return, Output(op.output), k / 2, op.finish)
  }

  /** `es` holds each record once: `at[k]` is where record k went, `from[i]` which record position i holds. */
  ghost predicate Rearranged<I, O>(ops: seq<Operation<I, O>>, es: seq<Entry<Value<I, O>>>, at: seq<nat>,
                                   from: seq<nat>)
  {
    && |es| == |at| == |from| == 2 * |ops|
    && (forall k {:trigger WentTo(ops, es, at, from, k)} :: 0 <= k < |at| ==> WentTo(ops, es, at, from, k))
    && (forall i {:trigger CameFrom(at, from, i)} :: 0 <= i < |from| ==> CameFrom(at, from, i))
  }

  ghost predicate WentTo<I, O>(ops: seq<Operation<I, O>>, es: seq<Entry<Value<I, O>>>, at: seq<nat>, from: seq<nat>,
                               k: nat)
    requires |es| == |at| == |from| == 2 * |ops| && k < |at|
  {
    at[k] < |es| && from[at[k]] == k && es[at[k]] == Record(ops, k)
  }

  ghost predicate CameFrom(at: seq<nat>, from: seq<nat>, i: nat)
    requires i < |from|
  {
    from[i] < |at| && at[from[i]] == i
  }

  /** A stable sort by time: equal times keep the order in which the records were made. */
  ghost predicate StablyByTime<I, O>(ops: seq<Operation<I, O>>, es: seq<Entry<Value<I, O>>>) {
    exists at, from :: Rearranged(ops, es, at, from) && Stable(ops, at)
  }

  ghost predicate Stable<I, O>(ops: seq<Operation<I, O>>, at: seq<nat>) {
    |at| == 2 * |ops| &&
    forall j, k {:trigger StableAt(ops, at, j, k)} :: 0 <= j < |at| && 0 <= k < |at| ==> StableAt(ops, at, j, k)
  }

  ghost predicate StableAt<I, O>(ops: seq<Operation<I, O>>, at: seq<nat>, j: nat, k: nat)
    requires |at| == 2 * |ops| && j < |at| && k < |at|
  {
    at[j] < at[k] ==> Record(ops, j).time < Record(ops, k).time || (Record(ops, j).time == Record(ops, k).time && j < k)
  }

  /** The comparison that puts calls before returns at equal times. */
  predicate Less<T>(a: Entry<T>, b: Entry<T>) {
    if a.time != b.time then a.time < b.time else a.kind.Call? && b.kind.Return?
  }

  /** Any arrangement in which no record is less than an earlier one. */
  ghost predicate CallsFirstByTime<I, O>(ops: seq<Operation<I, O>>, es: seq<Entry<Value<I, O>>>) {
    exists at, from :: Rearranged(ops, es, at, from) && CallsFirst(ops, at)
  }

  ghost predicate CallsFirst<I, O>(ops: seq<Operation<I, O>>, at: seq<nat>) {
    |at| == 2 * |ops| &&
    forall j, k {:trigger CallsFirstAt(ops, at, j, k)} :: 0 <= j < |at| && 0 <= k < |at| ==> CallsFirstAt(ops, at, j, k)
  }

  ghost predicate CallsFirstAt<I, O>(ops: seq<Operation<I, O>>, at: seq<nat>, j: nat, k: nat)
    requires |at| == 2 * |ops| && j < |at| && k < |at|
  {
    at[j] < at[k] ==> !Less(Record(ops, k), Record(ops, j))
  }

  // ---------------------------------------------------------------- what any arrangement gives

  lemma RecordAt<I, O>(ops: seq<Operation<I, O>>, a: nat)
    requires a < |ops|
    ensures 2 * a + 1 < 2 * |ops|
    ensures Record(ops, 2 * a) == Entry(Call, Input(ops[a].input), a, ops[a].call)
    ensures Record(ops, 2 * a + 1) == Entry(Return, Output(ops[a].output), a, ops[a].finish)
  {
    assert (2 * a) / 2 == a && (2 * a) % 2 == 0 && (2 * a + 1) / 2 == a && (2 * a + 1) % 2 == 1;
  }

  /** A position holds the call or the return of the operation it names. */
  lemma PositionHolds<I, O>(ops: seq<Operation<I, O>>, es: seq<Entry<Value<I, O>>>, at: seq<nat>, from: seq<nat>,
                            i: nat)
    requires Rearranged(ops, es, at, from) && i < |es|
    ensures es[i].id < |ops|
    ensures es[i].kind.Call? ==> at[2 * es[i].id] == i && es[i].value == Input(ops[es[i].id].input)
    ensures es[i].kind.Return? ==> at[2 * es[i].id + 1] == i && es[i].value == Output(ops[es[i].id].output)
  {
    assert CameFrom(at, from, i);
    var k := from[i];
    assert WentTo(ops, es, at, from, k);
    assert k == 2 * (k / 2) || k == 2 * (k / 2) + 1;
  }

  /** The history with positions for instants. */
  ghost function AtHistory<I, O>(ops: seq<Operation<I, O>>, at: seq<nat>): History<I, O>
    requires |at| == 2 * |ops|
  {
    map a: nat | a < |ops| :: Op(ops[a].input, ops[a].output, at[2 * a], at[2 * a + 1])
  }

  /** If every call went before its return, the arrangement describes the operations with positions for instants. */
  lemma {:induction false} ArrangedDescribes<I, O>(ops: seq<Operation<I, O>>, es: seq<Entry<Value<I, O>>>, at: seq<nat>,
                                                   from: seq<nat>)
    requires Rearranged(ops, es, at, from)
    requires forall a :: 0 <= a < |ops| ==> at[2 * a] < at[2 * a + 1]
    ensures Describes(es, AtHistory(ops, at)) && Dense(es)
  {
    var h := AtHistory(ops, at);
    forall i | 0 <= i < |es| ensures DescribesAt(es, h, i) && es[i].id < |es| / 2 {
      PositionHolds(ops, es, at, from, i);
    }
    forall a | a in h ensures DescribesOp(es, h, a) {
      RecordAt(ops, a);
      assert WentTo(ops, es, at, from, 2 * a) && WentTo(ops, es, at, from, 2 * a + 1);
    }
  }

  /** The same operations, with the same values and in the same real-time order. */
  ghost predicate SameOrder<I, O>(h: History<I, O>, k: History<I, O>) {
    && h.Keys == k.Keys
    && (forall a :: a in h ==> h[a].input == k[a].input && h[a].output == k[a].output)
    && (forall a, b :: a in h && b in h && a != b ==> (Precedes(h, a, b) <==> Precedes(k, a, b)))
  }

  lemma {:induction false} SameOrderSameAnswer<S, I, O>(m: Model<S, I, O>, h: History<I, O>, k: History<I, O>)
    requires SameOrder(h, k)
    ensures Linearizable(m, h) <==> Linearizable(m, k)
  {
    var f := map a | a in h :: a;
    assert f.Values == k.Keys by {
      forall a | a in k ensures a in f.Values { assert a in f && f[a] == a; }
    }
    SameQuestionSameAnswer(m, h, k, f);
  }

  // ---------------------------------------------------------------- calls first: always the same question

  lemma CallsFirstOrder<I, O>(ops: seq<Operation<I, O>>, es: seq<Entry<Value<I, O>>>, at: seq<nat>, from: seq<nat>,
                              a: nat, b: nat)
    requires Rearranged(ops, es, at, from) && CallsFirst(ops, at) && a < |ops| && b < |ops|
    ensures 2 * a + 1 < |at| && 2 * b < |at| && (at[2 * a + 1] < at[2 * b] <==> ops[a].finish < ops[b].call)
  {
    RecordAt(ops, a);
    RecordAt(ops, b);
    assert WentTo(ops, es, at, from, 2 * a + 1) && WentTo(ops, es, at, from, 2 * b);
    assert CallsFirstAt(ops, at, 2 * a + 1, 2 * b) && CallsFirstAt(ops, at, 2 * b, 2 * a + 1);
  }

  lemma {:induction false} CallsFirstArranged<I, O>(ops: seq<Operation<I, O>>, es: seq<Entry<Value<I, O>>>)
    returns (at: seq<nat>)
    requires Proper(ops) && CallsFirstByTime(ops, es)
    ensures |at| == 2 * |ops| && Describes(es, AtHistory(ops, at)) && Dense(es)
    ensures forall a, b :: a in AtHistory(ops, at) && b in AtHistory(ops, at) ==>
      (Precedes(AtHistory(ops, at), a, b) <==> Precedes(OpsHistory(ops), a, b))
  {
    var from;
    at, from :| Rearranged(ops, es, at, from) && CallsFirst(ops, at);
    forall a | 0 <= a < |ops| ensures at[2 * a] < at[2 * a + 1] {
      CallsFirstOrder(ops, es, at, from, a, a);
      assert WentTo(ops, es, at, from, 2 * a) && WentTo(ops, es, at, from, 2 * a + 1);
    }
    ArrangedDescribes(ops, es, at, from);
    forall a, b | a in AtHistory(ops, at) && b in AtHistory(ops, at)
      ensures Precedes(AtHistory(ops, at), a, b) <==> Precedes(OpsHistory(ops), a, b) {
      CallsFirstOrder(ops, es, at, from, a, b);
    }
  }

  /** Sorting with calls first keeps the question, whatever ties there are and whether or not the sort is stable. */
  lemma {:induction false} CallsFirstSameAnswer<S, I, O>(m: Model<S, I, O>, ops: seq<Operation<I, O>>,
                                                         es: seq<Entry<Value<I, O>>>)
    requires Proper(ops) && CallsFirstByTime(ops, es)
    ensures WellFormed(es) && Dense(es) && SameOrder(OpsHistory(ops), HistoryOf(es))
    ensures Linearizable(m, OpsHistory(ops)) <==> Linearizable(m, HistoryOf(es))
  {
    var at := CallsFirstArranged(ops, es);
    DescribesIsHistoryOf(es, AtHistory(ops, at));
    SameOrderSameAnswer(m, OpsHistory(ops), AtHistory(ops, at));
  }

  // ---------------------------------------------------------------- stable by time: the same question unless times tie

  /** No operation returns at the very instant at which a later-listed one is called. */
  ghost predicate TieFree<I, O>(ops: seq<Operation<I, O>>) {
    forall a, b :: 0 <= a < b < |ops| ==> ops[a].finish != ops[b].call
  }

  lemma StableOrder<I, O>(ops: seq<Operation<I, O>>, es: seq<Entry<Value<I, O>>>, at: seq<nat>, from: seq<nat>, j: nat,
                          k: nat)
    requires Rearranged(ops, es, at, from) && Stable(ops, at) && j < |at| && k < |at| && j != k
    ensures at[j] < at[k] <==>
      Record(ops, j).time < Record(ops, k).time || (Record(ops, j).time == Record(ops, k).time && j < k)
  {
    assert WentTo(ops, es, at, from, j) && WentTo(ops, es, at, from, k);
    assert StableAt(ops, at, j, k) && StableAt(ops, at, k, j);
  }

  /** a's return goes before b's call exactly when a returned earlier, or at the same time and a is listed first. */
  ghost predicate ByTimeThenListed<I, O>(ops: seq<Operation<I, O>>, h: History<I, O>) {
    && h.Keys == OpsHistory(ops).Keys
    && (forall a :: a in h ==> h[a].input == ops[a].input && h[a].output == ops[a].output)
    && (forall a, b :: a in h && b in h && a != b ==>
          (Precedes(h, a, b) <==> ops[a].finish < ops[b].call || (ops[a].finish == ops[b].call && a < b)))
  }

  lemma {:induction false} StableArranged<I, O>(ops: seq<Operation<I, O>>, es: seq<Entry<Value<I, O>>>)
    returns (h: History<I, O>)
    requires Proper(ops) && StablyByTime(ops, es)
    ensures Describes(es, h) && Dense(es) && ByTimeThenListed(ops, h)
  {
    var at, from :| Rearranged(ops, es, at, from) && Stable(ops, at);
    forall a | 0 <= a < |ops| ensures at[2 * a] < at[2 * a + 1] {
      RecordAt(ops, a);
      StableOrder(ops, es, at, from, 2 * a, 2 * a + 1);
    }
    ArrangedDescribes(ops, es, at, from);
    h := AtHistory(ops, at);
    forall a, b | a in h && b in h && a != b
      ensures Precedes(h, a, b) <==> ops[a].finish < ops[b].call || (ops[a].finish == ops[b].call && a < b) {
      RecordAt(ops, a);
      RecordAt(ops, b);
      StableOrder(ops, es, at, from, 2 * a + 1, 2 * b);
    }
  }

  /** A stable sort orders by time, and at equal times by place in the list. */
  lemma {:induction false} StableIsByTimeThenListed<I, O>(ops: seq<Operation<I, O>>, es: seq<Entry<Value<I, O>>>)
    requires Proper(ops) && StablyByTime(ops, es)
    ensures WellFormed(es) && Dense(es) && ByTimeThenListed(ops, HistoryOf(es))
  {
    var h := StableArranged(ops, es);
    DescribesIsHistoryOf(es, h);
  }

  lemma {:induction false} SameOrderIffTieFree<I, O>(ops: seq<Operation<I, O>>, h: History<I, O>)
    requires ByTimeThenListed(ops, h)
    ensures TieFree(ops) <==> SameOrder(OpsHistory(ops), h)
  {
    var k := OpsHistory(ops);
    if !TieFree(ops) {
      var a, b :| 0 <= a < b < |ops| && ops[a].finish == ops[b].call;
      assert a in k && b in k && Precedes(h, a, b) && !Precedes(k, a, b);
    }
  }

  /** The stable sort keeps the real-time order exactly when there is no such tie; then it keeps the question. */
  lemma {:induction false} StableKeepsOrderIffTieFree<S, I, O>(m: Model<S, I, O>, ops: seq<Operation<I, O>>,
                                                               es: seq<Entry<Value<I, O>>>)
    requires Proper(ops) && StablyByTime(ops, es)
    ensures WellFormed(es) && Dense(es)
    ensures TieFree(ops) <==> SameOrder(OpsHistory(ops), HistoryOf(es))
    ensures TieFree(ops) ==> (Linearizable(m, OpsHistory(ops)) <==> Linearizable(m, HistoryOf(es)))
  {
    StableIsByTimeThenListed(ops, es);
    SameOrderIffTieFree(ops, HistoryOf(es));
    if TieFree(ops) {
      SameOrderSameAnswer(m, OpsHistory(ops), HistoryOf(es));
    }
  }

  // ---------------------------------------------------------------- making the entries

  ghost function Records<I, O>(ops: seq<Operation<I, O>>): seq<Entry<Value<I, O>>> {
    seq(2 * |ops|, k requires 0 <= k < 2 * |ops| => Record(ops, k))
  }

  /** What the library's stable sort by time promises. */
  ghost predicate SortsStably<I(!new), O(!new)>(sort: seq<Entry<Value<I, O>>> -> seq<Entry<Value<I, O>>>) {
    forall ops: seq<Operation<I, O>> :: StablyByTime(ops, sort(Records(ops)))
  }

  method MakeEntries<I(!new), O(!new)>(history: seq<Operation<I, O>>,
                                       sort: seq<Entry<Value<I, O>>> -> seq<Entry<Value<I, O>>>)
    returns (entries: seq<Entry<Value<I, O>>>)
    requires SortsStably(sort)
    ensures Proper(history) ==> WellFormed(entries) && Dense(entries) && ByTimeThenListed(history, HistoryOf(entries))
  {
    entries := [];
    for id := 0 to |history|
      invariant entries == Records(history)[..2 * id]
    {
      var elem := history[id];
      RecordAt(history, id);
      entries := entries + [Entry(Call, Input(elem.input), id, elem.call)];
      entries := entries + [Entry(Return, Output(elem.output), id, elem.finish)];
    }
    assert entries == Records(history);
    entries := sort(entries);
    if Proper(history) {
      StableIsByTimeThenListed(history, entries);
    }
  }
}
