module Entries {
  // Call and return records, and the history they describe.
  //
  // The checker never sees instants: it works on a sequence of entries in which
  // every operation has one call and one later return.  Positions in that sequence
  // play the part of instants.

  import opened Histories

  /** What a record carries: the input of a call, the output of a return, or nothing (the list's sentinel). */
  datatype Value<+I, +O> = Input(input: I) | Output(output: O) | NoValue

  datatype Kind = Call | Return

  datatype Event<+T> = Event(kind: Kind, value: T, id: nat)

  datatype Entry<+T> = Entry(kind: Kind, value: T, id: nat, time: int)

  datatype Operation<+I, +O> = Operation(input: I, call: int, output: O, finish: int)

  /** Each operation has exactly one call and, later, exactly one return, carrying its input and its output. */
  ghost predicate WellFormed<I, O>(es: seq<Entry<Value<I, O>>>) {
    && (forall i :: 0 <= i < |es| && es[i].kind.Call? ==> es[i].value.Input? && HasReturnAfter(es, i))
    && (forall i :: 0 <= i < |es| && es[i].kind.Return? ==> es[i].value.Output? && HasCallBefore(es, i))
    && (forall i, j :: 0 <= i < j < |es| && es[i].id == es[j].id ==> es[i].kind.Call? && es[j].kind.Return?)
  }

  ghost predicate HasReturnAfter<T>(es: seq<Entry<T>>, i: nat)
    requires i < |es|
  {
    exists j :: i < j < |es| && es[j].kind.Return? && es[j].id == es[i].id
  }

  ghost predicate HasCallBefore<T>(es: seq<Entry<T>>, i: nat)
    requires i < |es|
  {
    exists j :: 0 <= j < i && es[j].kind.Call? && es[j].id == es[i].id
  }

  /** Names are small enough for a bit set of half the length of the sequence. */
  ghost predicate Dense<T>(es: seq<Entry<T>>) {
    forall i :: 0 <= i < |es| ==> es[i].id < |es| / 2
  }

  ghost function Ids<T>(es: seq<Entry<T>>): set<nat> {
    set i | 0 <= i < |es| :: es[i].id
  }

  ghost function CallAt<I, O>(es: seq<Entry<Value<I, O>>>, id: nat): (c: nat)
    requires WellFormed(es) && id in Ids(es)
    ensures c < |es| && es[c].kind.Call? && es[c].id == id
  {
    CallExists(es, id);
    var c: nat :| c < |es| && es[c].kind.Call? && es[c].id == id;
    c
  }

  ghost function RetAt<I, O>(es: seq<Entry<Value<I, O>>>, id: nat): (r: nat)
    requires WellFormed(es) && id in Ids(es)
    ensures CallAt(es, id) < r < |es| && es[r].kind.Return? && es[r].id == id
  {
    assert HasReturnAfter(es, CallAt(es, id));
    var r: nat :| CallAt(es, id) < r < |es| && es[r].kind.Return? && es[r].id == id;
    r
  }

  lemma CallExists<I, O>(es: seq<Entry<Value<I, O>>>, id: nat)
    requires WellFormed(es) && id in Ids(es)
    ensures exists c: nat :: c < |es| && es[c].kind.Call? && es[c].id == id
  {
    var i :| 0 <= i < |es| && es[i].id == id;
    if es[i].kind.Return? {
      assert HasCallBefore(es, i);
      var j :| 0 <= j < i && es[j].kind.Call? && es[j].id == es[i].id;
      assert 0 <= j as nat < |es|;
    }
  }

  /** A position is the call or the return of the operation it names, and there is no other. */
  lemma PositionIs<I, O>(es: seq<Entry<Value<I, O>>>, i: nat)
    requires WellFormed(es) && i < |es|
    ensures es[i].id in Ids(es)
    ensures i == if es[i].kind.Call? then CallAt(es, es[i].id) else RetAt(es, es[i].id)
  {
    assert es[i].id in Ids(es);
    var c, r := CallAt(es, es[i].id), RetAt(es, es[i].id);
    assert es[c].id == es[i].id && es[r].id == es[i].id;
  }

  /** The history a sequence of entries describes, with positions as instants. */
  ghost function HistoryOf<I, O>(es: seq<Entry<Value<I, O>>>): History<I, O>
    requires WellFormed(es)
  {
    map id | id in Ids(es) ::
      Op(es[CallAt(es, id)].value.input, es[RetAt(es, id)].value.output, CallAt(es, id), RetAt(es, id))
  }

  /** The entries and the history say the same, position by position and operation by operation. */
  ghost predicate Describes<I, O>(es: seq<Entry<Value<I, O>>>, h: History<I, O>) {
    && (forall i {:trigger DescribesAt(es, h, i)} :: 0 <= i < |es| ==> DescribesAt(es, h, i))
    && (forall a {:trigger DescribesOp(es, h, a)} :: a in h ==> DescribesOp(es, h, a))
  }

  ghost predicate DescribesAt<I, O>(es: seq<Entry<Value<I, O>>>, h: History<I, O>, i: nat)
    requires i < |es|
  {
    && es[i].id in h
    && if es[i].kind.Call?
       then h[es[i].id].call == i && es[i].value == Input(h[es[i].id].input)
       else h[es[i].id].ret == i && es[i].value == Output(h[es[i].id].output)
  }

  ghost predicate DescribesOp<I, O>(es: seq<Entry<Value<I, O>>>, h: History<I, O>, a: nat)
    requires a in h
  {
    && 0 <= h[a].call < h[a].ret < |es|
    && es[h[a].call].kind.Call? && es[h[a].call].id == a
    && es[h[a].ret].kind.Return? && es[h[a].ret].id == a
  }

  lemma {:induction false} WellFormedDescribes<I, O>(es: seq<Entry<Value<I, O>>>)
    requires WellFormed(es)
    ensures Describes(es, HistoryOf(es))
  {
    forall i | 0 <= i < |es| ensures DescribesAt(es, HistoryOf(es), i) {
      PositionIs(es, i);
    }
    forall a | a in HistoryOf(es) ensures DescribesOp(es, HistoryOf(es), a) {
      assert a in Ids(es);
    }
  }

  lemma {:induction false} DescribesWellFormed<I, O>(es: seq<Entry<Value<I, O>>>, h: History<I, O>)
    requires Describes(es, h)
    ensures WellFormed(es)
  {
    forall i | 0 <= i < |es|
      ensures es[i].kind.Call? ==> es[i].value.Input? && HasReturnAfter(es, i)
      ensures es[i].kind.Return? ==> es[i].value.Output? && HasCallBefore(es, i) {
      assert DescribesAt(es, h, i);
      assert DescribesOp(es, h, es[i].id);
    }
    forall i, j | 0 <= i < j < |es| && es[i].id == es[j].id ensures es[i].kind.Call? && es[j].kind.Return? {
      assert DescribesAt(es, h, i) && DescribesAt(es, h, j);
      assert DescribesOp(es, h, es[i].id);
    }
  }

  /** A sequence of entries describes one history only. */
  lemma {:induction false} DescribesIsHistoryOf<I, O>(es: seq<Entry<Value<I, O>>>, h: History<I, O>)
    requires Describes(es, h)
    ensures WellFormed(es) && HistoryOf(es) == h
  {
    DescribesWellFormed(es, h);
    WellFormedDescribes(es);
    SameHistory(es, h, HistoryOf(es));
  }

  lemma SameHistory<I, O>(es: seq<Entry<Value<I, O>>>, h: History<I, O>, k: History<I, O>)
    requires Describes(es, h) && Describes(es, k)
    ensures h == k
  {
    WithinHistory(es, h, k);
    WithinHistory(es, k, h);
  }

  lemma {:induction false} WithinHistory<I, O>(es: seq<Entry<Value<I, O>>>, h: History<I, O>, k: History<I, O>)
    requires Describes(es, h) && Describes(es, k)
    ensures forall a :: a in h ==> a in k && h[a] == k[a]
  {
    forall a | a in h ensures a in k && h[a] == k[a] {
      assert DescribesOp(es, h, a);
      var c, r := h[a].call, h[a].ret;
      assert DescribesAt(es, h, c) && DescribesAt(es, h, r) && DescribesAt(es, k, c) && DescribesAt(es, k, r);
    }
  }
}
