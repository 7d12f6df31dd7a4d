module Checking {
  // The checker as a whole: split a history of the key/value store by key, search
  // each part in its own worker, and wait for the answers.

  import opened Histories
  import opened Entries
  import opened Preparation
  import opened Renumbering
  import opened Partitioning
  import opened KvModels
  import opened Searching
  import opened Search
  import V = Verdicts

  // ---------------------------------------------------------------- what one worker does

  /** The worker for a part given as events. */
  method SearchEvents<S(!new), I(!new), O(!new)>(m: Model<S, I, O>, part: seq<Event<Value<I, O>>>, computePartial: bool,
                                                 kill: nat -> bool)
    returns (ok: bool, longest: Longest)
    requires WellFormedEvents(part) && EqualIsSafe(m)
    ensures V.May(Linearizable(m, EventsHistory(part)), exists n :: kill(n), ok)
  {
    var e := Renumber(part);
    RenumberedSameAnswer(m, part, e);
    ok, longest := CheckSingle(m, ConvertEntries(e), computePartial, kill);
  }

  /**
   The worker for a part given as timed operations, sorted stably by time: right whenever no return and later-listed
   call coincide.
   */
  method SearchOperations<S(!new), I(!new), O(!new)>(m: Model<S, I, O>, part: seq<Operation<I, O>>,
                                                     sort: seq<Entry<Value<I, O>>> -> seq<Entry<Value<I, O>>>,
                                                     computePartial: bool, kill: nat -> bool)
    returns (ok: bool, longest: Longest)
    requires Proper(part) && EqualIsSafe(m) && SortsStably(sort)
    ensures TieFree(part) ==> V.May(Linearizable(m, OpsHistory(part)), exists n :: kill(n), ok)
  {
    var entries := MakeEntries(part, sort);
    if TieFree(part) {
      SameOrderIffTieFree(part, HistoryOf(entries));
      SameOrderSameAnswer(m, OpsHistory(part), HistoryOf(entries));
    }
    ok, longest := CheckSingle(m, entries, computePartial, kill);
  }

  // ---------------------------------------------------------------- the answer of a whole run

  /** The question each worker is given, and its true answer: what `SearchEvents` is about. */
  ghost function EventTruths(parts: seq<seq<Event<Value<KvInput, KvOutput>>>>): seq<bool> {
    seq(|parts|, i requires 0 <= i < |parts| => EventTruth(parts[i]))
  }

  /**
   Events in, answer out: however the workers and the loop interleave, a run that
   ends without a timeout says `true` exactly when the store's history is
   linearizable, and no run says `false` wrongly.
   */
  lemma {:induction false} CheckEvents(events: seq<Event<Value<KvInput, KvOutput>>>,
                                       parts: seq<seq<Event<Value<KvInput, KvOutput>>>>,
                                       style: V.Style, hasTimeout: bool, run: seq<V.State>)
    requires WellFormedEvents(events) && ByKey(parts, events, EventKeys(events, KeyOf))
    requires V.Run(V.Setup(EventTruths(parts), style, hasTimeout), run) && V.Last(run).loop.outcome.Finished?
    ensures var o := V.Last(run).loop.outcome;
            && (!o.timedOut ==> (o.ok <==> Linearizable(KvStore(), EventsHistory(events))))
            && (!o.ok ==> !Linearizable(KvStore(), EventsHistory(events)))
  {
    PartitionEventDecides(events, parts);
    V.VerdictIsRight(V.Setup(EventTruths(parts), style, hasTimeout), run);
    EventsAllTrue(parts);
  }

  lemma EventsAllTrue(parts: seq<seq<Event<Value<KvInput, KvOutput>>>>)
    requires forall i :: 0 <= i < |parts| ==> WellFormedEvents(parts[i])
    ensures V.AllTrue(EventTruths(parts)) <==> forall i :: 0 <= i < |parts| ==>
              Linearizable(KvModel(), EventsHistory(parts[i]))
  {
    if V.AllTrue(EventTruths(parts)) {
      forall i | 0 <= i < |parts| ensures Linearizable(KvModel(), EventsHistory(parts[i])) {
        assert EventTruths(parts)[i];
      }
    }
  }

  lemma SomePart<T>(parts: seq<seq<T>>, xs: seq<T>, ks: seq<string>)
    requires |xs| == |ks| > 0 && ByKey(parts, xs, ks)
    ensures parts != []
  {
    var keys :| OnePerKey(parts, keys, xs, ks);
    assert Part(xs, ks, ks[|ks| - 1], |xs|) != [];
  }

  /** A channel that holds these answers. */
  function Channel(answers: seq<bool>): nat -> V.Reception {
    (n: nat) => if n < |answers| then V.Got(answers[n]) else V.TimedOut
  }

  method AwaitAll(answers: seq<bool>) returns (ok: bool)
    requires answers != []
    ensures ok <==> V.AllTrue(answers)
  {
    var receive := Channel(answers);
    var kill, taken;
    ok, kill, taken := V.WaitRes(receive, |answers|);
    if ok {
      forall i | 0 <= i < |answers| ensures answers[i] { assert receive(i) == V.Got(true); }
    } else {
      assert receive(taken - 1) == V.Got(false);
    }
  }

  ghost predicate FormedAt(parts: seq<seq<Event<Value<KvInput, KvOutput>>>>, i: nat)
    requires i < |parts|
  {
    WellFormedEvents(parts[i])
  }

  ghost predicate Formed(parts: seq<seq<Event<Value<KvInput, KvOutput>>>>) {
    forall i {:trigger FormedAt(parts, i)} :: 0 <= i < |parts| ==> FormedAt(parts, i)
  }

  /** `truth` says of a part whether it is linearizable. */
  ghost predicate Judges(truth: seq<Event<Value<KvInput, KvOutput>>> -> bool) {
    forall part {:trigger JudgesAt(truth, part)} :: JudgesAt(truth, part)
  }

  ghost predicate JudgesAt(truth: seq<Event<Value<KvInput, KvOutput>>> -> bool,
                           part: seq<Event<Value<KvInput, KvOutput>>>)
  {
    WellFormedEvents(part) ==> (truth(part) <==> Linearizable(KvModel(), EventsHistory(part)))
  }

  ghost predicate Answered(parts: seq<seq<Event<Value<KvInput, KvOutput>>>>, answers: seq<bool>,
                           truth: seq<Event<Value<KvInput, KvOutput>>> -> bool) {
    |answers| == |parts| && forall i {:trigger AnsweredAt(parts, answers, truth, i)} :: 0 <= i < |parts| ==>
        AnsweredAt(parts, answers, truth, i)
  }

  ghost predicate AnsweredAt(parts: seq<seq<Event<Value<KvInput, KvOutput>>>>, answers: seq<bool>,
                             truth: seq<Event<Value<KvInput, KvOutput>>> -> bool, i: nat)
    requires i < |parts| == |answers|
  {
    answers[i] == truth(parts[i])
  }

  method SearchPart(parts: seq<seq<Event<Value<KvInput, KvOutput>>>>, i: nat,
                    ghost truth: seq<Event<Value<KvInput, KvOutput>>> -> bool)
    returns (answer: bool)
    requires Formed(parts) && Judges(truth) && i < |parts|
    ensures answer == truth(parts[i])
  {
    assert FormedAt(parts, i) && JudgesAt(truth, parts[i]);
    KvEqualIsSafe();
    var longest;
    answer, longest := SearchEvents(KvModel(), parts[i], false, _ => false);
  }

  method SearchAllEvents(parts: seq<seq<Event<Value<KvInput, KvOutput>>>>,
                         ghost truth: seq<Event<Value<KvInput, KvOutput>>> -> bool)
    returns (answers: seq<bool>)
    requires Formed(parts) && Judges(truth)
    ensures Answered(parts, answers, truth)
  {
    answers := [];
    for i := 0 to |parts|
      invariant |answers| == i && forall j :: 0 <= j < i ==> answers[j] == truth(parts[j])
    {
      var answer := SearchPart(parts, i, truth);
      answers := answers + [answer];
    }
    forall i | 0 <= i < |parts| ensures AnsweredAt(parts, answers, truth, i) { }
  }

  ghost function EventTruth(part: seq<Event<Value<KvInput, KvOutput>>>): bool {
    WellFormedEvents(part) && Linearizable(KvModel(), EventsHistory(part))
  }

  lemma PartsAreFormed(events: seq<Event<Value<KvInput, KvOutput>>>, parts: seq<seq<Event<Value<KvInput, KvOutput>>>>)
    requires WellFormedEvents(events) && ByKey(parts, events, EventKeys(events, KeyOf))
    ensures Formed(parts)
  {
    PartitionEventDecides(events, parts);
  }

  lemma TruthJudges()
    ensures Judges(EventTruth)
  {
  }

  lemma AnswersDecide(events: seq<Event<Value<KvInput, KvOutput>>>, parts: seq<seq<Event<Value<KvInput, KvOutput>>>>,
                      answers: seq<bool>)
    requires WellFormedEvents(events) && ByKey(parts, events, EventKeys(events, KeyOf))
    requires Answered(parts, answers, EventTruth)
    ensures V.AllTrue(answers) <==> Linearizable(KvStore(), EventsHistory(events))
  {
    PartitionEventDecides(events, parts);
    EventsAllTrue(parts);
    forall i | 0 <= i < |parts| ensures answers[i] == EventTruths(parts)[i] {
      assert AnsweredAt(parts, answers, EventTruth, i);
    }
    assert answers == EventTruths(parts);
  }

  /** The whole check with the workers taking turns: partition, search each part, wait for the answers. */
  method CheckEventsInTurn(events: seq<Event<Value<KvInput, KvOutput>>>) returns (ok: bool)
    requires WellFormedEvents(events) && events != []
    ensures ok <==> Linearizable(KvStore(), EventsHistory(events))
    ensures ok <==> Sequential(EventsHistory(events))
  {
    StoreLinearizableIff(EventsHistory(events));
    var parts := PartitionEvent(events);
    SomePart(parts, events, EventKeys(events, KeyOf));
    PartsAreFormed(events, parts);
    TruthJudges();
    var answers := SearchAllEvents(parts, EventTruth);
    AnswersDecide(events, parts, answers);
    ok := AwaitAll(answers);
  }

  /** The entries of each part come from one of the two sorts. */
  ghost predicate Sorted(part: seq<Operation<KvInput, KvOutput>>, es: seq<Entry<Value<KvInput, KvOutput>>>) {
    CallsFirstByTime(part, es) || (TieFree(part) && StablyByTime(part, es))
  }

  lemma SortedSameAnswer(part: seq<Operation<KvInput, KvOutput>>, es: seq<Entry<Value<KvInput, KvOutput>>>)
    requires Proper(part) && Sorted(part, es)
    ensures WellFormed(es) && (Linearizable(KvModel(), OpsHistory(part)) <==> Linearizable(KvModel(), HistoryOf(es)))
  {
    if CallsFirstByTime(part, es) {
      CallsFirstSameAnswer(KvModel(), part, es);
    } else {
      StableKeepsOrderIffTieFree(KvModel(), part, es);
    }
  }

  ghost predicate AllSorted(parts: seq<seq<Operation<KvInput, KvOutput>>>,
                            entries: seq<seq<Entry<Value<KvInput, KvOutput>>>>)
  {
    |entries| == |parts| && forall i :: 0 <= i < |parts| ==> Sorted(parts[i], entries[i])
  }

  /** The question each worker is given, and its true answer: what `CheckSingle` is about. */
  ghost function EntryTruths(entries: seq<seq<Entry<Value<KvInput, KvOutput>>>>): seq<bool> {
    seq(|entries|, i requires 0 <= i < |entries| =>
      WellFormed(entries[i]) && Linearizable(KvModel(), HistoryOf(entries[i])))
  }

  lemma {:induction false} PartIsProper(ops: seq<Operation<KvInput, KvOutput>>, ks: seq<string>, k: string, n: nat)
    requires |ks| == |ops| && n <= |ops| && Proper(ops)
    ensures Proper(Part(ops, ks, k, n))
  {
    if n > 0 { PartIsProper(ops, ks, k, n - 1); }
  }

  lemma {:induction false} PartsAreProper(history: seq<Operation<KvInput, KvOutput>>,
                                          parts: seq<seq<Operation<KvInput, KvOutput>>>)
    requires Proper(history) && ByKey(parts, history, OpKeys(history, KeyOf))
    ensures forall i :: 0 <= i < |parts| ==> Proper(parts[i])
  {
    var keys :| OnePerKey(parts, keys, history, OpKeys(history, KeyOf));
    forall i | 0 <= i < |parts| ensures Proper(parts[i]) {
      PartIsProper(history, OpKeys(history, KeyOf), keys[i], |history|);
    }
  }

  lemma {:induction false} EntriesAllTrue(parts: seq<seq<Operation<KvInput, KvOutput>>>,
                                          entries: seq<seq<Entry<Value<KvInput, KvOutput>>>>)
    requires AllSorted(parts, entries) && forall i :: 0 <= i < |parts| ==> Proper(parts[i])
    ensures V.AllTrue(EntryTruths(entries)) <==> forall i :: 0 <= i < |parts| ==>
              Linearizable(KvModel(), OpsHistory(parts[i]))
  {
    forall i | 0 <= i < |parts| ensures EntryTruths(entries)[i] <==> Linearizable(KvModel(), OpsHistory(parts[i])) {
      SortedSameAnswer(parts[i], entries[i]);
    }
  }

  /** Timed operations in, answer out, under the same promise. */
  lemma {:induction false} CheckOperations(history: seq<Operation<KvInput, KvOutput>>,
                                           parts: seq<seq<Operation<KvInput, KvOutput>>>,
                                           entries: seq<seq<Entry<Value<KvInput, KvOutput>>>>,
                                           style: V.Style, hasTimeout: bool, run: seq<V.State>)
    requires Proper(history) && ByKey(parts, history, OpKeys(history, KeyOf)) && AllSorted(parts, entries)
    requires V.Run(V.Setup(EntryTruths(entries), style, hasTimeout), run) && V.Last(run).loop.outcome.Finished?
    ensures var o := V.Last(run).loop.outcome;
            && (!o.timedOut ==> (o.ok <==> Linearizable(KvStore(), OpsHistory(history))))
            && (!o.ok ==> !Linearizable(KvStore(), OpsHistory(history)))
  {
    PartitionDecides(history, parts);
    V.VerdictIsRight(V.Setup(EntryTruths(entries), style, hasTimeout), run);
    PartsAreProper(history, parts);
    EntriesAllTrue(parts, entries);
  }

  /** No return coincides with a later-listed call of the same key. */
  ghost predicate TieFreeByKey(ops: seq<Operation<KvInput, KvOutput>>) {
    forall a, b :: 0 <= a < b < |ops| && KeyOf(ops[a].input) == KeyOf(ops[b].input) ==> ops[a].finish != ops[b].call
  }

  lemma {:induction false} PartIsTieFree(ops: seq<Operation<KvInput, KvOutput>>, ks: seq<string>, k: string)
    requires TieFreeByKey(ops) && ks == OpKeys(ops, KeyOf)
    ensures TieFree(Part(ops, ks, k, |ops|))
  {
    var part, n := Part(ops, ks, k, |ops|), |ops|;
    PartIs(ops, ks, k, n, 0);
    forall a, b | 0 <= a < b < |part| ensures part[a].finish != part[b].call {
      PartIs(ops, ks, k, n, a);
      PartIs(ops, ks, k, n, b);
      SpotIs(ks, k, n, a);
      SpotIs(ks, k, n, b);
      RankOrder(ks, k, Spots(ks, k, n)[a], Spots(ks, k, n)[b]);
    }
  }

  ghost function OpTruths(parts: seq<seq<Operation<KvInput, KvOutput>>>): seq<bool> {
    seq(|parts|, i requires 0 <= i < |parts| => Linearizable(KvModel(), OpsHistory(parts[i])))
  }

  method SearchAllOperations(parts: seq<seq<Operation<KvInput, KvOutput>>>,
                             sort: seq<Entry<Value<KvInput, KvOutput>>> -> seq<Entry<Value<KvInput, KvOutput>>>)
    returns (answers: seq<bool>)
    requires SortsStably(sort) && forall i :: 0 <= i < |parts| ==> Proper(parts[i])
    ensures |answers| == |parts| && forall i :: 0 <= i < |parts| && TieFree(parts[i]) ==>
              answers[i] == OpTruths(parts)[i]
  {
    KvEqualIsSafe();
    answers := [];
    for i := 0 to |parts|
      invariant |answers| == i && forall j :: 0 <= j < i && TieFree(parts[j]) ==> answers[j] == OpTruths(parts)[j]
    {
      var answer, longest := SearchOperations(KvModel(), parts[i], sort, false, _ => false);
      answers := answers + [answer];
    }
  }

  lemma {:induction false} PartsAreTieFree(history: seq<Operation<KvInput, KvOutput>>,
                                           parts: seq<seq<Operation<KvInput, KvOutput>>>)
    requires TieFreeByKey(history) && ByKey(parts, history, OpKeys(history, KeyOf))
    ensures forall i :: 0 <= i < |parts| ==> TieFree(parts[i])
  {
    var keys :| OnePerKey(parts, keys, history, OpKeys(history, KeyOf));
    forall i | 0 <= i < |parts| ensures TieFree(parts[i]) { PartIsTieFree(history, OpKeys(history, KeyOf), keys[i]); }
  }

  lemma {:induction false} OperationsDecide(history: seq<Operation<KvInput, KvOutput>>,
                                            parts: seq<seq<Operation<KvInput, KvOutput>>>)
    requires Proper(history) && ByKey(parts, history, OpKeys(history, KeyOf))
    ensures V.AllTrue(OpTruths(parts)) <==> Linearizable(KvStore(), OpsHistory(history))
  {
    PartitionDecides(history, parts);
    if V.AllTrue(OpTruths(parts)) {
      forall i | 0 <= i < |parts| ensures Linearizable(KvModel(), OpsHistory(parts[i])) { assert OpTruths(parts)[i]; }
    }
  }

  lemma {:induction false} AnswersAre(history: seq<Operation<KvInput, KvOutput>>,
                                      parts: seq<seq<Operation<KvInput, KvOutput>>>, answers: seq<bool>)
    requires TieFreeByKey(history) && ByKey(parts, history, OpKeys(history, KeyOf))
    requires |answers| == |parts| && forall i :: 0 <= i < |parts| && TieFree(parts[i]) ==>
               answers[i] == OpTruths(parts)[i]
    ensures answers == OpTruths(parts)
  {
    PartsAreTieFree(history, parts);
  }

  /** The whole check of timed operations with the workers taking turns. */
  method CheckOperationsInTurn(history: seq<Operation<KvInput, KvOutput>>,
                               sort: seq<Entry<Value<KvInput, KvOutput>>> -> seq<Entry<Value<KvInput, KvOutput>>>)
    returns (ok: bool)
    requires Proper(history) && history != [] && SortsStably(sort)
    ensures TieFreeByKey(history) ==> (ok <==> Linearizable(KvStore(), OpsHistory(history)))
    ensures TieFreeByKey(history) ==> (ok <==> Sequential(OpsHistory(history)))
  {
    StoreLinearizableIff(OpsHistory(history));
    var parts := Partition(history);
    SomePart(parts, history, OpKeys(history, KeyOf));
    PartsAreProper(history, parts);
    OperationsDecide(history, parts);
    var answers := SearchAllOperations(parts, sort);
    if TieFreeByKey(history) { AnswersAre(history, parts, answers); }
    ok := AwaitAll(answers);
  }
}
