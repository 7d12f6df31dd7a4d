module Verdicts {
  // Checking the parts of a history side by side: one worker per part, a channel of
  // answers, a flag that calls the search off, and the loop that waits.

  /** The two waiting loops: one never computes partial linearizations and leaves the flag alone on a timeout. */
  datatype Style = Quiet | Loud(computeInfo: bool)

  /** What is fixed: the right answer for each part, the kind of loop, and whether a timeout was asked for. */
  datatype Setup = Setup(truths: seq<bool>, style: Style, hasTimeout: bool)

  /**
   A worker searches, and has seen the flag up or not; then its answer is in the channel; then the loop has taken it.
   */
  datatype Worker = Busy(saw: bool) | Sent(ok: bool) | Taken(ok: bool)

  datatype Outcome = Waiting | Finished(ok: bool, timedOut: bool)

  /** What a wait on the channel brings. */
  datatype Reception = Got(ok: bool) | TimedOut

  /** The variables of the waiting loop, and the flag it shares with the workers. */
  datatype Loop = Loop(kill: bool, ok: bool, count: nat, outcome: Outcome)

  datatype State = State(workers: seq<Worker>, loop: Loop)

  const IDLE := Loop(false, true, 0, Waiting)

  function Start(c: Setup): State {
    State(seq(|c.truths|, _ => Busy(false)), IDLE)
  }

  /**
   What a search may answer: never a wrong `true`, and nothing but the truth unless some look at the flag found it up.
   */
  ghost predicate May(truth: bool, saw: bool, ok: bool) {
    (ok ==> truth) && (!saw ==> (ok <==> truth))
  }

  ghost predicate Sends(c: Setup, s: State, i: nat, ok: bool) {
    i < |s.workers| && i < |c.truths| && s.workers[i].Busy? && May(c.truths[i], s.workers[i].saw, ok)
  }

  function AfterSend(s: State, i: nat, ok: bool): State
    requires i < |s.workers|
  {
    s.(workers := s.workers[i := Sent(ok)])
  }

  /** A worker looks at the flag and finds it up; finding it down changes nothing. */
  predicate Notices(s: State, i: nat) {
    i < |s.workers| && s.workers[i] == Busy(false) && s.loop.kill
  }

  function AfterNotice(s: State, i: nat): State
    requires i < |s.workers|
  {
    s.(workers := s.workers[i := Busy(true)])
  }

  /** One turn of the waiting loop. Whether a wrong part ends the wait at once depends on the style. */
  function Receive(style: Style, parts: nat, l: Loop, r: Reception): Loop {
    match r
    case Got(res) =>
      var ok := l.ok && res;
      if !ok && (style.Quiet? || !style.computeInfo) then Loop(true, ok, l.count + 1, Finished(ok, false))
      else if l.count + 1 >= parts then Loop(l.kill, ok, l.count + 1, Finished(ok, false))
      else Loop(l.kill, ok, l.count + 1, Waiting)
    case TimedOut => l.(kill := l.kill || style.Loud?, outcome := Finished(l.ok, true))
  }

  predicate Takes(s: State, i: nat) {
    s.loop.outcome.Waiting? && i < |s.workers| && s.workers[i].Sent?
  }

  /** The loop takes an answer from the channel. */
  function AfterTake(c: Setup, s: State, i: nat): State
    requires Takes(s, i)
  {
    var ok := s.workers[i].ok;
    State(s.workers[i := Taken(ok)], Receive(c.style, |c.truths|, s.loop, Got(ok)))
  }

  predicate GivesUp(c: Setup, s: State) {
    s.loop.outcome.Waiting? && c.hasTimeout
  }

  function AfterTimeout(c: Setup, s: State): State {
    s.(loop := Receive(c.style, |c.truths|, s.loop, TimedOut))
  }

  ghost predicate Next(c: Setup, s: State, t: State) {
    || (exists i, ok :: Sends(c, s, i, ok) && t == AfterSend(s, i, ok))
    || (exists i :: Notices(s, i) && t == AfterNotice(s, i))
    || (exists i :: Takes(s, i) && t == AfterTake(c, s, i))
    || (GivesUp(c, s) && t == AfterTimeout(c, s))
  }

  ghost predicate Run(c: Setup, run: seq<State>) {
    && run != [] && run[0] == Start(c)
    && forall i {:trigger NextAt(c, run, i)} :: 0 <= i < |run| - 1 ==> NextAt(c, run, i)
  }

  ghost predicate NextAt(c: Setup, run: seq<State>, i: nat)
    requires i < |run| - 1
  {
    Next(c, run[i], run[i + 1])
  }

  lemma RunFront(c: Setup, run: seq<State>)
    requires Run(c, run) && |run| > 1
    ensures Run(c, run[..|run| - 1]) && Next(c, run[|run| - 2], run[|run| - 1])
  {
    var front := run[..|run| - 1];
    forall i | 0 <= i < |front| - 1 ensures NextAt(c, front, i) { assert NextAt(c, run, i); }
    assert NextAt(c, run, |run| - 2);
  }

  function Last(run: seq<State>): State
    requires run != []
  {
    run[|run| - 1]
  }

  // ---------------------------------------------------------------- what every state keeps

  ghost predicate AllTrue(truths: seq<bool>) {
    forall i :: 0 <= i < |truths| ==> truths[i]
  }

  ghost function TakenIn(ws: seq<Worker>): nat {
    if ws == [] then 0 else TakenIn(ws[1..]) + if ws[0].Taken? then 1 else 0
  }

  lemma {:induction false} CountsUpdate(ws: seq<Worker>, i: nat, w: Worker)
    requires i < |ws| && !ws[i].Taken?
    ensures TakenIn(ws[i := w]) == TakenIn(ws) + if w.Taken? then 1 else 0
  {
    if i > 0 {
      assert ws[i := w][1..] == ws[1..][i - 1 := w];
      CountsUpdate(ws[1..], i - 1, w);
    }
  }

  lemma {:induction false} AllTaken(ws: seq<Worker>)
    ensures TakenIn(ws) <= |ws|
    ensures TakenIn(ws) == |ws| <==> forall i :: 0 <= i < |ws| ==> ws[i].Taken?
  {
    if ws != [] {
      AllTaken(ws[1..]);
      assert forall i :: 0 < i < |ws| ==> ws[i] == ws[1..][i - 1];
      assert forall i :: 0 <= i < |ws[1..]| ==> ws[1..][i] == ws[i + 1];
    }
  }

  lemma {:induction false} NoneTaken(n: nat)
    ensures TakenIn(seq(n, _ => Busy(false))) == 0
  {
    if n > 0 {
      assert seq(n, _ => Busy(false))[1..] == seq(n - 1, _ => Busy(false));
      NoneTaken(n - 1);
    }
  }

  /**
   While the loop waits the flag is down, so nobody has seen it up and every answer is right; `ok` sums up those
   taken.
   */
  ghost predicate Fair(c: Setup, s: State) {
    && |s.workers| == |c.truths| && !s.loop.kill && s.loop.count == TakenIn(s.workers)
    && (forall i :: 0 <= i < |s.workers| ==> if s.workers[i].Busy? then !s.workers[i].saw
        else s.workers[i].ok == c.truths[i])
    && (s.loop.ok <==> forall i :: 0 <= i < |s.workers| && s.workers[i].Taken? ==> s.workers[i].ok)
  }

  ghost predicate Inv(c: Setup, s: State) {
    && (s.loop.outcome.Waiting? ==> Fair(c, s) && (s.loop.count < |c.truths| || c.truths == []))
    && (s.loop.outcome.Finished? && !s.loop.outcome.timedOut ==> (s.loop.outcome.ok <==> AllTrue(c.truths)))
    && (s.loop.outcome.Finished? && !s.loop.outcome.ok ==> !AllTrue(c.truths))
  }

  lemma {:induction false} SendKeeps(c: Setup, s: State, i: nat, ok: bool)
    requires Inv(c, s) && Sends(c, s, i, ok)
    ensures Inv(c, AfterSend(s, i, ok))
  {
    if s.loop.outcome.Waiting? {
      CountsUpdate(s.workers, i, Sent(ok));
      var t := AfterSend(s, i, ok);
      assert forall j :: 0 <= j < |s.workers| && s.workers[j].Taken? ==> t.workers[j] == s.workers[j];
    }
  }

  lemma {:induction false} TakeKeeps(c: Setup, s: State, i: nat)
    requires Inv(c, s) && Takes(s, i)
    ensures Inv(c, AfterTake(c, s, i))
  {
    var t := AfterTake(c, s, i);
    CountsUpdate(s.workers, i, Taken(s.workers[i].ok));
    AllTaken(t.workers);
    assert t.workers[i].Taken?;
    assert forall j :: 0 <= j < |s.workers| && j != i ==> t.workers[j] == s.workers[j];
    assert t.loop.ok <==> forall j :: 0 <= j < |t.workers| && t.workers[j].Taken? ==> t.workers[j].ok;
  }

  lemma {:induction false} StepKeeps(c: Setup, s: State, t: State)
    requires Inv(c, s) && Next(c, s, t)
    ensures Inv(c, t)
  {
    if i: nat, ok :| Sends(c, s, i, ok) && t == AfterSend(s, i, ok) {
      SendKeeps(c, s, i, ok);
    } else if i: nat :| Takes(s, i) && t == AfterTake(c, s, i) {
      TakeKeeps(c, s, i);
    }
  }

  lemma {:induction false} RunKeeps(c: Setup, run: seq<State>)
    requires Run(c, run)
    ensures Inv(c, Last(run))
  {
    if |run| == 1 {
      NoneTaken(|c.truths|);
    } else {
      RunFront(c, run);
      RunKeeps(c, run[..|run| - 1]);
      StepKeeps(c, run[|run| - 2], run[|run| - 1]);
    }
  }

  // ---------------------------------------------------------------- what the caller is told

  /** An answer reached without a timeout is the conjunction of the parts; one cut short is never a wrong `false`. */
  lemma {:induction false} VerdictIsRight(c: Setup, run: seq<State>)
    requires Run(c, run) && Last(run).loop.outcome.Finished?
    ensures !Last(run).loop.outcome.timedOut ==> (Last(run).loop.outcome.ok <==> AllTrue(c.truths))
    ensures !Last(run).loop.outcome.ok ==> !AllTrue(c.truths)
  {
    RunKeeps(c, run);
  }

  /**
   The flag is down while the loop waits, and up once it has ended with parts left, except after a timeout of the quiet
   kind; it is never raised after a complete and positive answer.  The loop that computes partial linearizations takes
   every part unless it times out, and the others wait for nothing once a part was wrong.
   */
  ghost predicate Flagged(c: Setup, s: State) {
    var (l, left) := (s.loop, |c.truths| - TakenIn(s.workers));
    && |s.workers| == |c.truths| && (l.outcome.Finished? ==> l.ok == l.outcome.ok)
    && (l.outcome.Waiting? ==> !l.kill && (!l.ok ==> c.style == Loud(true)))
    && (l.outcome.Finished? && left > 0 ==> l.kill || (c.style.Quiet? && l.outcome.timedOut))
    && (l.outcome.Finished? && left > 0 && c.style == Loud(true) ==> l.outcome.timedOut)
    && (l.kill ==> l.outcome.Finished? && (l.outcome.timedOut || !l.outcome.ok))
    && (l.outcome.Finished? && l.outcome.timedOut ==> c.hasTimeout)
  }

  lemma {:induction false} FlagTells(c: Setup, run: seq<State>)
    requires Run(c, run)
    ensures Flagged(c, Last(run))
  {
    if |run| == 1 {
      NoneTaken(|c.truths|);
    } else {
      RunFront(c, run);
      var s, t := run[|run| - 2], run[|run| - 1];
      FlagTells(c, run[..|run| - 1]);
      RunKeeps(c, run[..|run| - 1]);
      if i: nat, ok :| Sends(c, s, i, ok) && t == AfterSend(s, i, ok) {
        CountsUpdate(s.workers, i, Sent(ok));
      } else if i: nat :| Notices(s, i) && t == AfterNotice(s, i) {
        CountsUpdate(s.workers, i, Busy(true));
      } else if i: nat :| Takes(s, i) && t == AfterTake(c, s, i) {
        CountsUpdate(s.workers, i, Taken(s.workers[i].ok));
      }
    }
  }

  // ---------------------------------------------------------------- the wait ends

  function Due(w: Worker): nat {
    match w
    case Busy(saw) => if saw then 2 else 3
    case Sent(_) => 1
    case Taken(_) => 0
  }

  ghost function Work(ws: seq<Worker>): nat {
    if ws == [] then 0 else Work(ws[1..]) + Due(ws[0])
  }

  lemma {:induction false} WorkUpdate(ws: seq<Worker>, i: nat, w: Worker)
    requires i < |ws|
    ensures Work(ws[i := w]) + Due(ws[i]) == Work(ws) + Due(w)
  {
    if i > 0 {
      assert ws[i := w][1..] == ws[1..][i - 1 := w];
      WorkUpdate(ws[1..], i - 1, w);
    }
  }

  lemma {:induction false} WorkAtStart(n: nat)
    ensures Work(seq(n, _ => Busy(false))) == 3 * n
  {
    if n > 0 {
      assert seq(n, _ => Busy(false))[1..] == seq(n - 1, _ => Busy(false));
      WorkAtStart(n - 1);
    }
  }

  /** How much is left to do. */
  ghost function Left(s: State): nat {
    Work(s.workers) + if s.loop.outcome.Waiting? then 1 else 0
  }

  lemma {:induction false} StepSpends(c: Setup, s: State, t: State)
    requires Next(c, s, t)
    ensures Left(t) < Left(s)
  {
    if i: nat, ok :| Sends(c, s, i, ok) && t == AfterSend(s, i, ok) {
      WorkUpdate(s.workers, i, Sent(ok));
    } else if i: nat :| Notices(s, i) && t == AfterNotice(s, i) {
      WorkUpdate(s.workers, i, Busy(true));
    } else if i: nat :| Takes(s, i) && t == AfterTake(c, s, i) {
      WorkUpdate(s.workers, i, Taken(s.workers[i].ok));
    }
  }

  /** No run takes more than three steps per part and one more. */
  lemma {:induction false} RunsAreShort(c: Setup, run: seq<State>)
    requires Run(c, run)
    ensures |run| - 1 + Left(Last(run)) <= 3 * |c.truths| + 1
  {
    if |run| == 1 {
      WorkAtStart(|c.truths|);
    } else {
      RunFront(c, run);
      RunsAreShort(c, run[..|run| - 1]);
      StepSpends(c, run[|run| - 2], run[|run| - 1]);
    }
  }

  /** With at least one part the wait never gets stuck: until it is over, some step is possible. */
  lemma {:induction false} NeverStuck(c: Setup, run: seq<State>) returns (t: State)
    requires Run(c, run) && Last(run).loop.outcome.Waiting? && c.truths != []
    ensures Run(c, run + [t])
  {
    var s := Last(run);
    RunKeeps(c, run);
    AllTaken(s.workers);
    var i: nat :| i < |s.workers| && !s.workers[i].Taken?;
    if s.workers[i].Sent? {
      assert Takes(s, i);
      t := AfterTake(c, s, i);
    } else {
      assert Sends(c, s, i, c.truths[i]);
      t := AfterSend(s, i, c.truths[i]);
    }
    assert Next(c, s, t);
    forall j | 0 <= j < |run| ensures NextAt(c, run + [t], j) { assert j < |run| - 1 ==> NextAt(c, run, j); }
  }

  /** With no part at all the wait ends only by giving up; without a timeout it never ends. */
  lemma {:induction false} NothingToWaitFor(c: Setup, run: seq<State>)
    requires Run(c, run) && c.truths == []
    ensures Last(run) == Start(c) || (c.hasTimeout && Last(run) == AfterTimeout(c, Start(c)))
  {
    if |run| > 1 {
      RunFront(c, run);
      NothingToWaitFor(c, run[..|run| - 1]);
      assert Next(c, run[|run| - 2], run[|run| - 1]);
    }
  }

  // ---------------------------------------------------------------- the waiting loop itself

  /** The loop after a number of receptions. */
  ghost function LoopAfter(style: Style, parts: nat, rs: seq<Reception>): Loop {
    if rs == [] then IDLE else Receive(style, parts, LoopAfter(style, parts, rs[..|rs| - 1]), rs[|rs| - 1])
  }

  lemma LoopPush(style: Style, parts: nat, rs: seq<Reception>, r: Reception)
    ensures LoopAfter(style, parts, rs + [r]) == Receive(style, parts, LoopAfter(style, parts, rs), r)
  {
    assert (rs + [r])[..|rs|] == rs;
  }

  /**
   The loop has done exactly what these receptions make it do, and has given up only where a timeout was asked for.
   */
  ghost predicate Explains(c: Setup, loop: Loop, rs: seq<Reception>) {
    loop == LoopAfter(c.style, |c.truths|, rs) && (TimedOut in rs ==> c.hasTimeout)
  }

  /** In every run the loop's state is explained by receptions. */
  lemma {:induction false} LoopOfRun(c: Setup, run: seq<State>)
    requires Run(c, run)
    ensures exists rs :: Explains(c, Last(run).loop, rs)
  {
    if |run| == 1 {
      assert Explains(c, Last(run).loop, []);
    } else {
      RunFront(c, run);
      var s, t := run[|run| - 2], run[|run| - 1];
      LoopOfRun(c, run[..|run| - 1]);
      var rs :| Explains(c, s.loop, rs);
      if t.loop == s.loop {
        assert Explains(c, Last(run).loop, rs);
      } else if i: nat :| Takes(s, i) && t == AfterTake(c, s, i) {
        LoopPush(c.style, |c.truths|, rs, Got(s.workers[i].ok));
        assert Explains(c, Last(run).loop, rs + [Got(s.workers[i].ok)]);
      } else {
        LoopPush(c.style, |c.truths|, rs, TimedOut);
        assert Explains(c, Last(run).loop, rs + [TimedOut]);
      }
    }
  }

  /** The first `n` receptions. */
  ghost function Received(receive: nat -> Reception, n: nat): seq<Reception> {
    seq(n, i requires 0 <= i < n => receive(i))
  }

  /**
   Waits for every part's answer, for the first wrong part, or for a timeout: the loop of a quiet run, reception by
   reception.
   */
  method WaitRes(receive: nat -> Reception, parts: nat) returns (ok: bool, kill: bool, taken: nat)
    requires parts > 0
    ensures taken <= parts && kill == !ok
    ensures ok ==>
      (forall i :: 0 <= i < taken ==> receive(i) == Got(true)) && (taken == parts || receive(taken).TimedOut?)
    ensures !ok ==> taken > 0 && receive(taken - 1) == Got(false) && forall i :: 0 <= i < taken - 1 ==>
              receive(i) == Got(true)
    ensures var timedOut := ok && taken < parts;
            LoopAfter(Quiet, parts, Received(receive, if timedOut then taken + 1 else taken))
              == Loop(kill, ok, taken, Finished(ok, timedOut))
  {
    ok, kill, taken := true, false, 0;
    var count := parts;
    while true
      invariant ok && !kill && taken + count == parts && count > 0
      invariant forall i :: 0 <= i < taken ==> receive(i) == Got(true)
      invariant LoopAfter(Quiet, parts, Received(receive, taken)) == Loop(kill, ok, taken, Waiting)
      decreases count
    {
      assert Received(receive, taken + 1) == Received(receive, taken) + [receive(taken)];
      LoopPush(Quiet, parts, Received(receive, taken), receive(taken));
      match receive(taken) {
        case Got(res) =>
          taken := taken + 1;
          ok := ok && res;
          if !ok {
            kill := true;
            break;
          }
          count := count - 1;
          if count == 0 {
            break;
          }
        case TimedOut => break;
      }
    }
  }
}
