module CoordinatorRuns {
  // What holds of the coordinator over any run of calls, told from the calls alone.

  import opened Coordinators

  datatype Call = Call(args: TaskArgs, now: int)

  /** A run: what it was made for, the calls, the boards in between and the replies. */
  datatype Job = Job(files: seq<string>, nReduce: nat, calls: seq<Call>, boards: seq<Board>, replies: seq<TaskReply>)

  ghost predicate CallAt(job: Job, i: nat)
    requires i < |job.calls| == |job.replies| && |job.boards| == |job.calls| + 1
  {
    Proper(job.boards[i], job.calls[i].args)
      && (job.boards[i + 1], job.replies[i]) == Turn(job.boards[i], job.calls[i].args, job.calls[i].now)
  }

  ghost predicate Run(job: Job) {
    && |job.boards| == |job.calls| + 1 && |job.replies| == |job.calls| && job.boards[0] == Made(job.files, job.nReduce)
    && forall i {:trigger CallAt(job, i)} :: 0 <= i < |job.calls| ==> CallAt(job, i)
  }

  // ---------------------------------------------------------------- the history

  predicate Reports(call: Call, status: Status, id: nat) {
    call.args.status == status && call.args.workerId == id
  }

  /** One of the first `n` calls reports it as done. */
  ghost predicate Heard(calls: seq<Call>, n: nat, status: Status, id: nat)
    requires n <= |calls|
  {
    exists i :: 0 <= i < n && Reports(calls[i], status, id)
  }

  /** The names that reduce task `r` should have: those of the first report of each map task, in order of arrival. */
  ghost function Names(calls: seq<Call>, n: nat, r: nat): seq<string>
    requires n <= |calls|
  {
    if n == 0 then []
    else
      var args := calls[n - 1].args;
      var isFirst := args.status.Map? && !Heard(calls, n - 1, Map, args.workerId);
      Names(calls, n - 1, r) + if isFirst then Name(args.completed, r) else []
  }

  lemma HeardMore(calls: seq<Call>, n: nat, status: Status, id: nat)
    requires n < |calls|
    ensures Heard(calls, n + 1, status, id) <==> Heard(calls, n, status, id) || Reports(calls[n], status, id)
  {
    if Heard(calls, n, status, id) {
      var i :| 0 <= i < n && Reports(calls[i], status, id);
      assert 0 <= i < n + 1;
    }
    if Reports(calls[n], status, id) { assert 0 <= n < n + 1; }
  }

  predicate MapOpen(t: MapTask) {
    !t.isDone
  }

  predicate ReduceOpen(t: ReduceTask) {
    !t.isDone
  }

  /** How many of the tasks are open. */
  ghost function Left<T>(tasks: seq<T>, open: T -> bool): nat {
    if tasks == [] then 0 else Left(tasks[1..], open) + if open(tasks[0]) then 1 else 0
  }

  lemma {:induction false} LeftUpdate<T>(tasks: seq<T>, open: T -> bool, i: nat, t: T)
    requires i < |tasks|
    ensures Left(tasks[i := t], open)
            == Left(tasks, open) + (if open(t) then 1 else 0) - (if open(tasks[i]) then 1 else 0)
  {
    if i > 0 {
      assert tasks[i := t][1..] == tasks[1..][i - 1 := t];
      LeftUpdate(tasks[1..], open, i - 1, t);
    }
  }

  lemma {:induction false} SameLeft<T>(a: seq<T>, b: seq<T>, open: T -> bool)
    requires |a| == |b| && forall r :: 0 <= r < |a| ==> open(a[r]) == open(b[r])
    ensures Left(a, open) == Left(b, open)
  {
    if a != [] {
      forall r | 0 <= r < |a[1..]| ensures open(a[1..][r]) == open(b[1..][r]) {
        assert a[1..][r] == a[r + 1] && b[1..][r] == b[r + 1];
      }
      SameLeft(a[1..], b[1..], open);
    }
  }

  lemma {:induction false} NoneLeft<T>(tasks: seq<T>, open: T -> bool)
    ensures Left(tasks, open) == 0 <==> forall i :: 0 <= i < |tasks| ==> !open(tasks[i])
  {
    if tasks != [] {
      NoneLeft(tasks[1..], open);
      assert forall i :: 0 < i < |tasks| ==> tasks[i] == tasks[1..][i - 1];
      assert forall i :: 0 <= i < |tasks[1..]| ==> tasks[1..][i] == tasks[i + 1];
    }
  }

  lemma {:induction false} AllLeft<T>(tasks: seq<T>, open: T -> bool)
    requires forall i :: 0 <= i < |tasks| ==> open(tasks[i])
    ensures Left(tasks, open) == |tasks|
  {
    if tasks != [] { AllLeft(tasks[1..], open); }
  }

  // ---------------------------------------------------------------- what every board keeps

  ghost predicate MapOk(b: Board, calls: seq<Call>, n: nat, files: seq<string>, i: nat)
    requires n <= |calls| && i < |b.maps| == |files|
  {
    b.maps[i].id == i && b.maps[i].file == files[i] && (b.maps[i].isDone <==> Heard(calls, n, Map, i))
  }

  ghost predicate ReduceOk(b: Board, calls: seq<Call>, n: nat, r: nat)
    requires n <= |calls| && r < |b.reduces|
  {
    b.reduces[r].id == r && (b.reduces[r].isDone <==> Heard(calls, n, Reduce, r))
      && b.reduces[r].files == Names(calls, n, r)
  }

  /** Everything on the board follows from the first `n` calls; the counters count the unfinished tasks. */
  ghost predicate BoardOk(b: Board, calls: seq<Call>, n: nat, files: seq<string>, nReduce: nat)
    requires n <= |calls|
  {
    && |b.maps| == |files| && |b.reduces| == nReduce
    && b.mapLeft == Left(b.maps, MapOpen) && b.reduceLeft == Left(b.reduces, ReduceOpen)
    && (forall i {:trigger MapOk(b, calls, n, files, i)} :: 0 <= i < |b.maps| ==> MapOk(b, calls, n, files, i))
    && (forall r {:trigger ReduceOk(b, calls, n, r)} :: 0 <= r < |b.reduces| ==> ReduceOk(b, calls, n, r))
  }

  lemma {:induction false} MapReportKeeps(b: Board, calls: seq<Call>, n: nat, files: seq<string>, nReduce: nat)
    requires n < |calls| && BoardOk(b, calls, n, files, nReduce)
    requires Proper(b, calls[n].args) && calls[n].args.status.Map?
    ensures BoardOk(Reported(b, calls[n].args), calls, n + 1, files, nReduce)
  {
    var args := calls[n].args;
    var d, id, m := Reported(b, args), args.workerId, n + 1;
    assert MapOk(b, calls, n, files, id);
    if !b.maps[id].isDone { LeftUpdate(b.maps, MapOpen, id, d.maps[id]); }
    assert args.completed[..|args.completed|] == args.completed;
    SameLeft(b.reduces, d.reduces, ReduceOpen);
    forall i | 0 <= i < |d.maps| ensures MapOk(d, calls, m, files, i) {
      assert MapOk(b, calls, n, files, i);
      HeardMore(calls, n, Map, i);
    }
    forall r | 0 <= r < |d.reduces| ensures ReduceOk(d, calls, m, r) {
      assert ReduceOk(b, calls, n, r);
      HeardMore(calls, n, Reduce, r);
      assert b.reduces[r].files + [] == b.reduces[r].files;
    }
  }

  lemma {:induction false} OtherReportKeeps(b: Board, calls: seq<Call>, n: nat, files: seq<string>, nReduce: nat)
    requires n < |calls| && BoardOk(b, calls, n, files, nReduce)
    requires Proper(b, calls[n].args) && !calls[n].args.status.Map?
    ensures BoardOk(Reported(b, calls[n].args), calls, n + 1, files, nReduce)
  {
    var args := calls[n].args;
    var d, id, m := Reported(b, args), args.workerId, n + 1;
    if args.status.Reduce? && !b.reduces[id].isDone { LeftUpdate(b.reduces, ReduceOpen, id, d.reduces[id]); }
    forall i | 0 <= i < |d.maps| ensures MapOk(d, calls, m, files, i) {
      assert MapOk(b, calls, n, files, i);
      HeardMore(calls, n, Map, i);
    }
    forall r | 0 <= r < |d.reduces| ensures ReduceOk(d, calls, m, r) {
      assert ReduceOk(b, calls, n, r);
      HeardMore(calls, n, Reduce, r);
      assert b.reduces[r].files + [] == b.reduces[r].files;
    }
  }

  lemma {:induction false} AssignKeeps(b: Board, calls: seq<Call>, n: nat, files: seq<string>, nReduce: nat, now: int)
    requires n <= |calls| && BoardOk(b, calls, n, files, nReduce)
    ensures BoardOk(Assigned(b, now).0, calls, n, files, nReduce)
  {
    var d := Assigned(b, now).0;
    var i, r := NextDue(b.maps, MapDue(now), 0), NextDue(b.reduces, ReduceDue(now), 0);
    if b.mapLeft > 0 && i < |b.maps| { LeftUpdate(b.maps, MapOpen, i, d.maps[i]); }
    if b.mapLeft <= 0 && b.reduceLeft > 0 && r < |b.reduces| { LeftUpdate(b.reduces, ReduceOpen, r, d.reduces[r]); }
    forall j | 0 <= j < |d.maps| ensures MapOk(d, calls, n, files, j) { assert MapOk(b, calls, n, files, j); }
    forall j | 0 <= j < |d.reduces| ensures ReduceOk(d, calls, n, j) { assert ReduceOk(b, calls, n, j); }
  }

  lemma {:induction false} MadeIsOk(calls: seq<Call>, files: seq<string>, nReduce: nat)
    ensures BoardOk(Made(files, nReduce), calls, 0, files, nReduce)
  {
    var b := Made(files, nReduce);
    AllLeft(b.maps, MapOpen);
    AllLeft(b.reduces, ReduceOpen);
    forall i | 0 <= i < |b.maps| ensures MapOk(b, calls, 0, files, i) { }
    forall r | 0 <= r < |b.reduces| ensures ReduceOk(b, calls, 0, r) { }
  }

  lemma {:induction false} ReportKeeps(job: Job, n: nat)
    requires Run(job) && n < |job.calls| && BoardOk(job.boards[n], job.calls, n, job.files, job.nReduce)
    ensures CallAt(job, n)
    ensures BoardOk(Reported(job.boards[n], job.calls[n].args), job.calls, n + 1, job.files, job.nReduce)
  {
    assert CallAt(job, n);
    if job.calls[n].args.status.Map? {
      MapReportKeeps(job.boards[n], job.calls, n, job.files, job.nReduce);
    } else {
      OtherReportKeeps(job.boards[n], job.calls, n, job.files, job.nReduce);
    }
  }

  /**
   At every point of every run: done means reported, the lists hold each first report once, the counters are right.
   */
  lemma {:induction false} BooksAreRight(job: Job, n: nat)
    requires Run(job) && n <= |job.calls|
    ensures BoardOk(job.boards[n], job.calls, n, job.files, job.nReduce)
  {
    if n == 0 {
      MadeIsOk(job.calls, job.files, job.nReduce);
    } else {
      BooksAreRight(job, n - 1);
      ReportKeeps(job, n - 1);
      AssignKeeps(Reported(job.boards[n - 1], job.calls[n - 1].args), job.calls, n, job.files, job.nReduce,
                  job.calls[n - 1].now);
    }
  }

  // ---------------------------------------------------------------- what the workers can rely on

  ghost predicate AllHeard(calls: seq<Call>, n: nat, status: Status, count: nat)
    requires n <= |calls|
  {
    forall i :: 0 <= i < count ==> Heard(calls, n, status, i)
  }

  lemma {:induction false} CountersTell(b: Board, calls: seq<Call>, n: nat, files: seq<string>, nReduce: nat)
    requires n <= |calls| && BoardOk(b, calls, n, files, nReduce)
    ensures b.mapLeft == 0 <==> AllHeard(calls, n, Map, |files|)
    ensures b.reduceLeft == 0 <==> AllHeard(calls, n, Reduce, nReduce)
  {
    NoneLeft(b.maps, MapOpen);
    NoneLeft(b.reduces, ReduceOpen);
    forall j | 0 <= j < |b.maps| ensures b.maps[j].isDone <==> Heard(calls, n, Map, j) {
      assert MapOk(b, calls, n, files, j);
    }
    forall j | 0 <= j < |b.reduces| ensures b.reduces[j].isDone <==> Heard(calls, n, Reduce, j) {
      assert ReduceOk(b, calls, n, j);
    }
  }

  /** The job counts as done exactly when every task of both kinds has been reported, and from then on. */
  lemma {:induction false} DoneIffAllReported(job: Job, n: nat)
    requires Run(job) && n <= |job.calls|
    ensures Finished(job.boards[n]) <==>
      AllHeard(job.calls, n, Map, |job.files|) && AllHeard(job.calls, n, Reduce, job.nReduce)
    ensures Finished(job.boards[n]) ==> forall m :: n <= m <= |job.calls| ==> Finished(job.boards[m])
  {
    BooksAreRight(job, n);
    CountersTell(job.boards[n], job.calls, n, job.files, job.nReduce);
    forall m | Finished(job.boards[n]) && n <= m <= |job.calls| ensures Finished(job.boards[m]) {
      BooksAreRight(job, m);
      CountersTell(job.boards[m], job.calls, m, job.files, job.nReduce);
      AllHeardLater(job.calls, n, m, Map, |job.files|);
      AllHeardLater(job.calls, n, m, Reduce, job.nReduce);
    }
  }

  lemma AllHeardLater(calls: seq<Call>, i: nat, n: nat, status: Status, count: nat)
    requires i <= n <= |calls| && AllHeard(calls, i, status, count)
    ensures AllHeard(calls, n, status, count)
  {
    forall id | 0 <= id < count ensures Heard(calls, n, status, id) { HeardLater(calls, i, n, status, id); }
  }

  /** The state in which call `i` is answered, and what it says about the run so far. */
  lemma {:induction false} AnsweredFrom(job: Job, i: nat) returns (b: Board)
    requires Run(job) && i < |job.calls|
    ensures BoardOk(b, job.calls, i + 1, job.files, job.nReduce)
    ensures (job.boards[i + 1], job.replies[i]) == Assigned(b, job.calls[i].now)
    ensures CallAt(job, i) && b == Reported(job.boards[i], job.calls[i].args)
    ensures b.mapLeft == 0 <==> AllHeard(job.calls, i + 1, Map, |job.files|)
    ensures b.reduceLeft == 0 <==> AllHeard(job.calls, i + 1, Reduce, job.nReduce)
  {
    BooksAreRight(job, i);
    ReportKeeps(job, i);
    b := Reported(job.boards[i], job.calls[i].args);
    CountersTell(b, job.calls, i + 1, job.files, job.nReduce);
  }

  /** A worker is told to exit exactly when every task of both kinds has been reported. */
  lemma {:induction false} ExitIffAllReported(job: Job, i: nat)
    requires Run(job) && i < |job.calls|
    ensures job.replies[i].status.Exit? <==>
      AllHeard(job.calls, i + 1, Map, |job.files|) && AllHeard(job.calls, i + 1, Reduce, job.nReduce)
  {
    var b := AnsweredFrom(job, i);
  }

  /**
   A map task is handed out only while it is unreported; so is a reduce task, and only once every map task is
   reported. Any other answer carries nothing.
   */
  lemma {:induction false} HandedOutWhenDue(job: Job, i: nat)
    requires Run(job) && i < |job.calls|
    ensures var (reply, calls) := (job.replies[i], job.calls);
            && (reply.status.Map? ==> reply.workerId < |job.files| && !Heard(calls, i + 1, Map, reply.workerId)
                                      && reply.impending == [job.files[reply.workerId]] && reply.nReduce == job.nReduce)
            && (reply.status.Reduce? ==> reply.workerId < job.nReduce && !Heard(calls, i + 1, Reduce, reply.workerId)
                                         && AllHeard(calls, i + 1, Map, |job.files|)
                                         && reply.impending == Names(calls, i + 1, reply.workerId)
                                         && reply.nReduce == 0)
            && (!reply.status.Map? && !reply.status.Reduce? ==> reply == TaskReply(0, reply.status, [], 0))
  {
    var b := AnsweredFrom(job, i);
    var m, r := NextDue(b.maps, MapDue(job.calls[i].now), 0), NextDue(b.reduces, ReduceDue(job.calls[i].now), 0);
    assert m < |b.maps| ==> MapOk(b, job.calls, i + 1, job.files, m);
    assert r < |b.reduces| ==> ReduceOk(b, job.calls, i + 1, r);
  }

  /** Once every map task is reported, nothing a worker sends changes what a reduce task is to read. */
  lemma {:induction false} ListsAreFrozen(job: Job, i: nat, n: nat, r: nat)
    requires Run(job) && i <= n <= |job.calls| && AllHeard(job.calls, i, Map, |job.files|)
    ensures Names(job.calls, n, r) == Names(job.calls, i, r)
    decreases n
  {
    if i < n {
      ListsAreFrozen(job, i, n - 1, r);
      assert CallAt(job, n - 1);
      BooksAreRight(job, n - 1);
      var args := job.calls[n - 1].args;
      if args.status.Map? {
        assert Heard(job.calls, i, Map, args.workerId);
        HeardLater(job.calls, i, n - 1, Map, args.workerId);
      }
    }
  }

  lemma HeardLater(calls: seq<Call>, i: nat, n: nat, status: Status, id: nat)
    requires i <= n <= |calls| && Heard(calls, i, status, id)
    ensures Heard(calls, n, status, id)
  {
    var j :| 0 <= j < i && Reports(calls[j], status, id);
    assert 0 <= j < n;
  }

  /** What a reduce worker is given is final: its list at the end of any longer run is the same. */
  lemma {:induction false} ReduceInputIsFinal(job: Job, i: nat, n: nat)
    requires Run(job) && i < n <= |job.calls| && job.replies[i].status.Reduce?
    ensures var r := job.replies[i].workerId;
            r < |job.boards[n].reduces| && job.boards[n].reduces[r].files == job.replies[i].impending
  {
    HandedOutWhenDue(job, i);
    ListsAreFrozen(job, i + 1, n, job.replies[i].workerId);
    BooksAreRight(job, n);
    assert ReduceOk(job.boards[n], job.calls, n, job.replies[i].workerId);
  }

  // ---------------------------------------------------------------- leases

  /** The board remembers a start no earlier than that of any lease of it so far. */
  ghost predicate LeaseOk(job: Job, i: nat, n: nat)
    requires i < |job.calls| == |job.replies| && n < |job.boards|
  {
    var (reply, b) := (job.replies[i], job.boards[n]);
    && (reply.status.Map? ==> reply.workerId < |b.maps| && b.maps[reply.workerId].startAt.At?
                              && b.maps[reply.workerId].startAt.time >= job.calls[i].now)
    && (reply.status.Reduce? ==> reply.workerId < |b.reduces| && b.reduces[reply.workerId].startAt.At?
                                 && b.reduces[reply.workerId].startAt.time >= job.calls[i].now)
  }

  /** Start times on the board only move forward, and by more than a lease. */
  ghost predicate Moves(s: Start, t: Start) {
    t == s || (t.At? && (s.Never? || s.time < t.time - LEASE))
  }

  lemma {:induction false} StartsMove(job: Job, n: nat)
    requires Run(job) && n < |job.calls|
    ensures |job.boards[n].maps| == |job.boards[n + 1].maps| && |job.boards[n].reduces| == |job.boards[n + 1].reduces|
    ensures forall i :: 0 <= i < |job.boards[n].maps| ==>
              Moves(job.boards[n].maps[i].startAt, job.boards[n + 1].maps[i].startAt)
    ensures forall r :: 0 <= r < |job.boards[n].reduces| ==>
              Moves(job.boards[n].reduces[r].startAt, job.boards[n + 1].reduces[r].startAt)
  {
    assert CallAt(job, n);
    ReportKeepsStarts(job.boards[n], job.calls[n].args);
  }

  lemma ReportKeepsStarts(b: Board, args: TaskArgs)
    requires Proper(b, args)
    ensures var d := Reported(b, args);
            && |d.maps| == |b.maps| && |d.reduces| == |b.reduces|
            && (forall i :: 0 <= i < |b.maps| ==> d.maps[i].startAt == b.maps[i].startAt)
            && (forall r :: 0 <= r < |b.reduces| ==> d.reduces[r].startAt == b.reduces[r].startAt)
  {
  }

  lemma {:induction false} LeasedNow(job: Job, n: nat)
    requires Run(job) && n < |job.calls|
    ensures LeaseOk(job, n, n + 1)
    ensures var (reply, b) := (job.replies[n], job.boards[n]);
            && (reply.status.Map? ==>
                  reply.workerId < |b.maps| && Overdue(b.maps[reply.workerId].startAt, job.calls[n].now))
            && (reply.status.Reduce? ==>
                  reply.workerId < |b.reduces| && Overdue(b.reduces[reply.workerId].startAt, job.calls[n].now))
  {
    var b := AnsweredFrom(job, n);
    ReportKeepsStarts(job.boards[n], job.calls[n].args);
    var m, r := NextDue(b.maps, MapDue(job.calls[n].now), 0), NextDue(b.reduces, ReduceDue(job.calls[n].now), 0);
    assert m < |b.maps| ==> MapOk(b, job.calls, n + 1, job.files, m);
    assert r < |b.reduces| ==> ReduceOk(b, job.calls, n + 1, r);
  }

  lemma {:induction false} LeasesRemembered(job: Job, i: nat, n: nat)
    requires Run(job) && i < n <= |job.calls|
    ensures LeaseOk(job, i, n)
    decreases n
  {
    if n == i + 1 {
      LeasedNow(job, i);
    } else {
      LeasesRemembered(job, i, n - 1);
      StartsMove(job, n - 1);
    }
  }

  /** Two workers are given the same task more than ten seconds apart, whatever the clock does in between. */
  lemma {:induction false} LeasesAreApart(job: Job, i: nat, j: nat)
    requires Run(job) && i < j < |job.calls|
    requires job.replies[i].status == job.replies[j].status
    requires (job.replies[i].status.Map? || job.replies[i].status.Reduce?)
    requires job.replies[i].workerId == job.replies[j].workerId
    ensures job.calls[j].now > job.calls[i].now + 10 * 1000000000
  {
    LeasesRemembered(job, i, j);
    LeasedNow(job, j);
  }

  // ---------------------------------------------------------------- exactly what each worker is told

  /** Reply j hands this one out. */
  ghost predicate HandsOut(job: Job, j: nat, kind: Status, id: nat)
    requires j < |job.replies|
  {
    job.replies[j].status == kind && job.replies[j].workerId == id
  }

  /** At call i somebody has been given this one no more than ten seconds before. */
  ghost predicate Out(job: Job, i: nat, kind: Status, id: nat)
    requires i < |job.calls| == |job.replies|
  {
    exists j :: 0 <= j < i && HandsOut(job, j, kind, id) && job.calls[j].now >= job.calls[i].now - 10 * 1000000000
  }

  /** The task is neither reported by then nor with anybody. */
  ghost predicate Open(job: Job, i: nat, kind: Status, id: nat)
    requires i < |job.calls| == |job.replies|
  {
    !Heard(job.calls, i + 1, kind, id) && !Out(job, i, kind, id)
  }

  /** A start on the board is the time of the reply that handed it out. */
  ghost predicate Traced(job: Job, n: nat, kind: Status, id: nat, start: Start)
    requires n <= |job.calls| == |job.replies|
  {
    start.At? ==> exists j :: 0 <= j < n && HandsOut(job, j, kind, id) && job.calls[j].now == start.time
  }

  lemma TracedOn(job: Job, n: nat, kind: Status, id: nat, start: Start)
    requires n < |job.calls| == |job.replies| && Traced(job, n, kind, id, start)
    ensures Traced(job, n + 1, kind, id, start)
  {
  }

  lemma {:induction false} StartsAreTraced(job: Job, n: nat)
    requires Run(job) && n <= |job.calls|
    ensures forall m :: 0 <= m < |job.boards[n].maps| ==> Traced(job, n, Map, m, job.boards[n].maps[m].startAt)
    ensures forall r :: 0 <= r < |job.boards[n].reduces| ==> Traced(job, n, Reduce, r, job.boards[n].reduces[r].startAt)
  {
    if n > 0 {
      var k := n - 1;
      StartsAreTraced(job, k);
      var b := AnsweredFrom(job, k);
      ReportKeepsStarts(job.boards[k], job.calls[k].args);
      var d := job.boards[n];
      forall m | 0 <= m < |d.maps| ensures Traced(job, n, Map, m, d.maps[m].startAt) {
        assert MapOk(b, job.calls, n, job.files, m);
        if d.maps[m].startAt == b.maps[m].startAt {
          TracedOn(job, k, Map, m, d.maps[m].startAt);
        } else {
          assert HandsOut(job, k, Map, m);
        }
      }
      forall r | 0 <= r < |d.reduces| ensures Traced(job, n, Reduce, r, d.reduces[r].startAt) {
        assert ReduceOk(b, job.calls, n, r);
        if d.reduces[r].startAt == b.reduces[r].startAt {
          TracedOn(job, k, Reduce, r, d.reduces[r].startAt);
        } else {
          assert HandsOut(job, k, Reduce, r);
        }
      }
    }
  }

  /** The board knows who is out. */
  lemma {:induction false} OverdueIffNotOut(job: Job, i: nat)
    requires Run(job) && i < |job.calls|
    ensures forall m :: 0 <= m < |job.boards[i].maps| ==>
              (Overdue(job.boards[i].maps[m].startAt, job.calls[i].now) <==> !Out(job, i, Map, m))
    ensures forall r :: 0 <= r < |job.boards[i].reduces| ==>
              (Overdue(job.boards[i].reduces[r].startAt, job.calls[i].now) <==> !Out(job, i, Reduce, r))
  {
    StartsAreTraced(job, i);
    forall j | 0 <= j < i ensures LeaseOk(job, j, i) { LeasesRemembered(job, j, i); }
    var b := job.boards[i];
    forall m | 0 <= m < |b.maps| ensures Overdue(b.maps[m].startAt, job.calls[i].now) <==> !Out(job, i, Map, m) {
      assert Traced(job, i, Map, m, b.maps[m].startAt);
      if Out(job, i, Map, m) {
        var j :| 0 <= j < i && HandsOut(job, j, Map, m) && job.calls[j].now >= job.calls[i].now - 10 * 1000000000;
        assert LeaseOk(job, j, i);
      }
    }
    forall r | 0 <= r < |b.reduces|
      ensures Overdue(b.reduces[r].startAt, job.calls[i].now) <==> !Out(job, i, Reduce, r)
    {
      assert Traced(job, i, Reduce, r, b.reduces[r].startAt);
      if Out(job, i, Reduce, r) {
        var j :| 0 <= j < i && HandsOut(job, j, Reduce, r) && job.calls[j].now >= job.calls[i].now - 10 * 1000000000;
        assert LeaseOk(job, j, i);
      }
    }
  }

  /** The reply gives out the first open one of so many tasks of a kind, or sends to sleep if there is none. */
  ghost predicate FirstOpen(job: Job, i: nat, kind: Status, count: nat)
    requires i < |job.calls| == |job.replies|
  {
    var reply := job.replies[i];
    || (reply.status.Sleep? && forall id :: 0 <= id < count ==> !Open(job, i, kind, id))
    || (&& reply.status == kind && reply.workerId < count && Open(job, i, kind, reply.workerId)
        && forall id :: 0 <= id < reply.workerId ==> !Open(job, i, kind, id))
  }

  /**
   From calls and replies alone: a worker gets the first map task that is neither reported nor out, and sleeps exactly
   when there is none; once all map tasks are reported the same with reduce tasks; and it exits once these are too.
   */
  lemma {:induction false} ToldExactly(job: Job, i: nat)
    requires Run(job) && i < |job.calls|
    ensures if !AllHeard(job.calls, i + 1, Map, |job.files|) then FirstOpen(job, i, Map, |job.files|)
            else if !AllHeard(job.calls, i + 1, Reduce, job.nReduce) then FirstOpen(job, i, Reduce, job.nReduce)
            else job.replies[i].status.Exit?
  {
    var b := AnsweredFrom(job, i);
    var n, now := i + 1, job.calls[i].now;
    OverdueIffNotOut(job, i);
    ReportKeepsStarts(job.boards[i], job.calls[i].args);
    forall m | 0 <= m < |b.maps| ensures MapDue(now)(b.maps[m]) <==> Open(job, i, Map, m) {
      assert MapOk(b, job.calls, n, job.files, m);
    }
    forall r | 0 <= r < |b.reduces| ensures ReduceDue(now)(b.reduces[r]) <==> Open(job, i, Reduce, r) {
      assert ReduceOk(b, job.calls, n, r);
    }
    var m, r := NextDue(b.maps, MapDue(now), 0), NextDue(b.reduces, ReduceDue(now), 0);
    assert m < |b.maps| ==> MapOk(b, job.calls, n, job.files, m);
    assert r < |b.reduces| ==> ReduceOk(b, job.calls, n, r);
  }
}
