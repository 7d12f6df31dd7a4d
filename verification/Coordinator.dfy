module Coordinators {
  // The MapReduce coordinator: workers report what they have done and are told what
  // to do next.  Reports may be late, repeated, or about a task that was given to
  // somebody else in the meantime.

  datatype Status = Idle | Working | Done | Map | Reduce | Sleep | Exit | Nothing

  /** When a task was last handed out. */
  datatype Start = Never | At(time: int)

  datatype MapTask = MapTask(id: nat, file: string, startAt: Start, isDone: bool)

  datatype ReduceTask = ReduceTask(id: nat, files: seq<string>, startAt: Start, isDone: bool)

  datatype TaskArgs = TaskArgs(workerId: nat, status: Status, completed: seq<string>)

  datatype TaskReply = TaskReply(workerId: nat, status: Status, impending: seq<string>, nReduce: nat)

  datatype Board = Board(maps: seq<MapTask>, reduces: seq<ReduceTask>, mapLeft: int, reduceLeft: int)

  /** Ten seconds, in nanoseconds. */
  const LEASE := 10 * 1000000000

  const BLANK := TaskReply(0, Idle, [], 0)

  // ---------------------------------------------------------------- one call

  /** The report names a task there is, and names a file only for a reduce task there is. */
  predicate Proper(b: Board, args: TaskArgs) {
    match args.status
    case Map => args.workerId < |b.maps| && forall r :: 0 <= r < |args.completed| && args.completed[r] != "" ==>
                  r < |b.reduces|
    case Reduce => args.workerId < |b.reduces|
    case _ => true
  }

  /** The name a report has for reduce task `r`, if any. */
  function Name(completed: seq<string>, r: nat): seq<string> {
    if r < |completed| && completed[r] != "" then [completed[r]] else []
  }

  function Deliver(reduces: seq<ReduceTask>, completed: seq<string>, n: nat): seq<ReduceTask>
    requires n <= |completed|
  {
    seq(|reduces|, r requires 0 <= r < |reduces| => reduces[r].(files := reduces[r].files + Name(completed[..n], r)))
  }

  function Reported(b: Board, args: TaskArgs): Board
    requires Proper(b, args)
  {
    match args.status
    case Map =>
      if b.maps[args.workerId].isDone then b
      else Board(b.maps[args.workerId := b.maps[args.workerId].(isDone := true)],
                 Deliver(b.reduces, args.completed, |args.completed|),
                 b.mapLeft - 1, b.reduceLeft)
    case Reduce =>
      if b.reduces[args.workerId].isDone then b
      else Board(b.maps, b.reduces[args.workerId := b.reduces[args.workerId].(isDone := true)], b.mapLeft,
                 b.reduceLeft - 1)
    case _ => b
  }

  /** A task nobody has, or that was handed out more than ten seconds ago. */
  predicate Overdue(startAt: Start, now: int) {
    startAt.Never? || startAt.time < now - LEASE
  }

  function MapDue(now: int): MapTask -> bool {
    (t: MapTask) => !t.isDone && Overdue(t.startAt, now)
  }

  function ReduceDue(now: int): ReduceTask -> bool {
    (t: ReduceTask) => !t.isDone && Overdue(t.startAt, now)
  }

  /** The first task from `i` on that is due, or the number of tasks. */
  function NextDue<T>(tasks: seq<T>, due: T -> bool, i: nat): (r: nat)
    requires i <= |tasks|
    ensures i <= r <= |tasks| && (r < |tasks| ==> due(tasks[r]))
    ensures forall j :: i <= j < r ==> !due(tasks[j])
    decreases |tasks| - i
  {
    if i == |tasks| || due(tasks[i]) then i else NextDue(tasks, due, i + 1)
  }

  function Assigned(b: Board, now: int): (Board, TaskReply) {
    if b.mapLeft > 0 then
      var i := NextDue(b.maps, MapDue(now), 0);
      if i == |b.maps| then (b, BLANK.(status := Sleep))
      else (b.(maps := b.maps[i := b.maps[i].(startAt := At(now))]),
            TaskReply(b.maps[i].id, Map, [b.maps[i].file], |b.reduces|))
    else if b.reduceLeft > 0 then
      var i := NextDue(b.reduces, ReduceDue(now), 0);
      if i == |b.reduces| then (b, BLANK.(status := Sleep))
      else (b.(reduces := b.reduces[i := b.reduces[i].(startAt := At(now))]),
            TaskReply(b.reduces[i].id, Reduce, b.reduces[i].files, 0))
    else (b, BLANK.(status := Exit))
  }

  function Turn(b: Board, args: TaskArgs, now: int): (Board, TaskReply)
    requires Proper(b, args)
  {
    Assigned(Reported(b, args), now)
  }

  function Made(files: seq<string>, nReduce: nat): Board {
    Board(seq(|files|, i requires 0 <= i < |files| => MapTask(i, files[i], Never, false)),
          seq(nReduce, i requires 0 <= i < nReduce => ReduceTask(i, [], Never, false)), |files|, nReduce)
  }

  predicate Finished(b: Board) {
    b.mapLeft == 0 && b.reduceLeft == 0
  }

  // ---------------------------------------------------------------- the coordinator as an object

  class Coordinator {
    var mapTasks: seq<MapTask>
    var reduceTasks: seq<ReduceTask>
    var mapLeft: int
    var reduceLeft: int

    ghost function View(): Board
      reads this
    {
      Board(mapTasks, reduceTasks, mapLeft, reduceLeft)
    }

    constructor (files: seq<string>, nReduce: nat)
      requires files != []
      ensures View() == Made(files, nReduce)
    {
      mapTasks := seq(|files|, i requires 0 <= i < |files| => MapTask(i, files[i], Never, false));
      reduceTasks := seq(nReduce, i requires 0 <= i < nReduce => ReduceTask(i, [], Never, false));
      mapLeft, reduceLeft := |files|, nReduce;
    }

    method IsDone() returns (done: bool)
      ensures done == Finished(View())
    {
      done := mapLeft == 0 && reduceLeft == 0;
    }

    method GetTask(args: TaskArgs, now: int) returns (reply: TaskReply)
      requires Proper(View(), args)
      modifies this
      ensures (View(), reply) == Turn(old(View()), args, now)
    {
      Report(args);
      reply := Assign(now);
    }

    method Report(args: TaskArgs)
      requires Proper(View(), args)
      modifies this
      ensures View() == Reported(old(View()), args)
    {
      match args.status {
        case Map =>
          if !mapTasks[args.workerId].isDone {
            mapTasks := mapTasks[args.workerId := mapTasks[args.workerId].(isDone := true)];
            ghost var before := reduceTasks;
            DeliverNone(before, args.completed);
            for id := 0 to |args.completed|
              modifies this`reduceTasks
              invariant reduceTasks == Deliver(before, args.completed, id)
            {
              if |args.completed[id]| > 0 {
                var files := reduceTasks[id].files + [args.completed[id]];
                reduceTasks := reduceTasks[id := reduceTasks[id].(files := files)];
              }
              DeliverMore(before, args.completed, id);
            }
            mapLeft := mapLeft - 1;
          }
        case Reduce =>
          if !reduceTasks[args.workerId].isDone {
            reduceTasks := reduceTasks[args.workerId := reduceTasks[args.workerId].(isDone := true)];
            reduceLeft := reduceLeft - 1;
          }
        case _ =>
      }
    }

    method Assign(now: int) returns (reply: TaskReply)
      modifies this
      ensures (View(), reply) == Assigned(old(View()), now)
    {
      reply := BLANK;
      if mapLeft > 0 {
        for i := 0 to |mapTasks|
          invariant mapTasks == old(mapTasks) && reply == BLANK
          invariant NextDue(mapTasks, MapDue(now), 0) == NextDue(mapTasks, MapDue(now), i)
        {
          var task := mapTasks[i];
          if task.isDone { continue; }
          if Overdue(task.startAt, now) {
            reply := TaskReply(task.id, Map, [task.file], |reduceTasks|);
            mapTasks := mapTasks[i := task.(startAt := At(now))];
            return;
          }
        }
        reply := reply.(status := Sleep);
      } else if reduceLeft > 0 {
        for i := 0 to |reduceTasks|
          invariant reduceTasks == old(reduceTasks) && reply == BLANK
          invariant NextDue(reduceTasks, ReduceDue(now), 0) == NextDue(reduceTasks, ReduceDue(now), i)
        {
          var task := reduceTasks[i];
          if task.isDone { continue; }
          if Overdue(task.startAt, now) {
            reply := reply.(impending := task.files, workerId := task.id, status := Reduce);
            reduceTasks := reduceTasks[i := task.(startAt := At(now))];
            return;
          }
        }
        reply := reply.(status := Sleep);
      } else {
        reply := reply.(status := Exit);
      }
    }
  }

  lemma DeliverNone(reduces: seq<ReduceTask>, completed: seq<string>)
    ensures Deliver(reduces, completed, 0) == reduces
  {
    forall r | 0 <= r < |reduces| ensures Deliver(reduces, completed, 0)[r] == reduces[r] {
      assert reduces[r].files + [] == reduces[r].files;
    }
  }

  lemma DeliverMore(reduces: seq<ReduceTask>, completed: seq<string>, n: nat)
    requires n < |completed| && (completed[n] != "" ==> n < |reduces|)
    ensures completed[n] == "" ==> Deliver(reduces, completed, n + 1) == Deliver(reduces, completed, n)
    ensures completed[n] != "" ==>
              var before := Deliver(reduces, completed, n);
              Deliver(reduces, completed, n + 1) == before[n := before[n].(files := before[n].files + [completed[n]])]
  {
    var before, after := Deliver(reduces, completed, n), Deliver(reduces, completed, n + 1);
    forall r | 0 <= r < |reduces| && r != n ensures after[r] == before[r] {
      assert Name(completed[..n + 1], r) == Name(completed[..n], r);
    }
    if n < |reduces| {
      assert Name(completed[..n], n) == [] && Name(completed[..n + 1], n) == Name(completed, n);
      assert reduces[n].files + [] == reduces[n].files;
    }
  }
}
