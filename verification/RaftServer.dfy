/**
 One Raft server: what it holds, and what each event does to it.
 */
module RaftServers {

  datatype Role = Follower | Candidate | Leader

  const VOTED_NULL := -1

  datatype Command = Nil | Command(payload: string)

  datatype LogEntry = LogEntry(term: nat, command: Command)

  const FIRST_ENTRY := LogEntry(0, Nil)

  /** What survives a crash. */
  datatype Saved = Saved(term: nat, votedFor: int, log: seq<LogEntry>)

  datatype Peer = Peer(me: nat, peers: nat, term: nat, votedFor: int, log: seq<LogEntry>, role: Role, voteCount: nat,
                       commitIndex: nat, nextIndex: seq<int>, matchIndex: seq<int>, saved: Saved)

  /** The log has its dummy first entry, and a leader has an index for every peer. */
  predicate Sound(s: Peer) {
    && s.log != [] && s.saved.log != [] && s.me < s.peers
    && (s.role.Leader? ==> |s.nextIndex| == |s.matchIndex| == s.peers)
  }

  const FRESH := Peer(0, 1, 0, VOTED_NULL, [FIRST_ENTRY], Follower, 0, 0, [], [], Saved(0, VOTED_NULL, [FIRST_ENTRY]))

  type Server = s: Peer | Sound(s) witness FRESH

  datatype VoteArgs = VoteArgs(term: nat, candidate: nat, lastLogIndex: nat, lastLogTerm: nat)

  datatype VoteReply = VoteReply(term: nat, granted: bool)

  datatype AppendArgs = AppendArgs(term: nat, leader: nat, prevLogIndex: nat, prevLogTerm: nat, entries: seq<LogEntry>,
                                   leaderCommit: nat)

  datatype AppendReply = AppendReply(term: nat, success: bool, conflictIndex: int, conflictTerm: int)

  // ---------------------------------------------------------------- pieces

  function LastIndex(log: seq<LogEntry>): nat
    requires log != []
  {
    |log| - 1
  }

  function LastTerm(log: seq<LogEntry>): nat
    requires log != []
  {
    log[|log| - 1].term
  }

  function Min(a: nat, b: nat): nat {
    if a < b then a else b
  }

  /** A log at least as new as ours: a later last term, or the same one and no fewer entries. */
  predicate IsLogUpdated(log: seq<LogEntry>, index: nat, term: nat)
    requires log != []
  {
    if term == LastTerm(log) then index >= LastIndex(log) else term > LastTerm(log)
  }

  function Persist(s: Server): Server {
    s.(saved := Saved(s.term, s.votedFor, s.log))
  }

  function StepDown(s: Server, term: nat): Server {
    s.(term := term, role := Follower, votedFor := VOTED_NULL)
  }

  /** A server that starts, or starts again, from what was saved. */
  function Restart(me: nat, peers: nat, saved: Saved): Server
    requires me < peers && saved.log != []
  {
    Peer(me, peers, saved.term, saved.votedFor, saved.log, Follower, 0, 0, [], [], saved)
  }

  // ---------------------------------------------------------------- elections

  function ElectSelf(s: Server): Server {
    Persist(s.(role := Candidate, term := s.term + 1, votedFor := s.me, voteCount := 1))
  }

  function Ballot(s: Server): VoteArgs {
    VoteArgs(s.term, s.me, LastIndex(s.log), LastTerm(s.log))
  }

  function RequestVote(s: Server, args: VoteArgs): (Server, VoteReply) {
    if args.term < s.term then (Persist(s), VoteReply(s.term, false))
    else
      var u := if args.term > s.term then StepDown(s, args.term) else s;
      if (u.votedFor == VOTED_NULL || u.votedFor == args.candidate)
         && IsLogUpdated(u.log, args.lastLogIndex, args.lastLogTerm)
      then (Persist(u.(votedFor := args.candidate)), VoteReply(u.term, true))
      else (Persist(u), VoteReply(u.term, false))
  }

  /** The candidate's side of a vote; also whether it signals that the election is won. */
  function VoteReturned(s: Server, args: VoteArgs, reply: VoteReply): (Server, bool) {
    if !s.role.Candidate? || args.term != s.term || reply.term < s.term then (s, false)
    else if reply.term > s.term then (Persist(StepDown(s, args.term)), false)
    else if reply.granted then (s.(voteCount := s.voteCount + 1), s.voteCount + 1 == s.peers / 2 + 1)
    else (s, false)
  }

  function BecomeLeader(s: Server): Server {
    if !s.role.Candidate? then s
    else s.(role := Leader, nextIndex := seq(s.peers, _ => LastIndex(s.log) + 1), matchIndex := seq(s.peers, _ => 0))
  }

  // ---------------------------------------------------------------- replication

  function StartCommand(s: Server, command: Command): Server {
    if !s.role.Leader? then s else Persist(s.(log := s.log + [LogEntry(s.term, command)]))
  }

  predicate CanSendTo(s: Server, server: nat) {
    s.role.Leader? && server < s.peers && 1 <= s.nextIndex[server] <= |s.log|
  }

  function AppendFor(s: Server, server: nat): AppendArgs
    requires CanSendTo(s, server)
  {
    var next := s.nextIndex[server];
    AppendArgs(s.term, s.me, next - 1, s.log[next - 1].term, s.log[next..], s.commitIndex)
  }

  /** How many of the entries agree in term with the log from position `at` on. */
  function Agreeing(log: seq<LogEntry>, at: nat, entries: seq<LogEntry>): (k: nat)
    ensures k <= |entries| && (at <= |log| ==> at + k <= |log|)
    decreases |entries|
  {
    if entries == [] || at >= |log| || log[at].term != entries[0].term then 0
       else 1 + Agreeing(log, at + 1, entries[1..])
  }

  /** The log once the entries have been laid over it after position `prev`. */
  function Merged(log: seq<LogEntry>, prev: nat, entries: seq<LogEntry>): (r: seq<LogEntry>)
    requires prev < |log|
    ensures r != []
  {
    var k := Agreeing(log, prev + 1, entries);
    log[..prev + 1 + k] + entries[k..]
  }

  /** The first index of the stretch of equal terms that ends at `i`. */
  function StretchStart(log: seq<LogEntry>, i: nat): (r: nat)
    requires i < |log|
    ensures r <= i && log[r].term == log[i].term && (r > 0 ==> log[r - 1].term != log[i].term)
    ensures forall j :: r <= j <= i ==> log[j].term == log[i].term
  {
    if i > 0 && log[i - 1].term == log[i].term then StretchStart(log, i - 1) else i
  }

  function ProcessAppend(s: Server, args: AppendArgs): (Server, AppendReply) {
    if args.term < s.term then (Persist(s), AppendReply(s.term, false, -1, -1))
    else
      var u := if args.term > s.term then StepDown(s, args.term) else s;
      if args.prevLogIndex > LastIndex(u.log) then (Persist(u), AppendReply(u.term, false, LastIndex(u.log) + 1, -1))
      else if u.log[args.prevLogIndex].term != args.prevLogTerm then
        (Persist(u), AppendReply(u.term, true, StretchStart(u.log, args.prevLogIndex), u.log[args.prevLogIndex].term))
      else
        var log := Merged(u.log, args.prevLogIndex, args.entries);
        var commit := if args.leaderCommit > u.commitIndex then Min(args.leaderCommit, LastIndex(log))
                      else u.commitIndex;
        (Persist(u.(log := log, commitIndex := commit)), AppendReply(u.term, true, -1, -1))
  }

  /** Where a delivered append is laid over the log. */
  predicate Fits(s: Server, args: AppendArgs) {
    args.term >= s.term && args.prevLogIndex < |s.log| && s.log[args.prevLogIndex].term == args.prevLogTerm
  }

  /** The last index below `n` that holds `term`, or -1. */
  function LastOfTerm(log: seq<LogEntry>, term: int, n: nat): (r: int)
    requires n <= |log|
    ensures -1 <= r < n && (r >= 0 ==> log[r].term == term) && forall j :: r < j < n ==> log[j].term != term
  {
    if n == 0 then -1 else if log[n - 1].term == term then n - 1 else LastOfTerm(log, term, n - 1)
  }

  /** The indices kept for a peer after its answer to `args` in our own term. */
  function Indices(s: Server, server: nat, args: AppendArgs, reply: AppendReply): (int, int)
    requires s.role.Leader? && server < s.peers
  {
    if reply.success then
      var sent := args.prevLogIndex + |args.entries|;
      var match' := if sent > s.matchIndex[server] then sent else s.matchIndex[server];
      (match' + 1, match')
    else if reply.conflictTerm < 0 then (reply.conflictIndex, reply.conflictIndex - 1)
    else
      var next := LastOfTerm(s.log, reply.conflictTerm, |s.log|);
      if next < 0 then (reply.conflictIndex, reply.conflictIndex - 1) else (next, next - 1)
  }

  /** How many of the first `n` peers other than `me` are known to hold index `at`. */
  function Holding(matchIndex: seq<int>, me: nat, at: nat, n: nat): nat
    requires n <= |matchIndex|
  {
    if n == 0 then 0
    else Holding(matchIndex, me, at, n - 1) + if n - 1 != me && matchIndex[n - 1] >= at then 1 else 0
  }

  /** Index `at` is of the current term and held by a majority, the leader included. */
  predicate Replicated(s: Server, at: nat)
    requires s.role.Leader? && at < |s.log|
  {
    1 + (if s.log[at].term == s.term then Holding(s.matchIndex, s.me, at, s.peers) else 0) > s.peers / 2
  }

  /** The highest replicated index from `n - 1` down to the commit index; the commit index if there is none. */
  function Committed(s: Server, n: nat): (r: nat)
    requires s.role.Leader? && n <= |s.log|
    ensures r == s.commitIndex || (s.commitIndex <= r < n && Replicated(s, r))
    ensures forall j :: s.commitIndex <= j < n && r < j ==> !Replicated(s, j)
  {
    if n == 0 || n - 1 < s.commitIndex then s.commitIndex else if Replicated(s, n - 1) then n - 1
       else Committed(s, n - 1)
  }

  /**
   The leader's side of an append. `adopt` is whether it moves to the newer term it is told of, or stays in its own.
   */
  function AppendReturned(s: Server, server: nat, args: AppendArgs, reply: AppendReply, adopt: bool): Server
    requires server < s.peers
  {
    if !s.role.Leader? || args.term != s.term || reply.term < s.term then Persist(s)
    else if reply.term > s.term then Persist(StepDown(s, if adopt then reply.term else args.term))
    else
      var (next, match') := Indices(s, server, args, reply);
      var u := s.(nextIndex := s.nextIndex[server := next], matchIndex := s.matchIndex[server := match']);
      Persist(u.(commitIndex := Committed(u, |u.log|)))
  }
}
