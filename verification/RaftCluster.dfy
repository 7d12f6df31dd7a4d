module RaftClusters {
  // A cluster of Raft servers and a network that loses, delays and reorders
  // messages.  A vote is asked for and answered at most once; an append and its
  // answer may even arrive any number of times.

  import opened RaftServers

  /** A vote that was asked for, and one on its way back. */
  datatype VoteRpc = Asked(voter: nat, args: VoteArgs) | Answered(voter: nat, args: VoteArgs, reply: VoteReply)

  datatype AppendCall = AppendCall(to: nat, args: AppendArgs)

  datatype AppendAnswer = AppendAnswer(call: AppendCall, reply: AppendReply)

  /** `won[i]`: server i's ticker has taken the signal of a won election and not acted on it yet. */
  datatype Cluster = Cluster(servers: seq<Server>, won: seq<bool>, votes: set<VoteRpc>, appends: set<AppendCall>,
                             answers: set<AppendAnswer>)

  datatype Step =
    | ElectionTimeout(i: nat)
    | VoteArrives(m: VoteRpc)
    | VoteComesBack(m: VoteRpc, heard: bool)
    | Wins(i: nat)
    | Sends(i: nat, to: nat)
    | Starts(i: nat, command: Command)
    | AppendArrives(call: AppendCall)
    | AppendComesBack(answer: AppendAnswer)
    | Crashes(i: nat)

  predicate Sized(c: Cluster) {
    && |c.won| == |c.servers|
    && forall i :: 0 <= i < |c.servers| ==> c.servers[i].me == i && c.servers[i].peers == |c.servers|
  }

  function Boot(n: nat): Cluster {
    Cluster(seq(n, i requires 0 <= i < n => Restart(i, n, Saved(0, VOTED_NULL, [FIRST_ENTRY]))), seq(n, _ => false),
            {}, {}, {})
  }

  /** The requests a candidate broadcasts. */
  function Broadcast(s: Server): set<VoteRpc> {
    set v: nat | v < s.peers && v != s.me :: Asked(v, Ballot(s))
  }

  predicate Enabled(c: Cluster, step: Step) {
    Sized(c) &&
    match step
    case ElectionTimeout(i) => i < |c.servers| && !c.servers[i].role.Leader? && !c.won[i]
    case VoteArrives(m) => m in c.votes && m.Asked? && m.voter < |c.servers|
    case VoteComesBack(m, _) => m in c.votes && m.Answered? && m.args.candidate < |c.servers|
    case Wins(i) => i < |c.servers| && c.won[i]
    case Sends(i, to) => i < |c.servers| && to != i && CanSendTo(c.servers[i], to)
    case Starts(i, _) => i < |c.servers|
    case AppendArrives(call) => call in c.appends && call.to < |c.servers|
    case AppendComesBack(answer) => answer in c.answers && answer.call.args.leader < |c.servers|
                                    && answer.call.to < |c.servers|
    case Crashes(i) => i < |c.servers|
  }

  function WithServer(c: Cluster, i: nat, s: Server): Cluster
    requires i < |c.servers|
  {
    c.(servers := c.servers[i := s])
  }

  /** `adopt`: whether a leader told of a newer term moves to it (see AppendReturned). */
  function After(c: Cluster, step: Step, adopt: bool): Cluster
    requires Enabled(c, step)
  {
    match step
    case ElectionTimeout(i) =>
      var s := ElectSelf(c.servers[i]);
      WithServer(c, i, s).(votes := c.votes + Broadcast(s))
    case VoteArrives(m) =>
      var (s, reply) := RequestVote(c.servers[m.voter], m.args);
      WithServer(c, m.voter, s).(votes := c.votes - {m} + {Answered(m.voter, m.args, reply)})
    case VoteComesBack(m, heard) =>
      var i := m.args.candidate;
      var (s, signal) := VoteReturned(c.servers[i], m.args, m.reply);
      WithServer(c, i, s).(votes := c.votes - {m}, won := if signal && heard then c.won[i := true] else c.won)
    case Wins(i) => WithServer(c, i, BecomeLeader(c.servers[i])).(won := c.won[i := false])
    case Sends(i, to) => c.(appends := c.appends + {AppendCall(to, AppendFor(c.servers[i], to))})
    case Starts(i, command) => WithServer(c, i, StartCommand(c.servers[i], command))
    case AppendArrives(call) =>
      var (s, reply) := ProcessAppend(c.servers[call.to], call.args);
      WithServer(c, call.to, s).(answers := c.answers + {AppendAnswer(call, reply)})
    case AppendComesBack(answer) =>
      var i := answer.call.args.leader;
      WithServer(c, i, AppendReturned(c.servers[i], answer.call.to, answer.call.args, answer.reply, adopt))
    case Crashes(i) =>
      WithServer(c, i, Restart(i, |c.servers|, c.servers[i].saved)).(won := c.won[i := false])
  }

  ghost predicate Next(adopt: bool, c: Cluster, d: Cluster) {
    exists step :: Enabled(c, step) && d == After(c, step, adopt)
  }

  ghost predicate Run(n: nat, adopt: bool, run: seq<Cluster>) {
    && run != [] && run[0] == Boot(n)
    && forall i {:trigger NextAt(adopt, run, i)} :: 0 <= i < |run| - 1 ==> NextAt(adopt, run, i)
  }

  ghost predicate NextAt(adopt: bool, run: seq<Cluster>, i: nat)
    requires i < |run| - 1
  {
    Next(adopt, run[i], run[i + 1])
  }

  lemma RunFront(n: nat, adopt: bool, run: seq<Cluster>)
    requires Run(n, adopt, run) && |run| > 1
    ensures Run(n, adopt, run[..|run| - 1]) && Next(adopt, run[|run| - 2], run[|run| - 1])
  {
    var front := run[..|run| - 1];
    forall i | 0 <= i < |front| - 1 ensures NextAt(adopt, front, i) { assert NextAt(adopt, run, i); }
    assert NextAt(adopt, run, |run| - 2);
  }

  lemma RunPrefix(n: nat, adopt: bool, run: seq<Cluster>, k: nat)
    requires Run(n, adopt, run) && 0 < k <= |run|
    ensures Run(n, adopt, run[..k])
  {
    var front := run[..k];
    forall i | 0 <= i < |front| - 1 ensures NextAt(adopt, front, i) { assert NextAt(adopt, run, i); }
  }

  function Last(run: seq<Cluster>): Cluster
    requires run != []
  {
    run[|run| - 1]
  }

  // ---------------------------------------------------------------- runs that avoid some branches

  /** The answer tells a leader, about an append of its own term, of a newer term. */
  predicate IsNews(s: Server, x: AppendAnswer) {
    s.role.Leader? && x.call.args.term == s.term && x.reply.term > s.term
  }

  /** The follower's previous entry is not the one named, and it answers success. */
  predicate Clashes(s: Server, args: AppendArgs) {
    args.term >= s.term && args.prevLogIndex < |s.log| && s.log[args.prevLogIndex].term != args.prevLogTerm
  }

  /** The append fits and agrees in all its entries, and what the log has beyond them is cut. */
  predicate Cuts(s: Server, args: AppendArgs) {
    Fits(s, args) && EndsShort(s.log, args)
  }

  predicate EndsShort(log: seq<LogEntry>, args: AppendArgs) {
    && args.prevLogIndex + 1 + |args.entries| < |log|
    && Agreeing(log, args.prevLogIndex + 1, args.entries) == |args.entries|
  }

  /** Whether a newer term is adopted, and which of the three branches are never taken. */
  datatype Watch = Watch(adopt: bool, news: bool, conflict: bool, cut: bool)

  const AS_WRITTEN := Watch(false, false, false, false)

  predicate Heeds(w: Watch, c: Cluster, step: Step)
    requires Enabled(c, step)
  {
    match step
    case AppendArrives(a) =>
      (w.conflict ==> !Clashes(c.servers[a.to], a.args)) && (w.cut ==> !Cuts(c.servers[a.to], a.args))
    case AppendComesBack(x) => w.news ==> !IsNews(c.servers[x.call.args.leader], x)
    case _ => true
  }

  ghost predicate WatchedRun(n: nat, w: Watch, run: seq<Cluster>) {
    && run != [] && run[0] == Boot(n)
    && forall i {:trigger WatchedAt(w, run, i)} :: 0 <= i < |run| - 1 ==> WatchedAt(w, run, i)
  }

  ghost predicate WatchedAt(w: Watch, run: seq<Cluster>, i: nat)
    requires i < |run| - 1
  {
    exists step :: Enabled(run[i], step) && Heeds(w, run[i], step) && run[i + 1] == After(run[i], step, w.adopt)
  }

  lemma WatchedIsRun(n: nat, w: Watch, run: seq<Cluster>)
    requires WatchedRun(n, w, run)
    ensures Run(n, w.adopt, run)
  {
    forall i | 0 <= i < |run| - 1 ensures NextAt(w.adopt, run, i) { assert WatchedAt(w, run, i); }
  }

  lemma WatchedPush(n: nat, w: Watch, run: seq<Cluster>, step: Step)
    requires WatchedRun(n, w, run) && Enabled(Last(run), step) && Heeds(w, Last(run), step)
    ensures WatchedRun(n, w, run + [After(Last(run), step, w.adopt)])
  {
    var longer := run + [After(Last(run), step, w.adopt)];
    forall i | 0 <= i < |longer| - 1 ensures WatchedAt(w, longer, i) {
      if i < |run| - 1 {
        assert WatchedAt(w, run, i) && longer[i] == run[i] && longer[i + 1] == run[i + 1];
      } else {
        assert longer[i] == Last(run);
      }
    }
  }

  lemma WatchedFront(n: nat, w: Watch, run: seq<Cluster>)
    requires WatchedRun(n, w, run) && |run| > 1
    ensures WatchedRun(n, w, run[..|run| - 1]) && WatchedAt(w, run, |run| - 2)
  {
    var front := run[..|run| - 1];
    forall i | 0 <= i < |front| - 1 ensures WatchedAt(w, front, i) { assert WatchedAt(w, run, i); }
  }

  lemma WatchedPrefix(n: nat, w: Watch, run: seq<Cluster>, k: nat)
    requires WatchedRun(n, w, run) && 0 < k <= |run|
    ensures WatchedRun(n, w, run[..k])
  {
    var front := run[..k];
    forall i | 0 <= i < |front| - 1 ensures WatchedAt(w, front, i) { assert WatchedAt(w, run, i); }
  }

  // ---------------------------------------------------------------- what committing is for

  ghost predicate Commits(s: Server, k: nat) {
    k <= s.commitIndex && k < |s.log|
  }

  /** Server i at moment p and server j at moment q have both committed index k. */
  ghost predicate BothCommit(run: seq<Cluster>, p: nat, i: nat, q: nat, j: nat, k: nat) {
    && p < |run| && q < |run| && i < |run[p].servers| && j < |run[q].servers|
    && Commits(run[p].servers[i], k) && Commits(run[q].servers[j], k)
  }

  /** State machine safety: whatever is committed at an index, by anyone and at any time, is the same entry. */
  ghost predicate CommitsAgree(run: seq<Cluster>) {
    forall p: nat, i: nat, q: nat, j: nat, k: nat ::
      BothCommit(run, p, i, q, j, k) ==> run[p].servers[i].log[k] == run[q].servers[j].log[k]
  }
}
