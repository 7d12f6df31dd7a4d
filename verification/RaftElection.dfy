module RaftElections {
  // Election safety: in every reachable state no two servers are leaders of the same
  // term.  The proof keeps track of who has granted votes to whom; it survives the
  // resets of the vote inside a term because only a candidate or a leader is reset
  // that way, and neither has granted a vote to anybody else in its term.

  import opened RaftServers
  import opened RaftClusters
  import Histories

  datatype Grant = Grant(term: nat, voter: nat, candidate: nat)

  /** What has happened so far: every vote granted to another server, and the votes each candidate has counted. */
  datatype Tally = Tally(grants: set<Grant>, voters: seq<set<nat>>)

  // ---------------------------------------------------------------- the invariant

  ghost predicate GrantOk(c: Cluster, g: Grant) {
    && g.voter < |c.servers| && g.candidate < |c.servers| && g.voter != g.candidate
    && var s := c.servers[g.voter];
       g.term <= s.term && (g.term == s.term ==> s.votedFor == g.candidate && s.role.Follower?)
  }

  ghost predicate Grants(c: Cluster, h: Tally) {
    forall g {:trigger GrantOk(c, g)} :: g in h.grants ==> GrantOk(c, g)
  }

  /** A server grants at most one other candidate in a term. */
  ghost predicate OneGrant(h: Tally) {
    forall g, g' :: g in h.grants && g' in h.grants && g.term == g'.term && g.voter == g'.voter ==> g == g'
  }

  ghost predicate Counted(h: Tally, i: nat, term: nat)
    requires i < |h.voters|
  {
    forall v :: v in h.voters[i] ==> v != i && Grant(term, v, i) in h.grants
  }

  ghost predicate ServerOk(c: Cluster, h: Tally, i: nat)
    requires i < |c.servers| == |c.won| == |h.voters|
  {
    var s := c.servers[i];
    && s.saved == Saved(s.term, s.votedFor, s.log)
    && (!s.role.Follower? ==> s.term > 0 && s.votedFor == i && Counted(h, i, s.term))
    && (s.role.Candidate? ==> s.voteCount == 1 + |h.voters[i]|)
    && (s.role.Leader? || (s.role.Candidate? && c.won[i]) ==> 1 + |h.voters[i]| > |c.servers| / 2)
  }

  ghost predicate Servers(c: Cluster, h: Tally) {
    |c.servers| == |c.won| == |h.voters| &&
    forall i {:trigger ServerOk(c, h, i)} :: 0 <= i < |c.servers| ==> ServerOk(c, h, i)
  }

  /** A vote in the network belongs to a candidacy no later than the candidate's term and has not been counted yet. */
  ghost predicate RpcOk(c: Cluster, h: Tally, m: VoteRpc)
    requires |c.servers| == |h.voters|
  {
    && m.args.candidate < |c.servers| && m.voter < |c.servers| && m.voter != m.args.candidate
    && var s := c.servers[m.args.candidate];
       m.args.term <= s.term
       && (m.args.term == s.term && s.role.Candidate? ==> m.voter !in h.voters[m.args.candidate])
       && (m.Answered? && m.reply.granted ==>
             m.reply.term == m.args.term && Grant(m.args.term, m.voter, m.args.candidate) in h.grants)
  }

  ghost predicate Rpcs(c: Cluster, h: Tally)
    requires |c.servers| == |h.voters|
  {
    forall m {:trigger RpcOk(c, h, m)} :: m in c.votes ==> RpcOk(c, h, m)
  }

  ghost predicate SameBallot(m: VoteRpc, m': VoteRpc) {
    m.voter == m'.voter && m.args.candidate == m'.args.candidate && m.args.term == m'.args.term
  }

  /** One ballot, one message: asked for or answered, never both, never twice. */
  ghost predicate OneRpc(votes: set<VoteRpc>) {
    forall m, m' {:trigger SameBallot(m, m')} :: m in votes && m' in votes && SameBallot(m, m') ==> m == m'
  }

  ghost predicate Inv(c: Cluster, h: Tally) {
    Sized(c) && Servers(c, h) && Grants(c, h) && OneGrant(h) && Rpcs(c, h) && OneRpc(c.votes)
  }

  // ---------------------------------------------------------------- changes of one server

  /** The server stays in its term, keeps its vote unless it was a candidate or leader, and at most steps down. */
  ghost predicate Settles(s: Server, t: Server) {
    && t.me == s.me && t.peers == s.peers && t.term == s.term && t.saved == Saved(t.term, t.votedFor, t.log)
    && (t.role == s.role || t.role.Follower?)
    && (s.role.Follower? || !t.role.Follower? ==> t.votedFor == s.votedFor)
    && (t.role.Candidate? ==> t.voteCount == s.voteCount)
  }

  /** The server moves to a later term as a follower. */
  ghost predicate MovesOn(s: Server, t: Server) {
    t.me == s.me && t.peers == s.peers && t.term > s.term && t.saved == Saved(t.term, t.votedFor, t.log)
      && t.role.Follower?
  }

  lemma {:induction false} SettlingKeeps(c: Cluster, d: Cluster, h: Tally, i: nat, t: Server)
    requires Inv(c, h) && i < |c.servers| && (Settles(c.servers[i], t) || MovesOn(c.servers[i], t))
    requires d.servers == c.servers[i := t] && d.votes == c.votes && (d.won == c.won || d.won == c.won[i := false])
    ensures Inv(d, h)
  {
    forall g | g in h.grants ensures GrantOk(d, g) { assert GrantOk(c, g); }
    forall j | 0 <= j < |d.servers| ensures ServerOk(d, h, j) { assert ServerOk(c, h, j); }
    forall m | m in d.votes ensures RpcOk(d, h, m) { assert RpcOk(c, h, m); }
  }

  // ---------------------------------------------------------------- becoming a candidate

  ghost function Nominated(h: Tally, i: nat): Tally
    requires i < |h.voters|
  {
    h.(voters := h.voters[i := {}])
  }

  lemma {:induction false} ElectionKeeps(c: Cluster, h: Tally, i: nat)
    requires Inv(c, h) && Enabled(c, ElectionTimeout(i))
    ensures Inv(After(c, ElectionTimeout(i), false), Nominated(h, i))
  {
    var d, h', s := After(c, ElectionTimeout(i), false), Nominated(h, i), ElectSelf(c.servers[i]);
    forall g | g in h'.grants ensures GrantOk(d, g) { assert GrantOk(c, g); }
    forall j | 0 <= j < |d.servers| ensures ServerOk(d, h', j) { assert ServerOk(c, h, j); }
    forall m | m in d.votes ensures RpcOk(d, h', m) {
      assert m in c.votes ==> RpcOk(c, h, m);
    }
    forall m, m' | m in d.votes && m' in d.votes && SameBallot(m, m') ensures m == m' {
      assert m in c.votes ==> RpcOk(c, h, m);
      assert m' in c.votes ==> RpcOk(c, h, m');
    }
  }

  // ---------------------------------------------------------------- a vote is granted or refused

  ghost function Voted(c: Cluster, h: Tally, m: VoteRpc): Tally
    requires Enabled(c, VoteArrives(m))
  {
    if RequestVote(c.servers[m.voter], m.args).1.granted
    then h.(grants := h.grants + {Grant(m.args.term, m.voter, m.args.candidate)})
    else h
  }

  /** What the voter does: refuse and settle or move on, or grant as a follower in the candidate's term. */
  lemma VoterActs(s: Server, args: VoteArgs, i: nat)
    requires s.me == i && args.candidate != i && (!s.role.Follower? ==> s.votedFor == i)
    requires s.saved == Saved(s.term, s.votedFor, s.log)
    ensures var (t, reply) := RequestVote(s, args);
            && t.saved == Saved(t.term, t.votedFor, t.log) && t.me == s.me && t.peers == s.peers
            && (!reply.granted ==> Settles(s, t) || MovesOn(s, t))
            && (reply.granted ==>
                  && t.role.Follower? && t.term == args.term == reply.term >= s.term && t.votedFor == args.candidate
                  && (args.term == s.term ==>
                        s.role.Follower? && (s.votedFor == VOTED_NULL || s.votedFor == args.candidate)))
  {
  }

  lemma {:induction false} GrantKeeps(c: Cluster, h: Tally, m: VoteRpc)
    requires Inv(c, h) && Enabled(c, VoteArrives(m)) && RequestVote(c.servers[m.voter], m.args).1.granted
    ensures Inv(After(c, VoteArrives(m), false), Voted(c, h, m))
  {
    var d, h' := After(c, VoteArrives(m), false), Voted(c, h, m);
    assert RpcOk(c, h, m) && ServerOk(c, h, m.voter);
    VoterActs(c.servers[m.voter], m.args, m.voter);
    var added := Grant(m.args.term, m.voter, m.args.candidate);
    forall g | g in h'.grants ensures GrantOk(d, g) { assert g != added ==> GrantOk(c, g); }
    forall g, g' | g in h'.grants && g' in h'.grants && g.term == g'.term && g.voter == g'.voter ensures g == g' {
      assert g != added ==> GrantOk(c, g);
      assert g' != added ==> GrantOk(c, g');
    }
    forall j | 0 <= j < |d.servers| ensures ServerOk(d, h', j) { assert ServerOk(c, h, j); }
    AnswerKeeps(c, d, h, h', m);
  }

  /** Replacing a request by its answer keeps what is said about the messages. */
  lemma {:induction false} AnswerKeeps(c: Cluster, d: Cluster, h: Tally, h': Tally, m: VoteRpc)
    requires Inv(c, h) && Enabled(c, VoteArrives(m)) && d == After(c, VoteArrives(m), false) && h' == Voted(c, h, m)
    requires forall i :: 0 <= i < |c.servers| ==>
               d.servers[i].term >= c.servers[i].term && (d.servers[i].role.Candidate? ==> d.servers[i] == c.servers[i])
    requires var reply := RequestVote(c.servers[m.voter], m.args).1; reply.granted ==> reply.term == m.args.term
    ensures |d.servers| == |h'.voters| && Rpcs(d, h') && OneRpc(d.votes)
  {
    assert RpcOk(c, h, m);
    var answer := Answered(m.voter, m.args, RequestVote(c.servers[m.voter], m.args).1);
    forall k | k in d.votes ensures RpcOk(d, h', k) {
      assert k != answer ==> RpcOk(c, h, k);
    }
    forall k, k' | k in d.votes && k' in d.votes && SameBallot(k, k') ensures k == k' {
      assert k' != answer ==> SameBallot(k', m) || !SameBallot(k, m);
      assert SameBallot(k, m) ==> k == answer;
      assert SameBallot(k', m) ==> k' == answer;
    }
  }

  lemma {:induction false} RefusalKeeps(c: Cluster, h: Tally, m: VoteRpc)
    requires Inv(c, h) && Enabled(c, VoteArrives(m)) && !RequestVote(c.servers[m.voter], m.args).1.granted
    ensures Inv(After(c, VoteArrives(m), false), Voted(c, h, m))
  {
    var d := After(c, VoteArrives(m), false);
    assert RpcOk(c, h, m) && ServerOk(c, h, m.voter);
    VoterActs(c.servers[m.voter], m.args, m.voter);
    var t := RequestVote(c.servers[m.voter], m.args).0;
    SettlingKeeps(c, WithServer(c, m.voter, t), h, m.voter, t);
    AnswerKeeps(c, d, h, h, m);
    forall g | g in h.grants ensures GrantOk(d, g) { assert GrantOk(WithServer(c, m.voter, t), g); }
    forall j | 0 <= j < |d.servers| ensures ServerOk(d, h, j) { assert ServerOk(WithServer(c, m.voter, t), h, j); }
  }

  // ---------------------------------------------------------------- a vote is counted

  ghost predicate Counts(s: Server, m: VoteRpc)
    requires m.Answered?
  {
    s.role.Candidate? && m.args.term == s.term && m.reply.term == s.term && m.reply.granted
  }

  ghost function Polled(c: Cluster, h: Tally, m: VoteRpc): Tally
    requires m.Answered? && m.args.candidate < |c.servers| == |h.voters|
  {
    var i := m.args.candidate;
    if Counts(c.servers[i], m) then h.(voters := h.voters[i := h.voters[i] + {m.voter}]) else h
  }

  lemma {:induction false} DropVote(c: Cluster, h: Tally, m: VoteRpc)
    requires Inv(c, h)
    ensures Inv(c.(votes := c.votes - {m}), h)
  {
    var d := c.(votes := c.votes - {m});
    forall g | g in h.grants ensures GrantOk(d, g) { assert GrantOk(c, g); }
    forall j | 0 <= j < |d.servers| ensures ServerOk(d, h, j) { assert ServerOk(c, h, j); }
    forall k | k in d.votes ensures RpcOk(d, h, k) { assert RpcOk(c, h, k); }
  }

  /** The cluster after its candidate has counted the vote `m`. */
  ghost predicate IsCounted(c: Cluster, d: Cluster, m: VoteRpc)
    requires m.args.candidate < |c.servers| == |c.won|
  {
    var i := m.args.candidate;
    var s := c.servers[i];
    && d.servers == c.servers[i := s.(voteCount := s.voteCount + 1)] && d.votes == c.votes - {m}
    && (d.won == c.won || (d.won == c.won[i := true] && s.voteCount + 1 > |c.servers| / 2))
  }

  lemma {:induction false} CountedServers(c: Cluster, d: Cluster, h: Tally, m: VoteRpc, j: nat)
    requires Inv(c, h) && m in c.votes && m.Answered? && m.args.candidate < |c.servers|
    requires Counts(c.servers[m.args.candidate], m) && IsCounted(c, d, m)
    requires j < |d.servers|
    ensures |d.servers| == |d.won| == |Polled(c, h, m).voters| && ServerOk(d, Polled(c, h, m), j)
  {
    var i := m.args.candidate;
    assert RpcOk(c, h, m) && ServerOk(c, h, j);
    assert |h.voters[i] + {m.voter}| == |h.voters[i]| + 1;
  }

  /** The candidate counts a vote it has not counted before. */
  lemma {:induction false} CountedKeeps(c: Cluster, d: Cluster, h: Tally, m: VoteRpc)
    requires Inv(c, h) && m in c.votes && m.Answered? && m.args.candidate < |c.servers|
    requires Counts(c.servers[m.args.candidate], m) && IsCounted(c, d, m)
    ensures Inv(d, Polled(c, h, m))
  {
    var h' := Polled(c, h, m);
    forall g | g in h'.grants ensures GrantOk(d, g) { assert GrantOk(c, g); }
    forall j | 0 <= j < |d.servers| ensures ServerOk(d, h', j) { CountedServers(c, d, h, m, j); }
    forall k | k in d.votes ensures RpcOk(d, h', k) {
      assert RpcOk(c, h, k);
      assert !SameBallot(k, m);
    }
  }

  lemma {:induction false} CountKeeps(c: Cluster, h: Tally, m: VoteRpc, heard: bool)
    requires Inv(c, h) && Enabled(c, VoteComesBack(m, heard))
    ensures Inv(After(c, VoteComesBack(m, heard), false), Polled(c, h, m))
  {
    var d, i := After(c, VoteComesBack(m, heard), false), m.args.candidate;
    assert ServerOk(c, h, i);
    if Counts(c.servers[i], m) {
      CountedKeeps(c, d, h, m);
    } else {
      DropVote(c, h, m);
      SettlingKeeps(c.(votes := c.votes - {m}), d, h, i, d.servers[i]);
    }
  }

  // ---------------------------------------------------------------- winning, and everything else

  lemma {:induction false} WinKeeps(c: Cluster, h: Tally, i: nat)
    requires Inv(c, h) && Enabled(c, Wins(i))
    ensures Inv(After(c, Wins(i), false), h)
  {
    var d := After(c, Wins(i), false);
    forall g | g in h.grants ensures GrantOk(d, g) { assert GrantOk(c, g); }
    forall j | 0 <= j < |d.servers| ensures ServerOk(d, h, j) { assert ServerOk(c, h, j); }
    forall m | m in d.votes ensures RpcOk(d, h, m) { assert RpcOk(c, h, m); }
  }

  /** Appends, their answers and client commands leave the election alone, except that servers settle or move on. */
  lemma {:induction false} AppendSettles(s: Server, args: AppendArgs)
    requires s.saved == Saved(s.term, s.votedFor, s.log)
    ensures var t := ProcessAppend(s, args).0; Settles(s, t) || MovesOn(s, t)
  {
  }

  lemma {:induction false} AnswerSettles(s: Server, server: nat, args: AppendArgs, reply: AppendReply, adopt: bool)
    requires server < s.peers && s.saved == Saved(s.term, s.votedFor, s.log)
    ensures var t := AppendReturned(s, server, args, reply, adopt); Settles(s, t) || MovesOn(s, t)
  {
  }

  lemma {:induction false} OthersKeep(c: Cluster, step: Step, adopt: bool, h: Tally)
    requires Inv(c, h) && Enabled(c, step)
    requires (step.Starts? || step.AppendArrives? || step.AppendComesBack? || step.Crashes?)
    ensures Inv(After(c, step, adopt), h)
  {
    var d := After(c, step, adopt);
    var i := match step
      case Starts(i, _) => i
      case AppendArrives(a) => a.to
      case AppendComesBack(a) => a.call.args.leader
      case Crashes(i) => i;
    assert ServerOk(c, h, i);
    match step {
      case Starts(_, _) =>
      case AppendArrives(a) => AppendSettles(c.servers[i], a.args);
      case AppendComesBack(a) => AnswerSettles(c.servers[i], a.call.to, a.call.args, a.reply, adopt);
      case Crashes(_) =>
    }
    SettlingKeeps(c, d, h, i, d.servers[i]);
  }

  lemma {:induction false} SendKeeps(c: Cluster, i: nat, to: nat, h: Tally)
    requires Inv(c, h) && Enabled(c, Sends(i, to))
    ensures Inv(After(c, Sends(i, to), false), h)
  {
    var d := After(c, Sends(i, to), false);
    SettlingKeeps(c, d, h, i, c.servers[i]) by {
      assert ServerOk(c, h, i);
      assert c.servers[i := c.servers[i]] == c.servers;
    }
  }

  ghost function AfterTally(c: Cluster, step: Step, h: Tally): Tally
    requires Inv(c, h) && Enabled(c, step)
  {
    match step
    case ElectionTimeout(i) => Nominated(h, i)
    case VoteArrives(m) => Voted(c, h, m)
    case VoteComesBack(m, _) => Polled(c, h, m)
    case _ => h
  }

  lemma {:induction false} StepKeeps(c: Cluster, step: Step, adopt: bool, h: Tally)
    requires Inv(c, h) && Enabled(c, step)
    ensures Inv(After(c, step, adopt), AfterTally(c, step, h))
  {
    match step {
      case ElectionTimeout(i) => ElectionKeeps(c, h, i);
      case VoteArrives(m) =>
        if RequestVote(c.servers[m.voter], m.args).1.granted { GrantKeeps(c, h, m); } else { RefusalKeeps(c, h, m); }
      case VoteComesBack(m, heard) => CountKeeps(c, h, m, heard);
      case Wins(i) => WinKeeps(c, h, i);
      case Sends(i, to) => SendKeeps(c, i, to, h);
      case _ => OthersKeep(c, step, adopt, h);
    }
  }

  lemma {:induction false} BootIsFair(n: nat)
    ensures Inv(Boot(n), Tally({}, seq(n, _ => {})))
  {
    var c, h := Boot(n), Tally({}, seq(n, _ => {}));
    forall i | 0 <= i < n ensures ServerOk(c, h, i) { }
  }

  lemma {:induction false} RunKeeps(n: nat, adopt: bool, run: seq<Cluster>) returns (h: Tally)
    requires Run(n, adopt, run)
    ensures Inv(Last(run), h)
  {
    if |run| == 1 {
      h := Tally({}, seq(n, _ => {}));
      BootIsFair(n);
    } else {
      var c := run[|run| - 2];
      RunFront(n, adopt, run);
      h := RunKeeps(n, adopt, run[..|run| - 1]);
      var step :| Enabled(c, step) && run[|run| - 1] == After(c, step, adopt);
      StepKeeps(c, step, adopt, h);
      h := AfterTally(c, step, h);
    }
  }

  // ---------------------------------------------------------------- election safety

  /** Two majorities of the same servers share one. */
  lemma {:induction false} MajoritiesMeet(n: nat, a: set<nat>, b: set<nat>) returns (v: nat)
    requires (forall x :: x in a ==> x < n) && (forall x :: x in b ==> x < n) && |a| > n / 2 && |b| > n / 2
    ensures v in a && v in b
  {
    if a * b == {} {
      Histories.FitsBelow(a + b, n);
      assert false;
    }
    v :| v in a * b;
  }

  /** A candidate or leader and the votes it has counted. */
  ghost function Camp(h: Tally, i: nat): set<nat>
    requires i < |h.voters|
  {
    h.voters[i] + {i}
  }

  lemma CampIs(c: Cluster, h: Tally, i: nat)
    requires Inv(c, h) && i < |c.servers| && c.servers[i].role.Leader?
    ensures |Camp(h, i)| > |c.servers| / 2 && forall v :: v in Camp(h, i) ==> v < |c.servers|
    ensures forall v :: v in Camp(h, i) ==> v == i || Grant(c.servers[i].term, v, i) in h.grants
  {
    assert ServerOk(c, h, i);
    forall v | v in h.voters[i] ensures v < |c.servers| && v != i { assert GrantOk(c, Grant(c.servers[i].term, v, i)); }
    assert |Camp(h, i)| == |h.voters[i]| + 1;
  }

  /**
   In every reachable state of the code as written, and of the repaired one, each term has at most one current leader.
   */
  lemma {:induction false} ElectionSafety(n: nat, adopt: bool, run: seq<Cluster>, a: nat, b: nat)
    requires Run(n, adopt, run) && a < |Last(run).servers| && b < |Last(run).servers|
    requires Last(run).servers[a].role.Leader? && Last(run).servers[b].role.Leader?
    requires Last(run).servers[a].term == Last(run).servers[b].term
    ensures a == b
  {
    var c := Last(run);
    var h := RunKeeps(n, adopt, run);
    CampIs(c, h, a);
    CampIs(c, h, b);
    var v := MajoritiesMeet(|c.servers|, Camp(h, a), Camp(h, b));
    var term := c.servers[a].term;
    assert v != a ==> GrantOk(c, Grant(term, v, a));
    assert v != b ==> GrantOk(c, Grant(term, v, b));
  }

  /** A crash at any point loses neither the term, nor the vote, nor the log. */
  lemma {:induction false} CrashForgetsNothing(n: nat, adopt: bool, run: seq<Cluster>, i: nat)
    requires Run(n, adopt, run) && i < |Last(run).servers|
    ensures Enabled(Last(run), Crashes(i))
    ensures var (s, t) := (Last(run).servers[i], After(Last(run), Crashes(i), adopt).servers[i]);
            t.term == s.term && t.votedFor == s.votedFor && t.log == s.log
  {
    var h := RunKeeps(n, adopt, run);
    assert ServerOk(Last(run), h, i);
  }
}
