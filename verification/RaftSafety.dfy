module RaftSafety {
  // State machine safety: what any server has committed at any moment of a run agrees
  // with what any other has committed at any other.  It holds in every run in which three
  // branches of the code are not taken, and none of the three can be left out.

  import opened RaftServers
  import opened RaftClusters
  import opened RaftElections
  import opened RaftMatchings
  import opened RaftRules
  import opened RaftKeeping
  import RaftConflicts
  import RaftOutvoted

  // ---------------------------------------------------------------- ballots

  /** Who voted in a later term acknowledges nothing new in an earlier one. */
  lemma {:induction false} PassedStays(c: Cluster, d: Cluster, h: Tally, r: Reigns, r': Reigns, m: Memory, m': Memory,
                                       g: Grant, t: nat, k: nat)
    requires Inv(c, h) && AcksOk(c, r, m.acks) && Onward(c, d, m.acks, m'.acks) && Extends(r, r') && g in h.grants
    requires Passed(c, r, m, g, t, k)
    requires Candidacy(g.term, g.candidate) in m'.ballots
    requires m'.ballots[Candidacy(g.term, g.candidate)] == m.ballots[Candidacy(g.term, g.candidate)]
    ensures Passed(d, r', m', g, t, k)
  {
    if t < g.term && AckedPast(m'.acks, t, g.voter, k) && OfTerm(r', t, k) {
      assert GrantOk(c, g);
      var len: nat :| len > k && Ack(t, g.voter, len) in m'.acks;
      assert AckOk(c, r, Ack(t, g.voter, len));
      assert r[t].log[k] == r'[t].log[k];
      KeptStays(c, d, r, r', m.acks, m'.acks, m.ballots[Candidacy(g.term, g.candidate)], t, k);
    }
  }

  /** The step lets nobody stand and grants no vote; a candidate keeps its log, or its term has got a leader. */
  lemma {:induction false} BallotsStay(c: Cluster, d: Cluster, h: Tally, r: Reigns, r': Reigns, m: Memory, m': Memory)
    requires Inv(c, h) && AcksOk(c, r, m.acks) && BallotsOk(c, h, r, m)
    requires Onward(c, d, m.acks, m'.acks) && Extends(r, r') && m'.ballots == m.ballots
    requires forall v :: v in d.votes ==> VoteOk(m, v)
    requires forall i :: 0 <= i < |d.servers| ==> StandsOn(c.servers[i], d.servers[i], r')
    ensures BallotsOk(d, h, r', m')
  {
    forall x | x in m'.ballots ensures BallotOk(d, r', m', x) {
      assert BallotOk(c, r, m, x);
      LogStaysOk(r, r', m.ballots[x]);
      assert StandsOn(c.servers[x.candidate], d.servers[x.candidate], r');
    }
    forall v | v in d.votes ensures VoteOk(m', v) { assert VoteOk(m, v); }
    forall g, t: nat, k: nat | g in h.grants ensures Passed(d, r', m', g, t, k) {
      assert Passed(c, r, m, g, t, k);
      PassedStays(c, d, h, r, r', m, m', g, t, k);
    }
  }

  ghost predicate StandsOn(s: Server, t: Server, r: Reigns) {
    t.role.Candidate? && t.term !in r ==> s.role.Candidate? && t.term == s.term && t.log == s.log
  }

  lemma {:induction false} StandingBallots(c: Cluster, h: Tally, r: Reigns, m: Memory, i: nat)
    requires Inv(c, h) && Ruled(c, h, r) && Steady(c, h, r, m) && Enabled(c, ElectionTimeout(i))
    ensures BallotsOk(After(c, ElectionTimeout(i), true), Nominated(h, i), r, AfterMemory(c, ElectionTimeout(i), m))
  {
    var d, h', m' := After(c, ElectionTimeout(i), true), Nominated(h, i), AfterMemory(c, ElectionTimeout(i), m);
    var s := c.servers[i];
    StepOnward(c, ElectionTimeout(i), h, m);
    assert HolderOk(c, r, i);
    forall x | x in m'.ballots ensures BallotOk(d, r, m', x) {
      assert x != Candidacy(s.term + 1, i) ==> BallotOk(c, r, m, x);
    }
    forall v | v in d.votes ensures VoteOk(m', v) {
      if v in c.votes {
        assert VoteOk(m, v) && BallotOk(c, r, m, Candidacy(v.args.term, v.args.candidate));
      }
    }
    forall g, t: nat, k: nat | g in h'.grants ensures Passed(d, r, m', g, t, k) {
      assert Passed(c, r, m, g, t, k) && BallotOk(c, r, m, Candidacy(g.term, g.candidate));
      PassedStays(c, d, h, r, r, m, m', g, t, k);
    }
  }

  lemma {:induction false} GrantPasses(c: Cluster, h: Tally, r: Reigns, m: Memory, v: VoteRpc, t: nat, k: nat)
    requires Inv(c, h) && Ruled(c, h, r) && Steady(c, h, r, m) && Enabled(c, VoteArrives(v))
    requires RequestVote(c.servers[v.voter], v.args).1.granted
    ensures Passed(c, r, m, Grant(v.args.term, v.voter, v.args.candidate), t, k)
  {
    var x, s := Candidacy(v.args.term, v.args.candidate), c.servers[v.voter];
    assert VoteOk(m, v) && BallotOk(c, r, m, x) && HolderOk(c, r, v.voter);
    if t < v.args.term && AckedPast(m.acks, t, v.voter, k) && OfTerm(r, t, k) {
      assert Holds(c, r, m.acks, v.voter, t, k) && ReignOk(c, h, r, t);
      if Has(s.log, r[t].log, k) { VoterPasses(c, r, m.acks, s.log, m.ballots[x], t, k); }
    }
  }

  lemma {:induction false} VotingBallots(c: Cluster, h: Tally, r: Reigns, m: Memory, v: VoteRpc)
    requires Inv(c, h) && Ruled(c, h, r) && Steady(c, h, r, m) && Enabled(c, VoteArrives(v))
    ensures BallotsOk(After(c, VoteArrives(v), true), Voted(c, h, v), r, m)
  {
    var d, h' := After(c, VoteArrives(v), true), Voted(c, h, v);
    StepOnward(c, VoteArrives(v), h, m);
    forall w | w in d.votes ensures VoteOk(m, w) { assert VoteOk(m, v); assert w in c.votes ==> VoteOk(m, w); }
    BallotsStay(c, d, h, r, r, m, m);
    forall g, t: nat, k: nat | g in h'.grants ensures Passed(d, r, m, g, t, k) {
      if g in h.grants {
        assert Passed(d, r, m, g, t, k);
      } else {
        GrantPasses(c, h, r, m, v, t, k);
        if t < g.term && AckedPast(m.acks, t, g.voter, k) && OfTerm(r, t, k) {
          KeptStays(c, d, r, r, m.acks, m.acks, m.ballots[Candidacy(g.term, g.candidate)], t, k);
        }
      }
    }
  }

  // ---------------------------------------------------------------- servers

  /** The server neither writes nor commits, and leads only if it led before, with the same indices. */
  ghost predicate Calm(s: Server, t: Server) {
    && t.log == s.log && t.term >= s.term && t.commitIndex in {0, s.commitIndex} && t.peers == s.peers
    && (t.role.Leader? ==>
          s.role.Leader? && t.term == s.term && t.nextIndex == s.nextIndex && t.matchIndex == s.matchIndex)
  }

  lemma {:induction false} CalmSteady(c: Cluster, d: Cluster, r: Reigns, r': Reigns, m: Memory, m': Memory, i: nat)
    requires ServersSteady(c, r, m) && Extends(r, r') && m.acks <= m'.acks && i < |c.servers| == |d.servers|
    requires Calm(c.servers[i], d.servers[i])
    requires d.servers[i].role.Candidate? ==> Candidacy(d.servers[i].term, i) in m'.ballots
    ensures ServerSteady(d, m', i) && CommitOk(|d.servers|, r', m'.acks, d.servers[i])
  {
    var s, t := c.servers[i], d.servers[i];
    assert ServerSteady(c, m, i) && CommitOk(|c.servers|, r, m.acks, s);
    if t.role.Leader? {
      forall j | 0 <= j < t.peers ensures PeerAcked(m'.acks, t, j) { assert PeerAcked(m.acks, s, j); }
    }
    CommittedStays(|c.servers|, r, r', m.acks, m'.acks, s.log, t.log, s.term, t.term, s.commitIndex);
  }

  lemma InOrderStays(r: Reigns, r': Reigns, u: nat)
    requires InOrder(r) && (forall t :: t in r' && t != u ==> t in r && r'[t] == r[t])
    requires u in r' ==> TermsUpTo(r'[u].log, u)
    ensures InOrder(r')
  {
    forall t | t in r' ensures TermsUpTo(r'[t].log, t) { assert t in r ==> TermsUpTo(r[t].log, t); }
  }

  /** Servers that a step leaves alone stay as they are. */
  lemma {:induction false} OthersSteady(c: Cluster, d: Cluster, r: Reigns, r': Reigns, m: Memory, m': Memory, i: nat)
    requires ServersSteady(c, r, m) && Extends(r, r') && m.acks <= m'.acks
    requires InOrder(r') && i < |c.servers| == |d.servers|
    requires forall x :: x in m.ballots ==> x in m'.ballots
    requires forall j :: 0 <= j < |c.servers| && j != i ==> d.servers[j] == c.servers[j]
    requires ServerSteady(d, m', i) && CommitOk(|d.servers|, r', m'.acks, d.servers[i])
    ensures ServersSteady(d, r', m')
  {
    forall j | 0 <= j < |d.servers| ensures ServerSteady(d, m', j) && CommitOk(|d.servers|, r', m'.acks, d.servers[j]) {
      assert ServerSteady(c, m, j);
      if j != i { CalmSteady(c, d, r, r', m, m', j); }
    }
  }

  lemma {:induction false} CrownedSteady(c: Cluster, h: Tally, r: Reigns, m: Memory, i: nat)
    requires Inv(c, h) && Ruled(c, h, r) && Steady(c, h, r, m) && Enabled(c, Wins(i)) && c.servers[i].role.Candidate?
    ensures ServersSteady(After(c, Wins(i), true), Crowned(c, h, r, i), m)
  {
    var d, r' := After(c, Wins(i), true), Crowned(c, h, r, i);
    var s, t := c.servers[i], d.servers[i];
    TermIsFree(c, h, r, i);
    CrownRuled(c, h, r, i);
    assert HolderOk(c, r, i) && ServerOk(c, h, i) && ServerSteady(c, m, i) && CommitOk(|c.servers|, r, m.acks, s);
    NotOfFreeTerm(r, s.log, s.term);
    InOrderStays(r, r', s.term);
    forall j | 0 <= j < t.peers ensures PeerAcked(m.acks, t, j) { }
    CommittedStays(|c.servers|, r, r', m.acks, m.acks, s.log, t.log, s.term, t.term, s.commitIndex);
    OthersSteady(c, d, r, r', m, m, i);
  }

  lemma {:induction false} StartedSteady(c: Cluster, h: Tally, r: Reigns, m: Memory, i: nat, command: Command)
    requires Inv(c, h) && Ruled(c, h, r) && Steady(c, h, r, m)
    requires Enabled(c, Starts(i, command)) && c.servers[i].role.Leader?
    ensures ServersSteady(After(c, Starts(i, command), true), Added(c, r, i, command),
                          AfterMemory(c, Starts(i, command), m))
  {
    var d, r', m' := After(c, Starts(i, command), true), Added(c, r, i, command), AfterMemory(c, Starts(i, command), m);
    var s, t := c.servers[i], d.servers[i];
    StartRuled(c, h, r, i, command);
    assert HolderOk(c, r, i) && ServerSteady(c, m, i) && CommitOk(|c.servers|, r, m.acks, s);
    InOrderStays(r, r', s.term);
    forall j | 0 <= j < t.peers ensures PeerAcked(m'.acks, t, j) { assert PeerAcked(m.acks, s, j); }
    CommittedStays(|c.servers|, r, r', m.acks, m'.acks, s.log, t.log, s.term, t.term, s.commitIndex);
    OthersSteady(c, d, r, r', m, m', i);
  }

  // ---------------------------------------------------------------- a leader hears back

  /** Where the leader's match index reaches an entry of its own term, the peer has acknowledged that entry. */
  lemma {:induction false} MatchedIsAcked(c: Cluster, r: Reigns, m: Memory, s: Server, v: nat, at: nat)
    requires InOrder(r) && LogOk(r, s.log) && TermsUpTo(s.log, s.term) && s.role.Leader? && v < s.peers && at < |s.log|
    requires AckedAt(m.acks, s.log, s.term, v, s.matchIndex[v]) && s.log[at].term == s.term && s.matchIndex[v] >= at
    ensures AckedPast(m.acks, s.term, v, at)
  {
    TermsAscend(r, s.log, at, s.matchIndex[v]);
    assert Ack(s.term, v, s.matchIndex[v] + 1) in m.acks;
  }

  lemma {:induction false} ReplicatedIsChosen(c: Cluster, r: Reigns, m: Memory, i: nat, s: Server, at: nat)
    requires InOrder(r) && LogOk(r, s.log) && TermsUpTo(s.log, s.term)
    requires s.role.Leader? && s.me == i && s.peers == |c.servers| > 1
    requires s.term in r && r[s.term].log == s.log && at < |s.log| && Replicated(s, at)
    requires AckedAt(m.acks, s.log, s.term, i, |s.log| - 1)
    requires forall j :: 0 <= j < s.peers ==> AckedAt(m.acks, s.log, s.term, j, s.matchIndex[j])
    ensures Chosen(|c.servers|, r, m.acks, s.term, at)
  {
    ReplicatedIff(s, at);
    var camp := Holders(s, at);
    forall v | v in camp ensures AckedPast(m.acks, s.term, v, at) {
      if v == i {
        TermsAscend(r, s.log, at, |s.log| - 1);
        assert Ack(s.term, i, |s.log|) in m.acks;
      } else {
        MatchedIsAcked(c, r, m, s, v, at);
      }
    }
    assert ChosenBy(|c.servers|, m.acks, s.term, at, camp);
  }

  /** What an answer in the leader's own term makes of the indices is acknowledged, or of an earlier term. */
  lemma {:induction false} IndicesAcked(c: Cluster, h: Tally, r: Reigns, m: Memory, x: AppendAnswer, s: Server)
    requires Ruled(c, h, r) && Steady(c, h, r, m) && x in c.answers && x.call.args.leader < |c.servers|
    requires s == c.servers[x.call.args.leader] && s.peers == |c.servers|
    requires s.role.Leader? && x.call.args.term == s.term == x.reply.term && x.call.to < s.peers
    ensures var (next, match') := Indices(s, x.call.to, x.call.args, x.reply);
            next == match' + 1 && AckedAt(m.acks, s.log, s.term, x.call.to, match')
  {
    var args := x.call.args;
    IndicesStay(c, x, h, r, s);
    assert AnswerSteady(m.acks, x) && AnswerOk(c, r, x) && CallOk(c, r, x.call);
    assert HolderOk(c, r, args.leader) && ServerSteady(c, m, args.leader) && PeerAcked(m.acks, s, x.call.to);
    if !x.reply.success {
      TermsAscend(r, s.log, x.reply.conflictIndex - 1, args.prevLogIndex);
    }
  }

  lemma {:induction false} HearingSteady(c: Cluster, h: Tally, r: Reigns, m: Memory, x: AppendAnswer)
    requires Inv(c, h) && Ruled(c, h, r) && Steady(c, h, r, m) && Enabled(c, AppendComesBack(x))
    ensures ServersSteady(After(c, AppendComesBack(x), true), r, m)
  {
    var d, i := After(c, AppendComesBack(x), true), x.call.args.leader;
    var s, t := c.servers[i], d.servers[i];
    assert ServerSteady(c, m, i);
    if s.role.Leader? && x.call.args.term == s.term == x.reply.term {
      HeardSteady(c, h, r, m, x, d, s, t);
    } else {
      CalmSteady(c, d, r, r, m, m, i);
    }
    OthersSteady(c, d, r, r, m, m, i);
  }

  lemma {:induction false} HeardSteady(c: Cluster, h: Tally, r: Reigns, m: Memory, x: AppendAnswer, d: Cluster,
                                       s: Server, t: Server)
    requires Inv(c, h) && Ruled(c, h, r) && Steady(c, h, r, m)
    requires Enabled(c, AppendComesBack(x)) && d == After(c, AppendComesBack(x), true)
    requires s == c.servers[x.call.args.leader] && t == d.servers[x.call.args.leader]
    requires s.role.Leader? && x.call.args.term == s.term == x.reply.term
    ensures ServerSteady(d, m, x.call.args.leader) && CommitOk(|d.servers|, r, m.acks, t)
  {
    var i, n := x.call.args.leader, |c.servers|;
    var (next, match') := Indices(s, x.call.to, x.call.args, x.reply);
    var u := s.(nextIndex := s.nextIndex[x.call.to := next], matchIndex := s.matchIndex[x.call.to := match']);
    assert t == Persist(u.(commitIndex := Committed(u, |u.log|)));
    IndicesAcked(c, h, r, m, x, s);
    assert HolderOk(c, r, i) && ServerSteady(c, m, i) && CommitOk(n, r, m.acks, s) && AnswerOk(c, r, x)
           && CallOk(c, r, x.call);
    forall j | 0 <= j < t.peers ensures PeerAcked(m.acks, t, j) && AckedAt(m.acks, u.log, u.term, j, u.matchIndex[j]) {
      assert PeerAcked(m.acks, s, j);
    }
    if t.commitIndex != s.commitIndex {
      ReplicatedIsChosen(c, r, m, i, u, t.commitIndex);
      assert CommittedBy(n, r, m.acks, t.log, t.term, t.commitIndex, t.term, t.commitIndex);
    }
  }

  // ---------------------------------------------------------------- an append is delivered

  /** What the sender's log has, the follower's has after the append if it had it before. */
  lemma {:induction false} FollowerKeeps(c: Cluster, h: Tally, r: Reigns, a: AppendCall, k: nat)
    requires Ruled(c, h, r) && Enabled(c, AppendArrives(a))
    requires Fits(c.servers[a.to], a.args) && !Cuts(c.servers[a.to], a.args)
    requires a.args.term in r && Has(c.servers[a.to].log, r[a.args.term].log, k)
    ensures Has(ProcessAppend(c.servers[a.to], a.args).0.log, r[a.args.term].log, k)
  {
    var s, args, ruler := c.servers[a.to], a.args, r[a.args.term].log;
    assert CallOk(c, r, a) && HolderOk(c, r, a.to) && ReignOk(c, h, r, args.term);
    AppendEffect(s, args);
    DeliveryKeeps(r, s.log, ruler, args, k);
  }

  /** The follower's log after an append that fits. */
  lemma {:induction false} FollowerCopies(c: Cluster, h: Tally, r: Reigns, a: AppendCall)
    requires Ruled(c, h, r) && Enabled(c, AppendArrives(a)) && Fits(c.servers[a.to], a.args)
    ensures a.args.term in r && |r[a.args.term].log| >= a.args.prevLogIndex + 1 + |a.args.entries|
    ensures ProcessAppend(c.servers[a.to], a.args).0.log
            == r[a.args.term].log[..a.args.prevLogIndex + 1 + |a.args.entries|]
    ensures ProcessAppend(c.servers[a.to], a.args).0.term == a.args.term
  {
    var s, args := c.servers[a.to], a.args;
    assert CallOk(c, r, a) && HolderOk(c, r, a.to) && ReignOk(c, h, r, args.term);
    AppendEffect(s, args);
    DeliveredLog(r, s.log, r[args.term].log, args.prevLogIndex, args.entries);
  }

  /** What the follower has of an earlier leader's log it still has, unless it is blocked. */
  lemma {:induction false} FollowerHolds(c: Cluster, h: Tally, r: Reigns, m: Memory, a: AppendCall, t: nat, k: nat)
    requires Ruled(c, h, r) && Steady(c, h, r, m) && Enabled(c, AppendArrives(a)) && Fits(c.servers[a.to], a.args)
    requires !Cuts(c.servers[a.to], a.args) && OfTerm(r, t, k)
    requires t <= c.servers[a.to].term && Has(c.servers[a.to].log, r[t].log, k)
    ensures Kept(c, r, m.acks, ProcessAppend(c.servers[a.to], a.args).0.log, t, k)
  {
    var u, s := a.args.term, c.servers[a.to];
    assert CallOk(c, r, a);
    if t < u { assert Later(c, r, m.acks, u, t, k); }
    if Has(r[u].log, r[t].log, k) {
      HasOn(s.log, r[t].log, r[u].log, k);
      FollowerKeeps(c, h, r, a, k);
      HasOn(ProcessAppend(s, a.args).0.log, r[u].log, r[t].log, k);
    }
  }

  lemma {:induction false} DeliveredAckOk(c: Cluster, h: Tally, r: Reigns, m: Memory, a: AppendCall, b: Ack)
    requires Inv(c, h) && Ruled(c, h, r) && Steady(c, h, r, m)
    requires Enabled(c, AppendArrives(a)) && Fits(c.servers[a.to], a.args)
    requires !Cuts(c.servers[a.to], a.args) && b in AfterMemory(c, AppendArrives(a), m).acks
    ensures AckOk(After(c, AppendArrives(a), true), r, b)
  {
    var d := After(c, AppendArrives(a), true);
    FollowerCopies(c, h, r, a);
    if b in m.acks {
      assert AckOk(c, r, b);
      if b.voter == a.to && b.term == a.args.term { FollowerKeeps(c, h, r, a, b.len - 1); }
    } else {
      HasPrefix(d.servers[a.to].log, r[a.args.term].log, b.len - 1);
    }
  }

  lemma {:induction false} DeliveredHolds(c: Cluster, h: Tally, r: Reigns, m: Memory, a: AppendCall, v: nat, t: nat,
                                          k: nat)
    requires Inv(c, h) && Ruled(c, h, r) && Steady(c, h, r, m)
    requires Enabled(c, AppendArrives(a)) && Fits(c.servers[a.to], a.args)
    requires !Cuts(c.servers[a.to], a.args)
    ensures Holds(After(c, AppendArrives(a), true), r, AfterMemory(c, AppendArrives(a), m).acks, v, t, k)
  {
    var d, acks' := After(c, AppendArrives(a), true), AfterMemory(c, AppendArrives(a), m).acks;
    StepOnward(c, AppendArrives(a), h, m);
    if v < |d.servers| && AckedPast(acks', t, v, k) && OfTerm(r, t, k) {
      var len: nat :| len > k && Ack(t, v, len) in acks';
      var b := Ack(t, v, len);
      DeliveredAckOk(c, h, r, m, a, b);
      if b in m.acks {
        assert AckOk(c, r, b) && AckedPast(m.acks, t, v, k) && Holds(c, r, m.acks, v, t, k);
        if v == a.to && Has(c.servers[v].log, r[t].log, k) { FollowerHolds(c, h, r, m, a, t, k); }
        KeptStays(c, d, r, r, m.acks, acks', d.servers[v].log, t, k);
      } else {
        FollowerCopies(c, h, r, a);
        HasLess(d.servers[v].log, r[t].log, len - 1, k);
      }
    }
  }

  lemma {:induction false} DeliveredAcksOk(c: Cluster, h: Tally, r: Reigns, m: Memory, a: AppendCall)
    requires Inv(c, h) && Ruled(c, h, r) && Steady(c, h, r, m)
    requires Enabled(c, AppendArrives(a)) && !Cuts(c.servers[a.to], a.args)
    ensures AcksOk(After(c, AppendArrives(a), true), r, AfterMemory(c, AppendArrives(a), m).acks)
  {
    var d, acks' := After(c, AppendArrives(a), true), AfterMemory(c, AppendArrives(a), m).acks;
    StepOnward(c, AppendArrives(a), h, m);
    if Fits(c.servers[a.to], a.args) {
      forall b | b in acks' ensures AckOk(d, r, b) { DeliveredAckOk(c, h, r, m, a, b); }
      forall v: nat, t: nat, k: nat ensures Holds(d, r, acks', v, t, k) { DeliveredHolds(c, h, r, m, a, v, t, k); }
    } else {
      AppendEffect(c.servers[a.to], a.args);
      GrowingAcksOk(c, d, r, r, m.acks, acks');
    }
  }

  /** What the follower had committed it still has. */
  lemma {:induction false} DeliveredCommit(c: Cluster, h: Tally, r: Reigns, m: Memory, a: AppendCall, acks': set<Ack>)
    requires Inv(c, h) && Ruled(c, h, r) && Steady(c, h, r, m)
    requires Enabled(c, AppendArrives(a)) && !Cuts(c.servers[a.to], a.args)
    requires Fits(c.servers[a.to], a.args) && m.acks <= acks'
    ensures var (t, n) := (ProcessAppend(c.servers[a.to], a.args).0, |c.servers|);
            c.servers[a.to].commitIndex < |t.log|
              && IsCommitted(n, r, acks', t.log, t.term, c.servers[a.to].commitIndex)
  {
    var s, t, n, u := c.servers[a.to], ProcessAppend(c.servers[a.to], a.args).0, |c.servers|, a.args.term;
    assert CommitOk(n, r, m.acks, s) && CallOk(c, r, a);
    FollowerCopies(c, h, r, a);
    if s.commitIndex > 0 {
      var w, k :| CommittedBy(n, r, m.acks, s.log, s.term, s.commitIndex, w, k);
      LeaderHasChosen(c, r, m.acks, u, w, k);
      HasLess(r[u].log, r[w].log, k, s.commitIndex);
      HasOn(s.log, r[w].log, r[u].log, s.commitIndex);
      FollowerKeeps(c, h, r, a, s.commitIndex);
      HasOn(t.log, r[u].log, r[w].log, s.commitIndex);
      ChosenStays(n, r, r, m.acks, acks', w, k);
      assert CommittedBy(n, r, acks', t.log, t.term, s.commitIndex, w, k);
    }
  }

  /** What it is told is committed, as far as it has it. */
  lemma {:induction false} ToldCommit(c: Cluster, h: Tally, r: Reigns, m: Memory, a: AppendCall, acks': set<Ack>,
                                      index: nat)
    requires Ruled(c, h, r) && Steady(c, h, r, m) && Enabled(c, AppendArrives(a))
    requires Fits(c.servers[a.to], a.args) && m.acks <= acks'
    requires index <= a.args.leaderCommit && index < |ProcessAppend(c.servers[a.to], a.args).0.log|
    ensures var (t, n) := (ProcessAppend(c.servers[a.to], a.args).0, |c.servers|);
            IsCommitted(n, r, acks', t.log, t.term, index)
  {
    var t, n, u := ProcessAppend(c.servers[a.to], a.args).0, |c.servers|, a.args.term;
    assert CallSteady(n, r, m.acks, a);
    FollowerCopies(c, h, r, a);
    if index > 0 {
      var w, k :| CommittedBy(n, r, m.acks, r[u].log, u, a.args.leaderCommit, w, k);
      HasLess(r[u].log, r[w].log, a.args.leaderCommit, index);
      HasPrefix(t.log, r[u].log, index);
      HasOn(t.log, r[u].log, r[w].log, index);
      ChosenStays(n, r, r, m.acks, acks', w, k);
      assert CommittedBy(n, r, acks', t.log, t.term, index, w, k);
    }
  }

  lemma {:induction false} DeliveredSteady(c: Cluster, h: Tally, r: Reigns, m: Memory, a: AppendCall)
    requires Inv(c, h) && Ruled(c, h, r) && Steady(c, h, r, m)
    requires Enabled(c, AppendArrives(a)) && !Cuts(c.servers[a.to], a.args)
    ensures ServersSteady(After(c, AppendArrives(a), true), r, AfterMemory(c, AppendArrives(a), m))
  {
    var d, m', i := After(c, AppendArrives(a), true), AfterMemory(c, AppendArrives(a), m), a.to;
    var s, t := c.servers[i], d.servers[i];
    assert ServerSteady(c, m, i);
    AppendEffect(s, a.args);
    if Fits(s, a.args) {
      FittedSteady(c, h, r, m, a, d, m', s, t);
    } else {
      CalmSteady(c, d, r, r, m, m', i);
    }
    OthersSteady(c, d, r, r, m, m', i);
  }

  lemma {:induction false} FittedSteady(c: Cluster, h: Tally, r: Reigns, m: Memory, a: AppendCall, d: Cluster,
                                        m': Memory, s: Server, t: Server)
    requires Inv(c, h) && Ruled(c, h, r) && Steady(c, h, r, m)
    requires Enabled(c, AppendArrives(a)) && !Cuts(c.servers[a.to], a.args)
    requires Fits(c.servers[a.to], a.args) && m'.ballots == m.ballots && m.acks <= m'.acks
    requires s == c.servers[a.to] && t == ProcessAppend(s, a.args).0
    requires |d.servers| == |c.servers| && d.servers[a.to] == t
    ensures ServerSteady(d, m', a.to) && CommitOk(|d.servers|, r, m'.acks, t)
  {
    assert ServerSteady(c, m, a.to);
    FollowerCopies(c, h, r, a);
    assert TermsUpTo(r[a.args.term].log, a.args.term);
    DeliveryHolds(c, h, r, a);
    AppendEffect(s, a.args);
    if t.role.Leader? {
      forall j | 0 <= j < t.peers ensures PeerAcked(m'.acks, t, j) { assert PeerAcked(m.acks, s, j); }
    }
    FittedCommit(c, h, r, m, a, m'.acks);
  }

  lemma {:induction false} FittedCommit(c: Cluster, h: Tally, r: Reigns, m: Memory, a: AppendCall, acks': set<Ack>)
    requires Inv(c, h) && Ruled(c, h, r) && Steady(c, h, r, m)
    requires Enabled(c, AppendArrives(a)) && !Cuts(c.servers[a.to], a.args)
    requires Fits(c.servers[a.to], a.args) && m.acks <= acks'
    ensures CommitOk(|c.servers|, r, acks', ProcessAppend(c.servers[a.to], a.args).0)
  {
    var s, t := c.servers[a.to], ProcessAppend(c.servers[a.to], a.args).0;
    DeliveredCommit(c, h, r, m, a, acks');
    if t.commitIndex != s.commitIndex { ToldCommit(c, h, r, m, a, acks', t.commitIndex); }
  }

  // ---------------------------------------------------------------- messages

  lemma {:induction false} MailStays(c: Cluster, d: Cluster, r: Reigns, r': Reigns, acks: set<Ack>, acks': set<Ack>)
    requires MailSteady(c, r, acks) && Extends(r, r') && acks <= acks' && |d.servers| == |c.servers|
    requires forall a :: a in d.appends && a !in c.appends ==> CallSteady(|d.servers|, r', acks', a)
    requires forall x :: x in d.answers && x !in c.answers ==> AnswerSteady(acks', x)
    ensures MailSteady(d, r', acks')
  {
    forall a | a in d.appends ensures CallSteady(|d.servers|, r', acks', a) {
      if a in c.appends {
        assert CallSteady(|c.servers|, r, acks, a);
        var u := a.args.term;
        CommittedStays(|c.servers|, r, r', acks, acks', r[u].log, r'[u].log, u, u, a.args.leaderCommit);
      }
    }
    forall x | x in d.answers ensures AnswerSteady(acks', x) { assert x in c.answers ==> AnswerSteady(acks, x); }
  }

  lemma {:induction false} SentSteady(c: Cluster, h: Tally, r: Reigns, m: Memory, i: nat, to: nat)
    requires Ruled(c, h, r) && Steady(c, h, r, m) && Enabled(c, Sends(i, to))
    ensures CallSteady(|c.servers|, r, m.acks, AppendCall(to, AppendFor(c.servers[i], to)))
  {
    assert HolderOk(c, r, i) && ServerSteady(c, m, i) && CommitOk(|c.servers|, r, m.acks, c.servers[i]);
    assert PeerAcked(m.acks, c.servers[i], to);
  }

  /** An answer acknowledges what was sent, or refuses it because of an entry of an earlier term. */
  lemma {:induction false} AnsweredSteady(c: Cluster, h: Tally, r: Reigns, m: Memory, a: AppendCall)
    requires Ruled(c, h, r) && Steady(c, h, r, m) && Enabled(c, AppendArrives(a)) && !Clashes(c.servers[a.to], a.args)
    ensures AnswerSteady(AfterMemory(c, AppendArrives(a), m).acks,
                         AppendAnswer(a, ProcessAppend(c.servers[a.to], a.args).1))
  {
    var s, args := c.servers[a.to], a.args;
    assert CallSteady(|c.servers|, r, m.acks, a);
    if !ProcessAppend(s, args).1.success && args.prevLogTerm == args.term {
      assert AckOk(c, r, Ack(args.term, a.to, args.prevLogIndex + 1));
    }
  }

  // ---------------------------------------------------------------- every step

  /** A step in which one server at most changes, and calmly, and nothing is remembered but who stands. */
  lemma {:induction false} CalmStep(c: Cluster, d: Cluster, h: Tally, r: Reigns, m: Memory, m': Memory, i: nat)
    requires Steady(c, h, r, m) && Onward(c, d, m.acks, m'.acks) && m'.acks == m.acks && i < |c.servers|
    requires forall x :: x in m.ballots ==> x in m'.ballots
    requires forall j :: 0 <= j < |c.servers| && j != i ==> d.servers[j] == c.servers[j]
    requires Calm(c.servers[i], d.servers[i])
    requires d.servers[i].role.Candidate? ==> Candidacy(d.servers[i].term, i) in m'.ballots
    ensures AcksOk(d, r, m'.acks) && LaterOk(d, r, m'.acks) && ServersSteady(d, r, m')
  {
    GrowingAcksOk(c, d, r, r, m.acks, m'.acks);
    LaterStays(c, d, r, m.acks, m'.acks);
    CalmSteady(c, d, r, r, m, m', i);
    OthersSteady(c, d, r, r, m, m', i);
  }

  function Voter(step: Step): nat
    requires step.ElectionTimeout? || step.VoteArrives? || step.VoteComesBack? || step.Crashes?
  {
    match step
    case ElectionTimeout(i) => i
    case VoteArrives(v) => v.voter
    case VoteComesBack(v, _) => v.args.candidate
    case Crashes(i) => i
  }

  lemma {:induction false} VoteStepCalm(c: Cluster, step: Step, h: Tally, r: Reigns, m: Memory)
    requires Inv(c, h) && Steady(c, h, r, m) && Enabled(c, step)
    requires step.ElectionTimeout? || step.VoteArrives? || step.VoteComesBack? || step.Crashes?
    ensures var (s, t) := (c.servers[Voter(step)], After(c, step, true).servers[Voter(step)]);
            Calm(s, t) && (t.role.Candidate? ==> Candidacy(t.term, Voter(step)) in AfterMemory(c, step, m).ballots)
  {
    assert ServerOk(c, h, Voter(step)) && ServerSteady(c, m, Voter(step));
  }

  /** The step writes no log, makes no leader, and hears and carries no append. */
  lemma {:induction false} VoteStepSteady(c: Cluster, step: Step, h: Tally, r: Reigns, m: Memory)
    requires Inv(c, h) && Ruled(c, h, r) && Steady(c, h, r, m) && Enabled(c, step)
    requires step.ElectionTimeout? || step.VoteArrives? || step.VoteComesBack? || step.Crashes?
    ensures Steady(After(c, step, true), AfterTally(c, step, h), r, AfterMemory(c, step, m))
  {
    var d, m' := After(c, step, true), AfterMemory(c, step, m);
    StepOnward(c, step, h, m);
    VoteStepCalm(c, step, h, r, m);
    CalmStep(c, d, h, r, m, m', Voter(step));
    MailStays(c, d, r, r, m.acks, m'.acks);
    match step {
      case ElectionTimeout(i) => StandingBallots(c, h, r, m, i);
      case VoteArrives(v) => VotingBallots(c, h, r, m, v);
      case _ => CountingBallots(c, step, h, r, m);
    }
  }

  lemma {:induction false} CountingBallots(c: Cluster, step: Step, h: Tally, r: Reigns, m: Memory)
    requires Inv(c, h) && Ruled(c, h, r) && Steady(c, h, r, m)
    requires Enabled(c, step) && (step.VoteComesBack? || step.Crashes?)
    ensures BallotsOk(After(c, step, true), AfterTally(c, step, h), r, m)
  {
    var d := After(c, step, true);
    StepOnward(c, step, h, m);
    forall v | v in d.votes ensures VoteOk(m, v) { assert v in c.votes; }
    BallotsStay(c, d, h, r, r, m, m);
    forall g, t: nat, k: nat | g in AfterTally(c, step, h).grants ensures Passed(d, r, m, g, t, k) {
      assert g in h.grants;
    }
  }

  lemma {:induction false} WinSteady(c: Cluster, h: Tally, r: Reigns, m: Memory, i: nat)
    requires Inv(c, h) && Ruled(c, h, r) && Steady(c, h, r, m) && Enabled(c, Wins(i))
    ensures Steady(After(c, Wins(i), true), h, Crowned(c, h, r, i), m)
  {
    var d, r' := After(c, Wins(i), true), Crowned(c, h, r, i);
    StepOnward(c, Wins(i), h, m);
    CrownRuled(c, h, r, i);
    GrowingAcksOk(c, d, r, r', m.acks, m.acks);
    forall v | v in d.votes ensures VoteOk(m, v) { assert v in c.votes; }
    BallotsStay(c, d, h, r, r', m, m);
    MailStays(c, d, r, r', m.acks, m.acks);
    if c.servers[i].role.Candidate? {
      CrownLater(c, h, r, m, i);
      CrownedSteady(c, h, r, m, i);
    } else {
      assert ServerSteady(c, m, i);
      CalmStep(c, d, h, r, m, m, i);
    }
  }

  lemma {:induction false} StartSteady(c: Cluster, h: Tally, r: Reigns, m: Memory, i: nat, command: Command)
    requires Inv(c, h) && Ruled(c, h, r) && Steady(c, h, r, m) && Enabled(c, Starts(i, command))
    ensures Steady(After(c, Starts(i, command), true), h, Added(c, r, i, command),
                   AfterMemory(c, Starts(i, command), m))
  {
    var d, r', m' := After(c, Starts(i, command), true), Added(c, r, i, command), AfterMemory(c, Starts(i, command), m);
    if c.servers[i].role.Leader? {
      StepOnward(c, Starts(i, command), h, m);
      StartRuled(c, h, r, i, command);
      assert HolderOk(c, r, i);
      GrowingAcksOk(c, d, r, r', m.acks, m'.acks);
      forall v | v in d.votes ensures VoteOk(m, v) { assert v in c.votes; }
      BallotsStay(c, d, h, r, r', m, m');
      MailStays(c, d, r, r', m.acks, m'.acks);
      StartLater(c, h, r, m, i, command);
      StartedSteady(c, h, r, m, i, command);
    } else {
      assert c.servers[i := c.servers[i]] == c.servers;
    }
  }

  lemma {:induction false} SendSteady(c: Cluster, h: Tally, r: Reigns, m: Memory, i: nat, to: nat)
    requires Inv(c, h) && Ruled(c, h, r) && Steady(c, h, r, m) && Enabled(c, Sends(i, to))
    ensures Steady(After(c, Sends(i, to), true), h, r, m)
  {
    var d := After(c, Sends(i, to), true);
    StepOnward(c, Sends(i, to), h, m);
    forall v | v in d.votes ensures VoteOk(m, v) { assert v in c.votes; }
    BallotsStay(c, d, h, r, r, m, m);
    assert ServerSteady(c, m, i);
    CalmStep(c, d, h, r, m, m, i);
    SentSteady(c, h, r, m, i, to);
    MailStays(c, d, r, r, m.acks, m.acks);
  }

  lemma {:induction false} DeliverySteady(c: Cluster, h: Tally, r: Reigns, m: Memory, a: AppendCall)
    requires Inv(c, h) && Ruled(c, h, r) && Steady(c, h, r, m) && Enabled(c, AppendArrives(a))
    requires !Clashes(c.servers[a.to], a.args) && !Cuts(c.servers[a.to], a.args)
    ensures Steady(After(c, AppendArrives(a), true), h, r, AfterMemory(c, AppendArrives(a), m))
  {
    var d, m' := After(c, AppendArrives(a), true), AfterMemory(c, AppendArrives(a), m);
    StepOnward(c, AppendArrives(a), h, m);
    DeliveredAcksOk(c, h, r, m, a);
    LaterStays(c, d, r, m.acks, m'.acks);
    forall v | v in d.votes ensures VoteOk(m, v) { assert v in c.votes; }
    AppendEffect(c.servers[a.to], a.args);
    assert CallOk(c, r, a);
    BallotsStay(c, d, h, r, r, m, m');
    DeliveredSteady(c, h, r, m, a);
    AnsweredSteady(c, h, r, m, a);
    MailStays(c, d, r, r, m.acks, m'.acks);
  }

  lemma {:induction false} HearSteady(c: Cluster, h: Tally, r: Reigns, m: Memory, x: AppendAnswer)
    requires Inv(c, h) && Ruled(c, h, r) && Steady(c, h, r, m) && Enabled(c, AppendComesBack(x))
    ensures Steady(After(c, AppendComesBack(x), true), h, r, m)
  {
    var d := After(c, AppendComesBack(x), true);
    StepOnward(c, AppendComesBack(x), h, m);
    GrowingAcksOk(c, d, r, r, m.acks, m.acks);
    LaterStays(c, d, r, m.acks, m.acks);
    forall v | v in d.votes ensures VoteOk(m, v) { assert v in c.votes; }
    BallotsStay(c, d, h, r, r, m, m);
    HearingSteady(c, h, r, m, x);
    MailStays(c, d, r, r, m.acks, m.acks);
  }

  lemma {:induction false} StepSteady(w: Watch, c: Cluster, step: Step, h: Tally, r: Reigns, m: Memory)
    requires Inv(c, h) && Ruled(c, h, r) && Steady(c, h, r, m) && Enabled(c, step)
    requires Heeds(w, c, step) && w.conflict && w.cut
    ensures Steady(After(c, step, true), AfterTally(c, step, h), AfterReigns(c, step, h, r), AfterMemory(c, step, m))
  {
    match step {
      case Wins(i) => WinSteady(c, h, r, m, i);
      case Starts(i, command) => StartSteady(c, h, r, m, i, command);
      case Sends(i, to) => SendSteady(c, h, r, m, i, to);
      case AppendArrives(a) => DeliverySteady(c, h, r, m, a);
      case AppendComesBack(x) => HearSteady(c, h, r, m, x);
      case _ => VoteStepSteady(c, step, h, r, m);
    }
  }

  // ---------------------------------------------------------------- whole runs

  /** What every server has committed at every moment is committed for good. */
  ghost predicate Committals(n: nat, run: seq<Cluster>, r: Reigns, acks: set<Ack>) {
    forall p, i {:trigger CommitOk(n, r, acks, run[p].servers[i])} :: 0 <= p < |run| && 0 <= i < |run[p].servers| ==>
      CommitOk(n, r, acks, run[p].servers[i])
  }

  lemma {:induction false} CommittalsStay(n: nat, run: seq<Cluster>, d: Cluster, r: Reigns, r': Reigns, acks: set<Ack>,
                                          acks': set<Ack>)
    requires Committals(n, run, r, acks) && Extends(r, r') && acks <= acks'
    requires forall i {:trigger CommitOk(n, r', acks', d.servers[i])} :: 0 <= i < |d.servers| ==>
               CommitOk(n, r', acks', d.servers[i])
    ensures Committals(n, run + [d], r', acks')
  {
    var longer := run + [d];
    forall p, i | 0 <= p < |longer| && 0 <= i < |longer[p].servers|
      ensures CommitOk(n, r', acks', longer[p].servers[i])
    {
      if p < |run| {
        var s := run[p].servers[i];
        assert CommitOk(n, r, acks, s);
        CommittedStays(n, r, r', acks, acks', s.log, s.log, s.term, s.term, s.commitIndex);
      }
    }
  }

  lemma {:induction false} BootSteady(n: nat)
    ensures Steady(Boot(n), Tally({}, seq(n, _ => {})), map[], Memory({}, map[]))
    ensures forall i {:trigger CommitOk(n, map[], {}, Boot(n).servers[i])} :: 0 <= i < n ==>
              CommitOk(n, map[], {}, Boot(n).servers[i])
  {
    var c, m := Boot(n), Memory({}, map[]);
    forall i | 0 <= i < n ensures ServerSteady(c, m, i) && CommitOk(n, map[], {}, c.servers[i]) { }
  }

  lemma {:induction false} GoesOnSteady(w: Watch, c: Cluster, step: Step, h: Tally, r: Reigns, m: Memory)
    requires Inv(c, h) && Ruled(c, h, r) && Steady(c, h, r, m) && Enabled(c, step)
    requires Heeds(w, c, step) && w.conflict && w.cut && (w.adopt || w.news)
    ensures var (d, h', r', m') := (After(c, step, w.adopt), AfterTally(c, step, h), AfterReigns(c, step, h, r),
                                    AfterMemory(c, step, m));
            && Inv(d, h') && Ruled(d, h', r') && Steady(d, h', r', m')
            && Extends(r, r') && m.acks <= m'.acks && |d.servers| == |c.servers|
  {
    assert After(c, step, w.adopt) == After(c, step, true);
    StepKeeps(c, step, true, h);
    StepRuled(c, step, h, r);
    StepOnward(c, step, h, m);
    StepSteady(w, c, step, h, r, m);
  }

  lemma {:induction false} RunSteady(n: nat, w: Watch, run: seq<Cluster>) returns (h: Tally, r: Reigns, m: Memory)
    requires WatchedRun(n, w, run) && w.conflict && w.cut && (w.adopt || w.news)
    ensures Inv(Last(run), h) && Ruled(Last(run), h, r) && Steady(Last(run), h, r, m)
    ensures |Last(run).servers| == n && Committals(n, run, r, m.acks)
  {
    if |run| == 1 {
      h, r, m := Tally({}, seq(n, _ => {})), map[], Memory({}, map[]);
      BootIsFair(n);
      forall i | 0 <= i < n ensures HolderOk(Boot(n), r, i) { }
      BootSteady(n);
    } else {
      var c, before := run[|run| - 2], run[..|run| - 1];
      WatchedFront(n, w, run);
      var h0, r0, m0 := RunSteady(n, w, before);
      var step :| Enabled(c, step) && Heeds(w, c, step) && Last(run) == After(c, step, w.adopt);
      GoesOnSteady(w, c, step, h0, r0, m0);
      h, r, m := AfterTally(c, step, h0), AfterReigns(c, step, h0, r0), AfterMemory(c, step, m0);
      CommittalsStay(n, before, Last(run), r0, r, m0.acks, m.acks);
      assert run == before + [Last(run)];
    }
  }

  /** Two committed logs agree as far as both are committed. */
  lemma {:induction false} CommittedAgree(c: Cluster, r: Reigns, acks: set<Ack>, s: Server, t: Server, k: nat)
    requires LaterOk(c, r, acks) && CommitOk(|c.servers|, r, acks, s) && CommitOk(|c.servers|, r, acks, t)
    requires 0 < k && Commits(s, k) && Commits(t, k)
    ensures s.log[k] == t.log[k]
  {
    var n := |c.servers|;
    var a, ka :| CommittedBy(n, r, acks, s.log, s.term, s.commitIndex, a, ka);
    var b, kb :| CommittedBy(n, r, acks, t.log, t.term, t.commitIndex, b, kb);
    HasLess(s.log, r[a].log, s.commitIndex, k);
    HasLess(t.log, r[b].log, t.commitIndex, k);
    if a <= b {
      LeaderHasChosen(c, r, acks, b, a, ka);
      HasLess(r[b].log, r[a].log, ka, k);
    } else {
      LeaderHasChosen(c, r, acks, a, b, kb);
      HasLess(r[a].log, r[b].log, kb, k);
    }
  }

  /**
   State machine safety in every run, of the code as written or repaired, in which the three branches are not taken.
   */
  lemma {:induction false} StateMachineSafety(n: nat, w: Watch, run: seq<Cluster>)
    requires WatchedRun(n, w, run) && w.conflict && w.cut && (w.adopt || w.news)
    ensures CommitsAgree(run)
  {
    var h, r, m := RunSteady(n, w, run);
    forall p: nat, i: nat, q: nat, j: nat, k: nat | BothCommit(run, p, i, q, j, k)
      ensures run[p].servers[i].log[k] == run[q].servers[j].log[k]
    {
      assert CommitOk(n, r, m.acks, run[p].servers[i]) && CommitOk(n, r, m.acks, run[q].servers[j]);
      if k > 0 {
        CommittedAgree(Last(run), r, m.acks, run[p].servers[i], run[q].servers[j], k);
      } else {
        StartsAlike(n, w, run, p, i);
        StartsAlike(n, w, run, q, j);
      }
    }
  }

  lemma {:induction false} StartsAlike(n: nat, w: Watch, run: seq<Cluster>, p: nat, i: nat)
    requires WatchedRun(n, w, run) && w.conflict && w.cut && (w.adopt || w.news) && p < |run| && i < |run[p].servers|
    ensures run[p].servers[i].log[0] == FIRST_ENTRY
  {
    WatchedPrefix(n, w, run, p + 1);
    var h, r, m := RunSteady(n, w, run[..p + 1]);
    assert HolderOk(run[p], r, i);
  }

  /**
   Leader completeness: what a server has committed is in the log of every leader of a term no earlier, at any later
   moment.
   */
  lemma {:induction false} LeaderCompleteness(n: nat, w: Watch, run: seq<Cluster>, p: nat, i: nat, q: nat, j: nat)
    requires WatchedRun(n, w, run) && w.conflict && w.cut && (w.adopt || w.news)
    requires p <= q < |run| && i < |run[p].servers| && j < |run[q].servers|
    requires run[q].servers[j].role.Leader? && run[q].servers[j].term >= run[p].servers[i].term
    ensures run[p].servers[i].commitIndex < |run[p].servers[i].log|
    ensures run[p].servers[i].commitIndex < |run[q].servers[j].log|
    ensures run[p].servers[i].log[..run[p].servers[i].commitIndex + 1]
            == run[q].servers[j].log[..run[p].servers[i].commitIndex + 1]
  {
    var upto := run[..q + 1];
    WatchedPrefix(n, w, run, q + 1);
    var h, r, m := RunSteady(n, w, upto);
    var s, t := upto[p].servers[i], upto[q].servers[j];
    assert CommitOk(n, r, m.acks, s) && HolderOk(upto[q], r, j);
    if s.commitIndex > 0 {
      var u, k :| CommittedBy(n, r, m.acks, s.log, s.term, s.commitIndex, u, k);
      LeaderHasChosen(upto[q], r, m.acks, t.term, u, k);
      HasLess(t.log, r[u].log, k, s.commitIndex);
    } else {
      StartsAlike(n, w, run, p, i);
    }
  }

  /**
   State machine safety holds in all runs exactly when none of the three branches is taken: a newer term is adopted or
   never heard of, no conflict is answered with success, and no append that agrees ends short of the log.
   */
  lemma {:induction false} SafeIff(w: Watch)
    ensures (forall n, run {:trigger WatchedRun(n, w, run)} :: WatchedRun(n, w, run) ==> CommitsAgree(run))
            <==> (w.adopt || w.news) && w.conflict && w.cut
  {
    if !w.conflict {
      RaftConflicts.CommitsDisagree(w);
    } else if !w.cut {
      RaftConflicts.CommitsDisagreeLate(w);
    } else if !w.adopt && !w.news {
      RaftOutvoted.CommitsDisagreeRelapsed(w);
    } else {
      forall n, run | WatchedRun(n, w, run) ensures CommitsAgree(run) { StateMachineSafety(n, w, run); }
    }
  }
}
