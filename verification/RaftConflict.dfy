module RaftConflicts {
  // Runs of three servers in which two of them commit different entries at one index:
  // because a conflict is answered with success and counted, and because a late append
  // cuts what was acknowledged.  The other branches are not needed for either.

  import opened RaftServers
  import opened RaftClusters
  import opened RaftScripts
  import opened RaftRelapses
  import opened RaftReplies

  const SECOND := VoteArgs(2, 1, 0, 0)

  function Peering(me: nat, term: nat, votedFor: int, log: seq<LogEntry>, role: Role, voteCount: nat, commitIndex: nat,
                   nextIndex: seq<int>, matchIndex: seq<int>): Peer
  {
    Peer(me, 3, term, votedFor, log, role, voteCount, commitIndex, nextIndex, matchIndex, Saved(term, votedFor, log))
  }

  /** Server 0 is elected for term 1 by server 2. */
  lemma {:induction false} FirstLeader(w: Watch) returns (run: seq<Cluster>)
    ensures Stage(w, run, REIGNING)
  {
    run := Begins(w);
    var s := [One(0, 0, -1, [F], Follower, 0), One(1, 0, -1, [F], Follower, 0), One(2, 0, -1, [F], Follower, 0)];
    run := Stands(w, run, s, 0, One(0, 1, 0, [F], Candidate, 1), ZERO);
    s := [One(0, 1, 0, [F], Candidate, 1), s[1], s[2]];
    Enthroned(0, 1);
    run := Elects(w, run, s, Asked(2, ZERO), One(2, 1, 0, [F], Follower, 0), Led(0, 1, 0, [F], Leader));
  }

  // ---------------------------------------------------------------- a conflict is counted

  const P := LogEntry(2, Command("p"))
  const Q := LogEntry(3, Command("q"))

  const THIRD := VoteArgs(3, 1, 1, 2)
  const CALL := AppendCall(0, AppendArgs(3, 1, 1, 2, [Q], 0))
  const CLASH := AppendAnswer(CALL, AppendReply(3, true, 1, 1))

  /** Server 1 as leader of term 3, elected with one entry in its log. */
  function Third(log: seq<LogEntry>): Peer {
    Peering(1, 3, 1, log, Leader, 2, 0, [2, 2, 2], [0, 0, 0])
  }

  const RESTARTED := [Led(0, 1, 0, [F, X], Leader), One(1, 2, 1, [F, P], Follower, 0), One(2, 2, 1, [F], Follower, 0)]
  const SENT := [Led(0, 1, 0, [F, X], Leader), Third([F, P, Q]), One(2, 3, 1, [F], Follower, 0)]
  const COUNTED := [Led(0, 3, -1, [F, X], Follower), Peering(1, 3, 1, [F, P, Q], Leader, 2, 2, [3, 2, 2], [2, 0, 0]),
                    One(2, 3, 1, [F], Follower, 0)]

  /** Server 0 takes a command that goes nowhere; so does server 1, as leader of term 2, and crashes. */
  lemma {:induction false} TwoCommands(w: Watch) returns (run: seq<Cluster>)
    ensures Stage(w, run, RESTARTED)
  {
    run := FirstLeader(w);
    Adds(REIGNING[0], Command("x"));
    run := Takes(w, run, REIGNING, 0, Command("x"), Led(0, 1, 0, [F, X], Leader));
    var s := REIGNING[0 := Led(0, 1, 0, [F, X], Leader)];
    run := Stands(w, run, s, 1, One(1, 1, 1, [F], Candidate, 1), ONE);
    s := s[1 := One(1, 1, 1, [F], Candidate, 1)];
    run := Stands(w, run, s, 1, One(1, 2, 1, [F], Candidate, 1), SECOND);
    s := [s[0], One(1, 2, 1, [F], Candidate, 1), s[2]];
    Enthroned(1, 2);
    run := Elects(w, run, s, Asked(2, SECOND), One(2, 2, 1, [F], Follower, 0), Led(1, 2, 1, [F], Leader));
    s := [s[0], Led(1, 2, 1, [F], Leader), One(2, 2, 1, [F], Follower, 0)];
    Adds(s[1], Command("p"));
    run := Takes(w, run, s, 1, Command("p"), Led(1, 2, 1, [F, P], Leader));
    run := Fails(w, run, s[1 := Led(1, 2, 1, [F, P], Leader)], 1, One(1, 2, 1, [F, P], Follower, 0));
  }

  lemma Third0()
    ensures BecomeLeader(One(1, 3, 1, [F, P], Candidate, 2)) == Third([F, P])
    ensures StartCommand(Third([F, P]), Command("q")) == Third([F, P, Q])
    ensures AppendFor(Third([F, P, Q]), 0) == CALL.args
  {
    assert seq(3, _ => 2) == [2, 2, 2] && seq(3, _ => 0) == [0, 0, 0];
    assert [F, P] + [Q] == [F, P, Q] && [F, P, Q][2..] == [Q];
  }

  lemma Counts(adopt: bool)
    ensures AppendReturned(Third([F, P, Q]), 0, CALL.args, CLASH.reply, adopt) == COUNTED[1]
  {
    var s := Third([F, P, Q]);
    var u := s.(nextIndex := [3, 2, 2], matchIndex := [2, 0, 0]);
    assert s.nextIndex[0 := 3] == u.nextIndex && s.matchIndex[0 := 2] == u.matchIndex;
    HeldByThree(u.matchIndex, 1, 2);
    assert Replicated(u, 2) && Committed(u, 3) == 2;
  }

  /** Server 1, elected again, sends a command to server 0. */
  lemma {:induction false} ThirdCommand(w: Watch) returns (run: seq<Cluster>)
    ensures Stage(w, run, SENT) && CALL in Last(run).appends
  {
    run := TwoCommands(w);
    run := Stands(w, run, RESTARTED, 1, One(1, 3, 1, [F, P], Candidate, 1), THIRD);
    var s := [RESTARTED[0], One(1, 3, 1, [F, P], Candidate, 1), RESTARTED[2]];
    Third0();
    run := Elects(w, run, s, Asked(2, THIRD), One(2, 3, 1, [F], Follower, 0), Third([F, P]));
    s := [s[0], Third([F, P]), One(2, 3, 1, [F], Follower, 0)];
    run := Takes(w, run, s, 1, Command("q"), Third([F, P, Q]));
    assert s[1 := Third([F, P, Q])] == SENT;
    run := Dispatches(w, run, SENT, 1, CALL);
  }

  lemma ClashesWithX()
    ensures ProcessAppend(Led(0, 1, 0, [F, X], Leader), CALL.args) == (COUNTED[0], CLASH.reply)
  {
    assert StretchStart([F, X], 1) == 1;
  }

  /**
   A leader commits an entry that no other server holds, on the strength of a success answer that is no copy: the
   follower's previous entry was not the one named.
   */
  lemma {:induction false} ConflictIsCounted(w: Watch) returns (run: seq<Cluster>, at: nat)
    requires !w.conflict
    ensures Stage(w, run, COUNTED) && COUNTED[1].role.Leader? && COUNTED[1].commitIndex == 2
    ensures COUNTED[0].log == [F, X] && COUNTED[1].log == [F, P, Q] && COUNTED[2].log == [F]
    ensures Trip(run, at, at, CLASH) && CLASH.reply.success
    ensures CLASH.reply.conflictTerm >= 0 && !Copied(run, at, at, CLASH)
  {
    var sent := ThirdCommand(w);
    at := |sent| - 1;
    ClashesWithX();
    Third0();
    WatchedPush(3, w, sent, AppendArrives(CALL));
    var clashed := sent + [After(Last(sent), AppendArrives(CALL), w.adopt)];
    Counts(w.adopt);
    var s := SENT[0 := COUNTED[0]];
    run := Returns(w, clashed, s, CLASH, COUNTED[1]);
    assert s[1 := COUNTED[1]] == COUNTED;
    assert SentAt(run, at, CALL) && AnsweredAt(run, at, CLASH);
  }

  // ---------------------------------------------------------------- and then another leader commits

  const R := LogEntry(4, Command("r"))

  const FOURTH := VoteArgs(4, 0, 1, 1)
  const SHORT := AppendCall(2, AppendArgs(4, 0, 1, 1, [R], 0))
  const REFUSED := AppendReply(4, false, 1, -1)
  const FULL := AppendCall(2, AppendArgs(4, 0, 0, 0, [X, R], 0))
  const TAKEN := AppendReply(4, true, -1, -1)

  /** Server 0 as leader of term 4. */
  function Fourth(log: seq<LogEntry>, next: int, match': int, commitIndex: nat): Peer {
    Peering(0, 4, 0, log, Leader, 2, commitIndex, [2, 2, next], [0, 0, match'])
  }

  lemma Fourth0()
    ensures BecomeLeader(Peering(0, 4, 0, [F, X], Candidate, 2, 0, [1, 1, 1], [0, 0, 0])) == Fourth([F, X], 2, 0, 0)
    ensures StartCommand(Fourth([F, X], 2, 0, 0), Command("r")) == Fourth([F, X, R], 2, 0, 0)
    ensures AppendFor(Fourth([F, X, R], 2, 0, 0), 2) == SHORT.args
    ensures AppendFor(Fourth([F, X, R], 1, 0, 0), 2) == FULL.args
    ensures Merged([F], 0, [X, R]) == [F, X, R]
  {
    assert seq(3, _ => 2) == [2, 2, 2] && seq(3, _ => 0) == [0, 0, 0];
    assert [F, X] + [R] == [F, X, R] && [F, X, R][2..] == [R] && [F, X, R][1..] == [X, R];
  }

  lemma StepsBack(adopt: bool)
    ensures AppendReturned(Fourth([F, X, R], 2, 0, 0), 2, SHORT.args, REFUSED, adopt) == Fourth([F, X, R], 1, 0, 0)
  {
    var s, u := Fourth([F, X, R], 2, 0, 0), Fourth([F, X, R], 1, 0, 0);
    assert s.nextIndex[2 := 1] == u.nextIndex && s.matchIndex[2 := 0] == u.matchIndex;
    HeldByThree(u.matchIndex, 0, 2);
    assert Committed(u, 1) == 0 && Committed(u, 2) == 0 && Committed(u, 3) == 0;
  }

  lemma CountsBoth(adopt: bool)
    ensures AppendReturned(Fourth([F, X, R], 1, 0, 0), 2, FULL.args, TAKEN, adopt) == Fourth([F, X, R], 3, 2, 2)
  {
    var s, u := Fourth([F, X, R], 1, 0, 0), Fourth([F, X, R], 3, 2, 0);
    assert s.nextIndex[2 := 3] == u.nextIndex && s.matchIndex[2 := 2] == u.matchIndex;
    HeldByThree(u.matchIndex, 0, 2);
    assert Replicated(u, 2) && Committed(u, 3) == 2;
  }

  const OFFERED := [Fourth([F, X, R], 2, 0, 0), COUNTED[1], One(2, 4, 0, [F], Follower, 0)]

  /** Server 0 is elected for term 4 and takes a command. */
  lemma {:induction false} FourthCommand(w: Watch, run: seq<Cluster>) returns (longer: seq<Cluster>)
    requires Stage(w, run, COUNTED)
    ensures Stage(w, longer, OFFERED)
  {
    var stands := Peering(0, 4, 0, [F, X], Candidate, 1, 0, [1, 1, 1], [0, 0, 0]);
    longer := Stands(w, run, COUNTED, 0, stands, FOURTH);
    Fourth0();
    longer := Elects(w, longer, COUNTED[0 := stands], Asked(2, FOURTH), OFFERED[2], Fourth([F, X], 2, 0, 0));
    var s := [Fourth([F, X], 2, 0, 0), COUNTED[1], OFFERED[2]];
    longer := Takes(w, longer, s, 0, Command("r"), OFFERED[0]);
    assert s[0 := OFFERED[0]] == OFFERED;
  }

  const ANEW := OFFERED[0 := Fourth([F, X, R], 1, 0, 0)]

  /** Server 2's log is too short for it. */
  lemma {:induction false} FirstOffer(w: Watch, run: seq<Cluster>) returns (longer: seq<Cluster>)
    requires Stage(w, run, OFFERED)
    ensures Stage(w, longer, ANEW)
  {
    Fourth0();
    StepsBack(w.adopt);
    longer := Replicates(w, run, OFFERED, 0, SHORT, OFFERED[2], REFUSED, ANEW[0]);
    assert OFFERED[2 := OFFERED[2]][0 := ANEW[0]] == ANEW;
  }

  /** Two servers commit different entries at one index, and only the conflict branch is needed for it. */
  lemma {:induction false} CommitsDisagree(w: Watch)
    requires !w.conflict
    ensures exists run :: WatchedRun(3, w, run) && !CommitsAgree(run)
  {
    var run, at := ConflictIsCounted(w);
    run := FourthCommand(w, run);
    run := FirstOffer(w, run);
    Fourth0();
    CountsBoth(w.adopt);
    run := Replicates(w, run, ANEW, 0, FULL, One(2, 4, 0, [F, X, R], Follower, 0), TAKEN, Fourth([F, X, R], 3, 2, 2));
    var last := |run| - 1;
    assert run[last].servers[0] == Fourth([F, X, R], 3, 2, 2) && run[last].servers[1] == COUNTED[1];
    assert BothCommit(run, last, 0, last, 1, 2) && run[last].servers[0].log[2] != run[last].servers[1].log[2];
  }

  // ---------------------------------------------------------------- without any conflict

  const LATE := AppendCall(1, AppendArgs(1, 0, 0, 0, [], 0))
  const FIRST := AppendCall(1, AppendArgs(1, 0, 0, 0, [X], 0))
  const OTHER := AppendCall(2, AppendArgs(2, 1, 0, 0, [P], 0))

  /** Server 0 as leader of term 1 that has committed its entry. */
  const COMMITTED := Peering(0, 1, 0, [F, X], Leader, 2, 1, [1, 2, 1], [0, 1, 0])

  const CUT := [COMMITTED, One(1, 1, -1, [F], Follower, 0), One(2, 1, 0, [F], Follower, 0)]

  lemma CountsOne(s: Server, to: nat, args: AppendArgs, reply: AppendReply, adopt: bool, t: Server)
    requires s.role.Leader? && s.peers == 3 && s.me < 2 && to < 3 && to != s.me
    requires args.term == s.term == reply.term && reply.success
    requires s.nextIndex == [1, 1, 1] && s.matchIndex == [0, 0, 0]
    requires |s.log| == 2 && s.log[1].term == s.term && s.commitIndex == 0
    requires args.prevLogIndex == 0 && |args.entries| == 1
    requires t == Persist(s.(nextIndex := s.nextIndex[to := 2], matchIndex := s.matchIndex[to := 1], commitIndex := 1))
    ensures AppendReturned(s, to, args, reply, adopt) == t
  {
    var u := s.(nextIndex := s.nextIndex[to := 2], matchIndex := s.matchIndex[to := 1]);
    HeldByThree(u.matchIndex, s.me, 1);
    assert Replicated(u, 1) && Committed(u, 2) == 1;
  }

  /**
   Even a genuine copy need not last: a late append of the same leader cuts a committed entry from the only other log
   that had it.
   */
  lemma {:induction false} LateAppendCuts(w: Watch) returns (run: seq<Cluster>)
    requires !w.cut
    ensures Stage(w, run, CUT) && Commits(CUT[0], 1) && CUT[0].log == [F, X] && CUT[1].log == [F] && CUT[2].log == [F]
  {
    run := FirstLeader(w);
    run := Dispatches(w, run, REIGNING, 0, LATE);
    Adds(REIGNING[0], Command("x"));
    run := Takes(w, run, REIGNING, 0, Command("x"), Led(0, 1, 0, [F, X], Leader));
    var s := [Led(0, 1, 0, [F, X], Leader), REIGNING[1], REIGNING[2]];
    SendsOne(0, 1, X, 1);
    Copies(X);
    var reply := AppendReply(1, true, -1, -1);
    CountsOne(s[0], 1, FIRST.args, reply, w.adopt, COMMITTED);
    run := Replicates(w, run, s, 0, FIRST, One(1, 1, -1, [F, X], Follower, 0), reply, COMMITTED);
    s := [COMMITTED, One(1, 1, -1, [F, X], Follower, 0), REIGNING[2]];
    run := Delivers(w, run, s, LATE, One(1, 1, -1, [F], Follower, 0), reply);
    assert s[1 := One(1, 1, -1, [F], Follower, 0)] == CUT;
  }

  /** Then the next leader commits another entry there, and only the branch that cuts is needed for it. */
  lemma {:induction false} CommitsDisagreeLate(w: Watch)
    requires !w.cut
    ensures exists run :: WatchedRun(3, w, run) && !CommitsAgree(run)
  {
    var run := LateAppendCuts(w);
    run := Stands(w, run, CUT, 1, One(1, 2, 1, [F], Candidate, 1), SECOND);
    var s := [COMMITTED, One(1, 2, 1, [F], Candidate, 1), CUT[2]];
    Enthroned(1, 2);
    run := Elects(w, run, s, Asked(2, SECOND), One(2, 2, 1, [F], Follower, 0), Led(1, 2, 1, [F], Leader));
    s := [COMMITTED, Led(1, 2, 1, [F], Leader), One(2, 2, 1, [F], Follower, 0)];
    Adds(s[1], Command("p"));
    run := Takes(w, run, s, 1, Command("p"), Led(1, 2, 1, [F, P], Leader));
    s := [COMMITTED, Led(1, 2, 1, [F, P], Leader), s[2]];
    SendsOne(1, 2, P, 2);
    Copies(P);
    var reply, l := AppendReply(2, true, -1, -1), Peering(1, 2, 1, [F, P], Leader, 2, 1, [1, 1, 2], [0, 0, 1]);
    CountsOne(s[1], 2, OTHER.args, reply, w.adopt, l);
    run := Replicates(w, run, s, 1, OTHER, One(2, 2, 1, [F, P], Follower, 0), reply, l);
    var last := |run| - 1;
    assert run[last].servers[0] == COMMITTED && run[last].servers[1] == l;
    assert BothCommit(run, last, 0, last, 1, 1) && run[last].servers[0].log[1] != run[last].servers[1].log[1];
  }

  // ---------------------------------------------------------------- a commit index moves back

  const LATER := AppendCall(2, AppendArgs(1, 0, 0, 0, [], 0))
  const WITH_COMMIT := AppendCall(2, AppendArgs(1, 0, 0, 0, [X], 1))
  const NEXT := AppendCall(1, AppendArgs(1, 0, 1, 1, [Y], 1))
  const BEAT := AppendCall(1, AppendArgs(1, 0, 2, 1, [], 2))
  const SHORTER := AppendCall(2, AppendArgs(2, 1, 0, 0, [], 2))
  const WELL := AppendReply(1, true, -1, -1)

  const BOTH_TOLD := [Peering(0, 1, 0, [F, X], Leader, 2, 1, [1, 2, 2], [0, 1, 1]), One(1, 1, -1, [F, X], Follower, 0),
                      Peering(2, 1, 0, [F, X], Follower, 0, 1, [], [])]
  const AHEAD := [Peering(0, 1, 0, [F, X, Y], Leader, 2, 2, [1, 3, 2], [0, 2, 1]),
                  Peering(1, 1, -1, [F, X, Y], Follower, 0, 2, [], []), BOTH_TOLD[2]]
  const BARE := [AHEAD[0], Peering(1, 1, -1, [F], Follower, 0, 2, [], []),
                 Peering(2, 1, 0, [F], Follower, 0, 1, [], [])]
  const MISLED := [AHEAD[0], Peering(1, 2, 1, [F], Leader, 2, 2, [1, 1, 1], [0, 0, 0]),
                   Peering(2, 2, 1, [F], Follower, 0, 1, [], [])]

  lemma CountsTwo(adopt: bool)
    ensures AppendReturned(COMMITTED, 2, WITH_COMMIT.args, WELL, adopt) == BOTH_TOLD[0]
  {
    var u := COMMITTED.(nextIndex := [1, 2, 2], matchIndex := [0, 1, 1]);
    assert COMMITTED.nextIndex[2 := 2] == u.nextIndex && COMMITTED.matchIndex[2 := 1] == u.matchIndex;
    assert Committed(u, 2) == 1;
  }

  lemma CountsNext(adopt: bool)
    ensures StartCommand(BOTH_TOLD[0], Y.command) == Peering(0, 1, 0, [F, X, Y], Leader, 2, 1, [1, 2, 2], [0, 1, 1])
    ensures var s := Peering(0, 1, 0, [F, X, Y], Leader, 2, 1, [1, 2, 2], [0, 1, 1]);
            AppendFor(s, 1) == NEXT.args && AppendReturned(s, 1, NEXT.args, WELL, adopt) == AHEAD[0]
    ensures AppendFor(AHEAD[0], 1) == BEAT.args && AppendReturned(AHEAD[0], 1, BEAT.args, WELL, adopt) == AHEAD[0]
  {
    assert [F, X] + [Y] == [F, X, Y] && [F, X, Y][2..] == [Y] && [F, X, Y][3..] == [];
    var u := AHEAD[0].(commitIndex := 1);
    assert [1, 2, 2][1 := 3] == [1, 3, 2] == [1, 3, 2][1 := 3] && [0, 1, 1][1 := 2] == [0, 2, 1] == [0, 2, 1][1 := 2];
    HeldByThree(u.matchIndex, 0, 2);
    assert Replicated(u, 2) && Committed(u, 3) == 2 && Committed(AHEAD[0], 3) == 2;
  }

  /** Server 0 commits an entry with both others; server 2 is told so, and two empty appends are slow. */
  lemma {:induction false} OneCommit(w: Watch) returns (run: seq<Cluster>)
    ensures Stage(w, run, BOTH_TOLD) && LATE in Last(run).appends && LATER in Last(run).appends
  {
    run := FirstLeader(w);
    run := Dispatches(w, run, REIGNING, 0, LATE);
    run := Dispatches(w, run, REIGNING, 0, LATER);
    Adds(REIGNING[0], Command("x"));
    run := Takes(w, run, REIGNING, 0, Command("x"), Led(0, 1, 0, [F, X], Leader));
    var s := [Led(0, 1, 0, [F, X], Leader), REIGNING[1], REIGNING[2]];
    SendsOne(0, 1, X, 1);
    Copies(X);
    CountsOne(s[0], 1, FIRST.args, WELL, w.adopt, COMMITTED);
    run := Replicates(w, run, s, 0, FIRST, BOTH_TOLD[1], WELL, COMMITTED);
    s := [COMMITTED, BOTH_TOLD[1], REIGNING[2]];
    assert [F, X][1..] == [X];
    CountsTwo(w.adopt);
    run := Replicates(w, run, s, 0, WITH_COMMIT, BOTH_TOLD[2], WELL, BOTH_TOLD[0]);
    assert s[2 := BOTH_TOLD[2]][0 := BOTH_TOLD[0]] == BOTH_TOLD;
  }

  /** It commits another with server 1, which is told so. */
  lemma {:induction false} AnotherCommit(w: Watch, run: seq<Cluster>) returns (longer: seq<Cluster>)
    requires Stage(w, run, BOTH_TOLD)
    ensures Stage(w, longer, AHEAD) && GoesOn(run, longer, {})
  {
    CountsNext(w.adopt);
    var taken := Peering(0, 1, 0, [F, X, Y], Leader, 2, 1, [1, 2, 2], [0, 1, 1]);
    longer := Takes(w, run, BOTH_TOLD, 0, Y.command, taken);
    var s := [taken, BOTH_TOLD[1], BOTH_TOLD[2]];
    assert Merged([F, X], 1, [Y]) == [F, X, Y] && Merged([F, X, Y], 2, []) == [F, X, Y];
    var told := Peering(1, 1, -1, [F, X, Y], Follower, 0, 1, [], []);
    longer := Replicates(w, longer, s, 0, NEXT, told, WELL, AHEAD[0]);
    s := [AHEAD[0], told, BOTH_TOLD[2]];
    longer := Replicates(w, longer, s, 0, BEAT, AHEAD[1], WELL, AHEAD[0]);
    assert s[1 := AHEAD[1]][0 := AHEAD[0]] == AHEAD;
  }

  /** The slow appends cut both others' logs, and server 2 elects server 1. */
  lemma {:induction false} Misleading(w: Watch, run: seq<Cluster>) returns (longer: seq<Cluster>)
    requires Stage(w, run, AHEAD) && LATE in Last(run).appends && LATER in Last(run).appends && !w.cut
    ensures Stage(w, longer, MISLED)
  {
    assert Merged([F, X, Y], 0, []) == [F] && Merged([F, X], 0, []) == [F];
    longer := Delivers(w, run, AHEAD, LATE, BARE[1], WELL);
    var s := [AHEAD[0], BARE[1], AHEAD[2]];
    longer := Delivers(w, longer, s, LATER, BARE[2], WELL);
    var stands := Peering(1, 2, 1, [F], Candidate, 1, 2, [], []);
    longer := Stands(w, longer, BARE, 1, stands, SECOND);
    s := [BARE[0], stands, BARE[2]];
    assert seq(3, _ => 1) == [1, 1, 1] && seq(3, _ => 0) == [0, 0, 0];
    longer := Elects(w, longer, s, Asked(2, SECOND), MISLED[2], MISLED[1]);
  }

  /** A delivered append takes a commit back: server 1 knows of two commits and has lost both entries. */
  lemma {:induction false} CommitIsTakenBack(w: Watch) returns (run: seq<Cluster>)
    requires !w.cut
    ensures WatchedRun(3, w, run) && |run| > 1 && Enabled(run[|run| - 2], AppendArrives(SHORTER))
    ensures Last(run) == After(run[|run| - 2], AppendArrives(SHORTER), w.adopt)
    ensures |Last(run).servers| == 3 && run[|run| - 2].servers[2].commitIndex == 1
    ensures Last(run).servers[2].commitIndex == 0
  {
    run := OneCommit(w);
    run := AnotherCommit(w, run);
    run := Misleading(w, run);
    assert [F][1..] == [];
    run := Dispatches(w, run, MISLED, 1, SHORTER);
    assert Merged([F], 0, []) == [F];
    WatchedPush(3, w, run, AppendArrives(SHORTER));
    run := run + [After(Last(run), AppendArrives(SHORTER), w.adopt)];
  }
}
