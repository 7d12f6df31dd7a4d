module RaftOutvoted {
  // A run of five servers, as the code is written, in which two of them commit different
  // entries at one index because a leader that is told of a newer term stays in its own.
  // No conflict is answered and no append that agrees cuts a log on the way: an append of
  // the first leader of term 3 overwrites what the second one has committed.

  import opened RaftServers
  import opened RaftClusters
  import opened RaftScripts

  const A := LogEntry(1, Command("a"))
  const B := LogEntry(2, Command("b"))
  const C := LogEntry(3, Command("c"))
  const D := LogEntry(4, Command("d"))

  /** One of five that leads nothing and has led nothing since it last started. */
  function One(me: nat, term: nat, votedFor: int, log: seq<LogEntry>): Peer {
    Peer(me, 5, term, votedFor, log, Follower, 0, 0, [], [], Saved(term, votedFor, log))
  }

  function Standing(me: nat, term: nat, log: seq<LogEntry>, votes: nat): Peer {
    Peer(me, 5, term, me, log, Candidate, votes, 0, [], [], Saved(term, me, log))
  }

  function Leading(me: nat, term: nat, log: seq<LogEntry>, next: seq<int>, match': seq<int>, commitIndex: nat): Peer {
    Peer(me, 5, term, me, log, Leader, 3, commitIndex, next, match', Saved(term, me, log))
  }

  const ONES := [1, 1, 1, 1, 1]
  const TWOS := [2, 2, 2, 2, 2]
  const NONE := [0, 0, 0, 0, 0]

  lemma Enthroned(me: nat, term: nat, log: seq<LogEntry>)
    requires me < 5 && 1 <= |log| <= 2
    ensures BecomeLeader(Standing(me, term, log, 3))
            == Leading(me, term, log, if |log| == 1 then ONES else TWOS, NONE, 0)
  {
    assert seq(5, _ => |log|) == (if |log| == 1 then ONES else TWOS) && seq(5, _ => 0) == NONE;
  }

  lemma Adds(s: Server, entry: LogEntry)
    requires s.role.Leader? && entry.term == s.term
    ensures StartCommand(s, entry.command) == Persist(s.(log := s.log + [entry]))
  {
  }

  // ---------------------------------------------------------------- two logs that differ

  const FIRST := VoteArgs(1, 0, 0, 0)
  const SPREAD := AppendCall(2, AppendArgs(1, 0, 0, 0, [A], 0))
  const SECOND := VoteArgs(2, 1, 0, 0)

  const BOOTED := [One(0, 0, -1, [F]), One(1, 0, -1, [F]), One(2, 0, -1, [F]), One(3, 0, -1, [F]), One(4, 0, -1, [F])]
  const SPREADING := [Leading(0, 1, [F, A], ONES, NONE, 0), One(1, 0, -1, [F]), One(2, 1, 0, [F, A]),
                      One(3, 0, -1, [F]), One(4, 1, 0, [F])]
  const APART := [Leading(0, 1, [F, A], ONES, NONE, 0), Leading(1, 2, [F, B], ONES, NONE, 0), One(2, 1, 0, [F, A]),
                  One(3, 2, 1, [F]), One(4, 2, 1, [F])]

  const FIRST_LED := [Leading(0, 1, [F], ONES, NONE, 0), One(1, 0, -1, [F]), One(2, 1, 0, [F]), One(3, 0, -1, [F]),
                      One(4, 1, 0, [F])]

  /** Server 0 leads term 1. */
  lemma {:induction false} FirstTerm(w: Watch) returns (run: seq<Cluster>)
    ensures Stage(w, run, FIRST_LED)
  {
    run := Boots(5, w);
    assert Boot(5).servers == BOOTED;
    run := Stands(w, run, BOOTED, 0, Standing(0, 1, [F], 1), FIRST);
    var s := BOOTED[0 := Standing(0, 1, [F], 1)];
    run := Polls(w, run, s, Asked(2, FIRST), One(2, 1, 0, [F]), Standing(0, 1, [F], 2));
    s := [Standing(0, 1, [F], 2), BOOTED[1], One(2, 1, 0, [F]), BOOTED[3], BOOTED[4]];
    Enthroned(0, 1, [F]);
    run := Elects(w, run, s, Asked(4, FIRST), One(4, 1, 0, [F]), Leading(0, 1, [F], ONES, NONE, 0));
    assert s[4 := One(4, 1, 0, [F])][0 := Leading(0, 1, [F], ONES, NONE, 0)] == FIRST_LED;
  }

  /** It takes a command and sends it to server 2. */
  lemma {:induction false} FirstCommand(w: Watch, run: seq<Cluster>) returns (longer: seq<Cluster>)
    requires Stage(w, run, FIRST_LED)
    ensures Stage(w, longer, SPREADING)
  {
    Adds(FIRST_LED[0], A);
    assert [F] + [A] == [F, A] && [F, A][1..] == [A] && Merged([F], 0, [A]) == [F, A];
    longer := Takes(w, run, FIRST_LED, 0, A.command, SPREADING[0]);
    var s := FIRST_LED[0 := SPREADING[0]];
    longer := Dispatches(w, longer, s, 0, SPREAD);
    longer := Delivers(w, longer, s, SPREAD, One(2, 1, 0, [F, A]), AppendReply(1, true, -1, -1));
    assert s[2 := One(2, 1, 0, [F, A])] == SPREADING;
  }

  /** Server 1 leads term 2 and takes another. */
  lemma {:induction false} SecondTerm(w: Watch, run: seq<Cluster>) returns (longer: seq<Cluster>)
    requires Stage(w, run, SPREADING)
    ensures Stage(w, longer, APART)
  {
    longer := Stands(w, run, SPREADING, 1, Standing(1, 1, [F], 1), VoteArgs(1, 1, 0, 0));
    var s := SPREADING[1 := Standing(1, 1, [F], 1)];
    longer := Stands(w, longer, s, 1, Standing(1, 2, [F], 1), SECOND);
    s := [s[0], Standing(1, 2, [F], 1), s[2], s[3], s[4]];
    longer := Polls(w, longer, s, Asked(3, SECOND), One(3, 2, 1, [F]), Standing(1, 2, [F], 2));
    s := [s[0], Standing(1, 2, [F], 2), s[2], One(3, 2, 1, [F]), s[4]];
    Enthroned(1, 2, [F]);
    longer := Elects(w, longer, s, Asked(4, SECOND), One(4, 2, 1, [F]), Leading(1, 2, [F], ONES, NONE, 0));
    s := [s[0], Leading(1, 2, [F], ONES, NONE, 0), s[2], s[3], One(4, 2, 1, [F])];
    Adds(s[1], B);
    assert [F] + [B] == [F, B];
    longer := Takes(w, longer, s, 1, B.command, APART[1]);
    assert s[1 := APART[1]] == APART;
  }

  // ---------------------------------------------------------------- the first leader of term 3

  const THIRD := VoteArgs(3, 0, 1, 1)
  const PROBE := AppendCall(4, AppendArgs(3, 0, 1, 1, [], 0))
  const STALE := AppendCall(4, AppendArgs(3, 0, 0, 0, [A], 0))

  const REIGNING := [Leading(0, 3, [F, A], TWOS, NONE, 0), Leading(1, 2, [F, B], ONES, NONE, 0), One(2, 3, 0, [F, A]),
                     One(3, 2, 1, [F]), One(4, 3, 0, [F])]
  const PROBED := REIGNING[0 := Leading(0, 3, [F, A], [2, 2, 2, 2, 1], NONE, 0)]

  /** Server 0 leads term 3. */
  lemma {:induction false} ThirdTerm(w: Watch, run: seq<Cluster>) returns (longer: seq<Cluster>)
    requires Stage(w, run, APART)
    ensures Stage(w, longer, REIGNING)
  {
    longer := Fails(w, run, APART, 0, One(0, 1, 0, [F, A]));
    var s := APART[0 := One(0, 1, 0, [F, A])];
    longer := Stands(w, longer, s, 0, Standing(0, 2, [F, A], 1), VoteArgs(2, 0, 1, 1));
    s := s[0 := Standing(0, 2, [F, A], 1)];
    longer := Stands(w, longer, s, 0, Standing(0, 3, [F, A], 1), THIRD);
    s := [Standing(0, 3, [F, A], 1), APART[1], APART[2], APART[3], APART[4]];
    longer := Polls(w, longer, s, Asked(2, THIRD), One(2, 3, 0, [F, A]), Standing(0, 3, [F, A], 2));
    s := [Standing(0, 3, [F, A], 2), s[1], One(2, 3, 0, [F, A]), s[3], s[4]];
    Enthroned(0, 3, [F, A]);
    longer := Elects(w, longer, s, Asked(4, THIRD), One(4, 3, 0, [F]), REIGNING[0]);
    assert s[4 := One(4, 3, 0, [F])][0 := REIGNING[0]] == REIGNING;
  }

  lemma NothingCommits(s: Server)
    requires s.role.Leader? && s.peers == 5 && |s.log| == 2 && s.log[0].term < s.term && s.log[1].term < s.term
    requires s.commitIndex == 0
    ensures Committed(s, |s.log|) == 0
  {
    assert !Replicated(s, 0) && !Replicated(s, 1);
    assert Committed(s, 1) == 0;
  }

  /** It finds that server 4 has nothing, and sends it its log, slowly. */
  lemma {:induction false} Probing(w: Watch, run: seq<Cluster>) returns (longer: seq<Cluster>)
    requires Stage(w, run, REIGNING)
    ensures Stage(w, longer, PROBED) && STALE in Last(longer).appends
  {
    assert [F, A][2..] == [] && [F, A][1..] == [A];
    assert TWOS[4 := 1] == [2, 2, 2, 2, 1] && NONE[4 := 0] == NONE;
    NothingCommits(PROBED[0]);
    longer := Replicates(w, run, REIGNING, 0, PROBE, REIGNING[4], AppendReply(3, false, 1, -1), PROBED[0]);
    assert REIGNING[4 := REIGNING[4]][0 := PROBED[0]] == PROBED;
    longer := Dispatches(w, longer, PROBED, 0, STALE);
  }

  // ---------------------------------------------------------------- the second leader of term 3

  const RIVAL := VoteArgs(3, 1, 1, 2)
  const FOURTH := VoteArgs(4, 2, 1, 1)
  const BEAT := AppendCall(2, AppendArgs(3, 0, 1, 1, [], 0))
  const NEWS := AppendAnswer(BEAT, AppendReply(4, false, -1, -1))

  /** Server 0 once it has stepped down into term 3. */
  function Stepped(votedFor: int): Peer {
    PROBED[0].(role := Follower, votedFor := votedFor, saved := Saved(3, votedFor, [F, A]))
  }

  const RESTLESS := [PROBED[0], Standing(1, 3, [F, B], 2), Standing(2, 4, [F, A], 1), One(3, 3, 1, [F]),
                     One(4, 3, 0, [F])]
  const RELAPSED := [Stepped(1), Leading(1, 3, [F, B, C], TWOS, NONE, 0), Standing(2, 4, [F, A], 1), One(3, 3, 1, [F]),
                     One(4, 3, 0, [F])]

  ghost predicate Waiting(run: seq<Cluster>) {
    && run != [] && STALE in Last(run).appends
    && Asked(0, FOURTH) in Last(run).votes && Asked(4, FOURTH) in Last(run).votes
  }

  /** Server 1 stands for term 3 with one vote, and server 2 for term 4. */
  lemma {:induction false} Unrest(w: Watch, run: seq<Cluster>) returns (longer: seq<Cluster>)
    requires Stage(w, run, PROBED) && STALE in Last(run).appends
    ensures Stage(w, longer, RESTLESS) && Waiting(longer) && Asked(0, RIVAL) in Last(longer).votes
  {
    longer := Fails(w, run, PROBED, 1, One(1, 2, 1, [F, B]));
    var s := PROBED[1 := One(1, 2, 1, [F, B])];
    longer := Stands(w, longer, s, 1, Standing(1, 3, [F, B], 1), RIVAL);
    s := [s[0], Standing(1, 3, [F, B], 1), s[2], s[3], s[4]];
    longer := Polls(w, longer, s, Asked(3, RIVAL), One(3, 3, 1, [F]), Standing(1, 3, [F, B], 2));
    s := [s[0], Standing(1, 3, [F, B], 2), s[2], One(3, 3, 1, [F]), s[4]];
    longer := Stands(w, longer, s, 2, Standing(2, 4, [F, A], 1), FOURTH);
    assert s[2 := Standing(2, 4, [F, A], 1)] == RESTLESS;
  }

  /** Server 0 hears of term 4, steps down into term 3, and elects server 1, which takes a command. */
  lemma {:induction false} Relapse(w: Watch, run: seq<Cluster>) returns (longer: seq<Cluster>)
    requires Stage(w, run, RESTLESS) && Waiting(run) && Asked(0, RIVAL) in Last(run).votes && !w.adopt && !w.news
    ensures Stage(w, longer, RELAPSED) && Waiting(longer)
  {
    assert [F, A][2..] == [] && [F, B] + [C] == [F, B, C] && RESTLESS[2 := RESTLESS[2]] == RESTLESS;
    longer := Dispatches(w, run, RESTLESS, 0, BEAT);
    longer := Delivers(w, longer, RESTLESS, BEAT, RESTLESS[2], NEWS.reply);
    longer := Returns(w, longer, RESTLESS, NEWS, Stepped(-1));
    var s := [Stepped(-1), RESTLESS[1], RESTLESS[2], RESTLESS[3], RESTLESS[4]];
    Enthroned(1, 3, [F, B]);
    longer := Elects(w, longer, s, Asked(0, RIVAL), Stepped(1), Leading(1, 3, [F, B], TWOS, NONE, 0));
    s := [Stepped(1), Leading(1, 3, [F, B], TWOS, NONE, 0), s[2], s[3], s[4]];
    Adds(s[1], C);
    longer := Takes(w, longer, s, 1, C.command, RELAPSED[1]);
    assert s[1 := RELAPSED[1]] == RELAPSED;
  }

  // ---------------------------------------------------------------- it commits, and is overwritten

  const FAR := [AppendCall(3, AppendArgs(3, 1, 1, 2, [C], 0)), AppendCall(4, AppendArgs(3, 1, 1, 2, [C], 0))]
  const NEAR := [AppendCall(3, AppendArgs(3, 1, 0, 0, [B, C], 0)), AppendCall(4, AppendArgs(3, 1, 0, 0, [B, C], 0))]
  const REFUSED := AppendReply(3, false, 1, -1)
  const TAKEN := AppendReply(3, true, -1, -1)

  lemma Held(m: seq<int>, me: nat)
    requires |m| == 5 && me < 5
    ensures Holding(m, me, 2, 5) == Bit(me != 0 && m[0] >= 2) + Bit(me != 1 && m[1] >= 2) + Bit(me != 2 && m[2] >= 2)
                                    + Bit(me != 3 && m[3] >= 2) + Bit(me != 4 && m[4] >= 2)
  {
    assert Holding(m, me, 2, 1) == Bit(me != 0 && m[0] >= 2);
    assert Holding(m, me, 2, 2) == Holding(m, me, 2, 1) + Bit(me != 1 && m[1] >= 2);
    assert Holding(m, me, 2, 3) == Holding(m, me, 2, 2) + Bit(me != 2 && m[2] >= 2);
    assert Holding(m, me, 2, 4) == Holding(m, me, 2, 3) + Bit(me != 3 && m[3] >= 2);
  }

  /** A leader whose one entry of its term is at index 2 commits it once two others hold it. */
  lemma CommitsAtTwo(s: Server)
    requires s.role.Leader? && s.peers == 5 && |s.log| == 3 && s.commitIndex == 0
    requires s.log[0].term < s.term && s.log[1].term < s.term && s.log[2].term == s.term
    ensures Committed(s, |s.log|) == if Holding(s.matchIndex, s.me, 2, 5) >= 2 then 2 else 0
  {
    assert !Replicated(s, 0) && !Replicated(s, 1);
    assert Committed(s, 1) == 0 && Committed(s, 2) == 0;
  }

  /** Server 1 as leader of term 3. */
  function Second(next3: int, next4: int, match3: int, match4: int, commitIndex: nat): Peer {
    Leading(1, 3, [F, B, C], [2, 2, 2, next3, next4], [0, 0, 0, match3, match4], commitIndex)
  }

  lemma SecondCommits(next3: int, next4: int, match3: int, match4: int)
    requires 0 <= match3 <= 2 && 0 <= match4 <= 2
    ensures Committed(Second(next3, next4, match3, match4, 0), 3) == if match3 == 2 && match4 == 2 then 2 else 0
  {
    var s := Second(next3, next4, match3, match4, 0);
    Held(s.matchIndex, 1);
    CommitsAtTwo(s);
  }

  lemma SecondHears3(adopt: bool)
    ensures AppendReturned(Second(2, 2, 0, 0, 0), 3, FAR[0].args, REFUSED, adopt) == Second(1, 2, 0, 0, 0)
    ensures AppendReturned(Second(1, 2, 0, 0, 0), 3, NEAR[0].args, TAKEN, adopt) == Second(3, 2, 2, 0, 0)
  {
    SecondCommits(1, 2, 0, 0);
    SecondCommits(3, 2, 2, 0);
    assert [2, 2, 2, 2, 2][3 := 1] == [2, 2, 2, 1, 2] && [0, 0, 0, 0, 0][3 := 0] == [0, 0, 0, 0, 0];
    assert [2, 2, 2, 1, 2][3 := 3] == [2, 2, 2, 3, 2] && [0, 0, 0, 0, 0][3 := 2] == [0, 0, 0, 2, 0];
  }

  lemma SecondHears4(adopt: bool)
    ensures AppendReturned(Second(3, 2, 2, 0, 0), 4, FAR[1].args, REFUSED, adopt) == Second(3, 1, 2, 0, 0)
    ensures AppendReturned(Second(3, 1, 2, 0, 0), 4, NEAR[1].args, TAKEN, adopt) == Second(3, 3, 2, 2, 2)
  {
    SecondCommits(3, 1, 2, 0);
    SecondCommits(3, 3, 2, 2);
    assert [2, 2, 2, 3, 2][4 := 1] == [2, 2, 2, 3, 1] && [0, 0, 0, 2, 0][4 := 0] == [0, 0, 0, 2, 0];
    assert [2, 2, 2, 3, 1][4 := 3] == [2, 2, 2, 3, 3] && [0, 0, 0, 2, 0][4 := 2] == [0, 0, 0, 2, 2];
  }

  lemma SecondSends(next3: int, next4: int, match3: int, match4: int)
    ensures next3 == 2 ==> AppendFor(Second(next3, next4, match3, match4, 0), 3) == FAR[0].args
    ensures next3 == 1 ==> AppendFor(Second(next3, next4, match3, match4, 0), 3) == NEAR[0].args
    ensures next4 == 2 ==> AppendFor(Second(next3, next4, match3, match4, 0), 4) == FAR[1].args
    ensures next4 == 1 ==> AppendFor(Second(next3, next4, match3, match4, 0), 4) == NEAR[1].args
  {
    assert [F, B, C][2..] == [C] && [F, B, C][1..] == [B, C];
  }

  lemma FollowerTakes(s: Server, args: AppendArgs)
    requires (s == One(3, 3, 1, [F]) && args == NEAR[0].args) || (s == One(4, 3, 0, [F]) && args == NEAR[1].args)
    ensures ProcessAppend(s, args) == (One(s.me, 3, s.votedFor, [F, B, C]), TAKEN)
  {
    assert Merged([F], 0, [B, C]) == [F, B, C];
  }

  const COMMITTED := [Stepped(1), Second(3, 3, 2, 2, 2), Standing(2, 4, [F, A], 1), One(3, 3, 1, [F, B, C]),
                      One(4, 3, 0, [F, B, C])]
  const OVERWRITTEN := COMMITTED[4 := One(4, 3, 0, [F, A])]

  const HALFWAY := [Stepped(1), Second(3, 2, 2, 0, 0), RELAPSED[2], COMMITTED[3], RELAPSED[4]]

  /** Server 1 sends its command to server 3, whose log is short at first. */
  lemma {:induction false} FirstCopy(w: Watch, run: seq<Cluster>) returns (longer: seq<Cluster>)
    requires Stage(w, run, RELAPSED) && Waiting(run)
    ensures Stage(w, longer, HALFWAY) && Waiting(longer)
  {
    SecondHears3(w.adopt);
    SecondSends(2, 2, 0, 0);
    longer := Replicates(w, run, RELAPSED, 1, FAR[0], RELAPSED[3], REFUSED, Second(1, 2, 0, 0, 0));
    var s := [Stepped(1), Second(1, 2, 0, 0, 0), RELAPSED[2], RELAPSED[3], RELAPSED[4]];
    SecondSends(1, 2, 0, 0);
    FollowerTakes(s[3], NEAR[0].args);
    longer := Replicates(w, longer, s, 1, NEAR[0], COMMITTED[3], TAKEN, HALFWAY[1]);
    assert s[3 := COMMITTED[3]][1 := HALFWAY[1]] == HALFWAY;
  }

  /** And to server 4; then it commits. */
  lemma {:induction false} SecondCopy(w: Watch, run: seq<Cluster>) returns (longer: seq<Cluster>)
    requires Stage(w, run, HALFWAY) && Waiting(run)
    ensures Stage(w, longer, COMMITTED) && Waiting(longer)
  {
    SecondHears4(w.adopt);
    SecondSends(3, 2, 2, 0);
    longer := Replicates(w, run, HALFWAY, 1, FAR[1], HALFWAY[4], REFUSED, Second(3, 1, 2, 0, 0));
    var s := [Stepped(1), Second(3, 1, 2, 0, 0), HALFWAY[2], HALFWAY[3], HALFWAY[4]];
    SecondSends(3, 1, 2, 0);
    FollowerTakes(s[4], NEAR[1].args);
    longer := Replicates(w, longer, s, 1, NEAR[1], COMMITTED[4], TAKEN, COMMITTED[1]);
    assert s[4 := COMMITTED[4]][1 := COMMITTED[1]] == COMMITTED;
  }

  /** The slow append of the first leader overwrites it on server 4: neither a conflict nor an append that agrees. */
  lemma {:induction false} Overwriting(w: Watch, run: seq<Cluster>) returns (longer: seq<Cluster>)
    requires Stage(w, run, COMMITTED) && Waiting(run)
    ensures Stage(w, longer, OVERWRITTEN) && Waiting(longer)
  {
    assert Agreeing([F, B, C], 1, [A]) == 0;
    assert Merged([F, B, C], 0, [A]) == [F, A];
    longer := Delivers(w, run, COMMITTED, STALE, One(4, 3, 0, [F, A]), TAKEN);
  }

  // ---------------------------------------------------------------- another leader commits

  const LAST := [AppendCall(4, AppendArgs(4, 2, 1, 1, [D], 0)), AppendCall(0, AppendArgs(4, 2, 1, 1, [D], 0))]
  const DONE := AppendReply(4, true, -1, -1)

  /** Server 0 in term 4. */
  function Voted(log: seq<LogEntry>): Peer {
    Stepped(1).(term := 4, votedFor := 2, log := log, saved := Saved(4, 2, log))
  }

  /** Server 2 as leader of term 4. */
  function Fourth(log: seq<LogEntry>, next0: int, next4: int, match0: int, match4: int, commitIndex: nat): Peer {
    Leading(2, 4, log, [next0, 2, 2, 2, next4], [match0, 0, 0, 0, match4], commitIndex)
  }

  const ELECTED := [Voted([F, A]), COMMITTED[1], Fourth([F, A, D], 2, 2, 0, 0, 0), COMMITTED[3], One(4, 4, 2, [F, A])]

  /** Servers 0 and 4 elect server 2 for term 4. */
  lemma {:induction false} FourthTerm(w: Watch, run: seq<Cluster>) returns (longer: seq<Cluster>)
    requires Stage(w, run, OVERWRITTEN) && Waiting(run)
    ensures Stage(w, longer, ELECTED)
  {
    longer := Polls(w, run, OVERWRITTEN, Asked(0, FOURTH), Voted([F, A]), Standing(2, 4, [F, A], 2));
    var s := [Voted([F, A]), COMMITTED[1], Standing(2, 4, [F, A], 2), COMMITTED[3], OVERWRITTEN[4]];
    Enthroned(2, 4, [F, A]);
    longer := Elects(w, longer, s, Asked(4, FOURTH), ELECTED[4], Leading(2, 4, [F, A], TWOS, NONE, 0));
    s := [s[0], s[1], Leading(2, 4, [F, A], TWOS, NONE, 0), s[3], ELECTED[4]];
    Adds(s[2], D);
    assert [F, A] + [D] == [F, A, D];
    longer := Takes(w, longer, s, 2, D.command, ELECTED[2]);
    assert s[2 := ELECTED[2]] == ELECTED;
  }

  lemma FourthCommits(next0: int, match0: int)
    requires 0 <= match0 <= 2
    ensures Committed(Fourth([F, A, D], next0, 3, match0, 2, 0), 3) == if match0 == 2 then 2 else 0
  {
    var s := Fourth([F, A, D], next0, 3, match0, 2, 0);
    Held(s.matchIndex, 2);
    CommitsAtTwo(s);
  }

  lemma {:induction false} FourthHears(adopt: bool)
    ensures AppendReturned(Fourth([F, A, D], 2, 2, 0, 0, 0), 4, LAST[0].args, DONE, adopt)
            == Fourth([F, A, D], 2, 3, 0, 2, 0)
    ensures AppendReturned(Fourth([F, A, D], 2, 3, 0, 2, 0), 0, LAST[1].args, DONE, adopt)
            == Fourth([F, A, D], 3, 3, 2, 2, 2)
  {
    FourthCommits(2, 0);
    FourthCommits(3, 2);
    assert [2, 2, 2, 2, 2][4 := 3] == [2, 2, 2, 2, 3] && [0, 0, 0, 0, 0][4 := 2] == [0, 0, 0, 0, 2];
    assert [2, 2, 2, 2, 3][0 := 3] == [3, 2, 2, 2, 3] && [0, 0, 0, 0, 2][0 := 2] == [2, 0, 0, 0, 2];
  }

  lemma FourthSends(next4: int, match4: int)
    ensures AppendFor(Fourth([F, A, D], 2, next4, 0, match4, 0), 0) == LAST[1].args
    ensures next4 == 2 ==> AppendFor(Fourth([F, A, D], 2, next4, 0, match4, 0), 4) == LAST[0].args
    ensures Merged([F, A], 1, [D]) == [F, A, D]
  {
    assert [F, A, D][2..] == [D];
  }

  /** Two servers commit different entries at one index, and only the newer-term branch is needed for it. */
  lemma {:induction false} CommitsDisagreeRelapsed(w: Watch)
    requires !w.adopt && !w.news
    ensures exists run :: WatchedRun(5, w, run) && !CommitsAgree(run)
  {
    var run := FirstTerm(w);
    run := FirstCommand(w, run);
    run := SecondTerm(w, run);
    run := ThirdTerm(w, run);
    run := Probing(w, run);
    run := Unrest(w, run);
    run := Relapse(w, run);
    run := FirstCopy(w, run);
    run := SecondCopy(w, run);
    run := Overwriting(w, run);
    run := FourthTerm(w, run);
    FourthHears(w.adopt);
    FourthSends(2, 0);
    run := Replicates(w, run, ELECTED, 2, LAST[0], One(4, 4, 2, [F, A, D]), DONE, Fourth([F, A, D], 2, 3, 0, 2, 0));
    var s := [ELECTED[0], ELECTED[1], Fourth([F, A, D], 2, 3, 0, 2, 0), ELECTED[3], One(4, 4, 2, [F, A, D])];
    FourthSends(3, 2);
    run := Replicates(w, run, s, 2, LAST[1], Voted([F, A, D]), DONE, Fourth([F, A, D], 3, 3, 2, 2, 2));
    var last := |run| - 1;
    assert run[last].servers[1] == COMMITTED[1] && run[last].servers[2] == Fourth([F, A, D], 3, 3, 2, 2, 2);
    assert BothCommit(run, last, 1, last, 2, 2) && run[last].servers[1].log[2] != run[last].servers[2].log[2];
  }
}
