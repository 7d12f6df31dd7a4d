module RaftRelapses {
  // What staying in its own term costs a leader that is told of a newer one: the
  // vote it is free to give again makes a second leader of the same term, the second
  // leader's log is cut by the first one's appends, and two logs come to differ in an
  // entry of the same term at the same index.

  import opened RaftServers
  import opened RaftClusters
  import opened RaftMatchings
  import opened RaftScripts

  // ---------------------------------------------------------------- a run of three servers, as the code is written

  const X := LogEntry(1, Command("x"))
  const Y := LogEntry(1, Command("y"))

  const ZERO := VoteArgs(1, 0, 0, 0)
  const ONE := VoteArgs(1, 1, 0, 0)
  const SLOW := AppendCall(1, AppendArgs(1, 0, 0, 0, [], 0))
  const FAST := AppendCall(2, AppendArgs(1, 0, 0, 0, [], 0))
  const NEWS := AppendAnswer(FAST, AppendReply(2, false, -1, -1))
  const COPY := AppendCall(0, AppendArgs(1, 1, 0, 0, [X], 0))
  const ECHO := AppendAnswer(COPY, AppendReply(1, true, -1, -1))
  const AGAIN := AppendCall(0, AppendArgs(1, 1, 0, 0, [Y], 0))
  const AGREED := AppendAnswer(AGAIN, AppendReply(1, true, -1, -1))

  /** One of three that has led nothing and committed nothing. */
  function One(me: nat, term: nat, votedFor: int, log: seq<LogEntry>, role: Role, voteCount: nat): Peer {
    Peer(me, 3, term, votedFor, log, role, voteCount, 0, [], [], Saved(term, votedFor, log))
  }

  /** One that leads, or has led, since its log was empty, and has heard nothing back. */
  function Led(me: nat, term: nat, votedFor: int, log: seq<LogEntry>, role: Role): Peer {
    Peer(me, 3, term, votedFor, log, role, 2, 0, [1, 1, 1], [0, 0, 0], Saved(term, votedFor, log))
  }

  /** Server 1 once server 0's copy of its entry has been counted. */
  function Counting(log: seq<LogEntry>): Peer {
    Peer(1, 3, 1, 1, log, Leader, 2, 1, [2, 1, 1], [1, 0, 0], Saved(1, 1, log))
  }

  lemma Begins(w: Watch) returns (run: seq<Cluster>)
    ensures Stage(w, run,
                  [One(0, 0, -1, [F], Follower, 0), One(1, 0, -1, [F], Follower, 0), One(2, 0, -1, [F], Follower, 0)])
  {
    run := Boots(3, w);
    assert Boot(3).servers
           == [One(0, 0, -1, [F], Follower, 0), One(1, 0, -1, [F], Follower, 0), One(2, 0, -1, [F], Follower, 0)];
  }

  lemma Enthroned(me: nat, term: nat)
    requires me < 3
    ensures BecomeLeader(One(me, term, me, [F], Candidate, 2)) == Led(me, term, me, [F], Leader)
  {
    assert seq(3, _ => 1) == [1, 1, 1] && seq(3, _ => 0) == [0, 0, 0];
  }

  lemma Adds(s: Server, command: Command)
    requires s.log == [F] && s.role.Leader?
    ensures StartCommand(s, command).log == [F, LogEntry(s.term, command)]
  {
    assert [F] + [LogEntry(s.term, command)] == [F, LogEntry(s.term, command)];
  }

  lemma SendsOne(me: nat, term: nat, entry: LogEntry, to: nat)
    requires me < 3 && to < 3
    ensures AppendFor(Led(me, term, me, [F, entry], Leader), to) == AppendArgs(term, me, 0, 0, [entry], 0)
  {
    assert [F, entry][1..] == [entry];
  }

  lemma Copies(entry: LogEntry)
    ensures Merged([F], 0, [entry]) == [F, entry] && Merged([F, entry], 0, []) == [F]
  {
  }

  /** The terms agree, so the entry sent is taken for the one held. */
  lemma KeepsItsOwn()
    ensures ProcessAppend(Led(0, 1, 1, [F, X], Follower), AGAIN.args) == (Led(0, 1, 1, [F, X], Follower), AGREED.reply)
  {
    assert Agreeing([F, X], 1, [Y]) == 1;
    assert Merged([F, X], 0, [Y]) == [F, X];
  }

  lemma CountsTheCopy()
    ensures AppendReturned(Led(1, 1, 1, [F, X], Leader), 0, COPY.args, ECHO.reply, false) == Counting([F, X])
  {
    var s := Led(1, 1, 1, [F, X], Leader);
    var u := s.(nextIndex := [2, 1, 1], matchIndex := [1, 0, 0]);
    assert s.nextIndex[0 := 2] == u.nextIndex && s.matchIndex[0 := 1] == u.matchIndex;
    HeldByThree(u.matchIndex, 1, 1);
    assert Replicated(u, 1) && Committed(u, 2) == 1;
  }

  const REIGNING := [Led(0, 1, 0, [F], Leader), One(1, 0, -1, [F], Follower, 0), One(2, 1, 0, [F], Follower, 0)]
  const RESTLESS := [Led(0, 1, 0, [F], Leader), One(1, 1, 1, [F], Candidate, 1), One(2, 2, 2, [F], Candidate, 1)]
  const REPLICATED := [Led(0, 1, 1, [F, X], Follower), Led(1, 1, 1, [F, X], Leader), One(2, 2, 2, [F], Candidate, 1)]
  const TRUNCATED := REPLICATED[1 := Led(1, 1, 1, [F, Y], Leader)]

  /** Server 0 is elected for term 1 by server 2 and sends an append to each of the others; that to server 1 is slow. */
  lemma {:induction false} FirstReign() returns (run: seq<Cluster>)
    ensures Stage(AS_WRITTEN, run, REIGNING) && SLOW in Last(run).appends && FAST in Last(run).appends
  {
    run := Begins(AS_WRITTEN);
    var s := [One(0, 0, -1, [F], Follower, 0), One(1, 0, -1, [F], Follower, 0), One(2, 0, -1, [F], Follower, 0)];
    run := Stands(AS_WRITTEN, run, s, 0, One(0, 1, 0, [F], Candidate, 1), ZERO);
    s := [One(0, 1, 0, [F], Candidate, 1), s[1], s[2]];
    Enthroned(0, 1);
    run := Elects(AS_WRITTEN, run, s, Asked(2, ZERO), One(2, 1, 0, [F], Follower, 0), Led(0, 1, 0, [F], Leader));
    run := Dispatches(AS_WRITTEN, run, REIGNING, 0, SLOW);
    run := Dispatches(AS_WRITTEN, run, REIGNING, 0, FAST);
  }

  /** Servers 1 and 2 time out, for terms 1 and 2; server 0 hears of it and steps down into term 1. */
  lemma {:induction false} Relapse(run: seq<Cluster>) returns (longer: seq<Cluster>)
    requires Stage(AS_WRITTEN, run, REIGNING) && SLOW in Last(run).appends && FAST in Last(run).appends
    ensures Stage(AS_WRITTEN, longer, RESTLESS[0 := Led(0, 1, -1, [F], Follower)]) && GoesOn(run, longer, {})
    ensures Asked(0, ONE) in Last(longer).votes
  {
    var s := REIGNING[1 := One(1, 1, 1, [F], Candidate, 1)];
    longer := Stands(AS_WRITTEN, run, REIGNING, 1, s[1], ONE);
    longer := Stands(AS_WRITTEN, longer, s, 2, One(2, 2, 2, [F], Candidate, 1), VoteArgs(2, 2, 0, 0));
    assert s[2 := One(2, 2, 2, [F], Candidate, 1)] == RESTLESS == RESTLESS[2 := RESTLESS[2]];
    longer := Delivers(AS_WRITTEN, longer, RESTLESS, FAST, RESTLESS[2], NEWS.reply);
    longer := Returns(AS_WRITTEN, longer, RESTLESS, NEWS, Led(0, 1, -1, [F], Follower));
  }

  /** Server 0 votes again in term 1; server 1 becomes its second leader, and its command reaches server 0. */
  lemma {:induction false} SecondReign(run: seq<Cluster>) returns (longer: seq<Cluster>)
    requires Stage(AS_WRITTEN, run, RESTLESS[0 := Led(0, 1, -1, [F], Follower)]) && Asked(0, ONE) in Last(run).votes
    ensures Stage(AS_WRITTEN, longer, REPLICATED)
    ensures GoesOn(run, longer, {Asked(0, ONE)}) && ECHO in Last(longer).answers
  {
    var s := RESTLESS[0 := Led(0, 1, -1, [F], Follower)];
    Enthroned(1, 1);
    longer := Elects(AS_WRITTEN, run, s, Asked(0, ONE), Led(0, 1, 1, [F], Follower), Led(1, 1, 1, [F], Leader));
    s := [Led(0, 1, 1, [F], Follower), Led(1, 1, 1, [F], Leader), RESTLESS[2]];
    Adds(s[1], Command("x"));
    longer := Takes(AS_WRITTEN, longer, s, 1, Command("x"), Led(1, 1, 1, [F, X], Leader));
    s := [s[0], Led(1, 1, 1, [F, X], Leader), RESTLESS[2]];
    SendsOne(1, 1, X, 0);
    longer := Dispatches(AS_WRITTEN, longer, s, 1, COPY);
    Copies(X);
    longer := Delivers(AS_WRITTEN, longer, s, COPY, Led(0, 1, 1, [F, X], Follower), ECHO.reply);
  }

  /** The slow append cuts the command from server 1, which then takes another. */
  lemma {:induction false} Truncation(run: seq<Cluster>) returns (longer: seq<Cluster>)
    requires Stage(AS_WRITTEN, run, REPLICATED) && SLOW in Last(run).appends
    ensures Stage(AS_WRITTEN, longer, TRUNCATED) && GoesOn(run, longer, {})
  {
    Copies(X);
    longer := Delivers(AS_WRITTEN, run, REPLICATED, SLOW, Led(1, 1, 1, [F], Leader), AppendReply(1, true, -1, -1));
    var s := REPLICATED[1 := Led(1, 1, 1, [F], Leader)];
    Adds(s[1], Command("y"));
    longer := Takes(AS_WRITTEN, longer, s, 1, Command("y"), Led(1, 1, 1, [F, Y], Leader));
  }

  /** Or the command is counted and committed first, and then cut. */
  lemma {:induction false} Overrun(run: seq<Cluster>) returns (longer: seq<Cluster>, p: nat)
    requires Stage(AS_WRITTEN, run, REPLICATED) && SLOW in Last(run).appends && ECHO in Last(run).answers
    ensures Stage(AS_WRITTEN, longer, REPLICATED[1 := Counting([F])])
    ensures p < |longer| && longer[p].servers == REPLICATED[1 := Counting([F, X])]
  {
    CountsTheCopy();
    longer := Returns(AS_WRITTEN, run, REPLICATED, ECHO, Counting([F, X]));
    p := |longer| - 1;
    Copies(X);
    longer := Delivers(AS_WRITTEN, longer, REPLICATED[1 := Counting([F, X])], SLOW, Counting([F]),
                       AppendReply(1, true, -1, -1));
  }

  // ---------------------------------------------------------------- what it shows

  /** As written, a term can have two leaders one after the other. */
  lemma {:induction false} TwoReigns() returns (run: seq<Cluster>, p: nat)
    ensures Stage(AS_WRITTEN, run, REPLICATED) && SLOW in Last(run).appends && ECHO in Last(run).answers
    ensures p < |run| && run[p].servers == REIGNING
  {
    var first := FirstReign();
    p := |first| - 1;
    run := Relapse(first);
    run := SecondReign(run);
  }

  /**
   As written, a term can have two leaders one after the other, a leader can lose an entry of its log, and Log
   Matching fails.
   */
  lemma {:induction false} TermsRelapse() returns (run: seq<Cluster>, p: nat, q: nat)
    ensures Stage(AS_WRITTEN, run, TRUNCATED) && Run(3, false, run) && p < |run| && q < |run|
    ensures run[p].servers == REIGNING && run[q].servers == REPLICATED
    ensures !Matching(Last(run))
  {
    var before;
    before, p := TwoReigns();
    q := |before| - 1;
    run := Truncation(before);
    WatchedIsRun(3, AS_WRITTEN, run);
    var a, b := TRUNCATED[0].log, TRUNCATED[1].log;
    assert a[1].term == b[1].term && a[..2][1] != b[..2][1];
    assert !Matches(a, b);
  }

  // ---------------------------------------------------------------- exactly what adopting the newer term buys

  /** Server a leads at moment p and server b at moment q, in the same term. */
  ghost predicate LeadAlike(run: seq<Cluster>, p: nat, a: nat, q: nat, b: nat) {
    && p < |run| && q < |run| && a < |run[p].servers| && b < |run[q].servers|
    && run[p].servers[a].role.Leader? && run[q].servers[b].role.Leader?
    && run[p].servers[a].term == run[q].servers[b].term
  }

  ghost predicate OneLeaderPerTerm(run: seq<Cluster>) {
    forall p: nat, a: nat, q: nat, b: nat :: LeadAlike(run, p, a, q, b) ==> a == b
  }

  ghost predicate LeadersOnlyAppend(run: seq<Cluster>) {
    forall p: nat, q: nat, a: nat :: LeadAlike(run, p, a, q, a) && p <= q ==>
      run[p].servers[a].log <= run[q].servers[a].log
  }

  ghost predicate HoldsCommitted(s: Server, t: Server) {
    forall k :: 0 <= k <= s.commitIndex && k < |s.log| ==> k < |t.log| && t.log[k] == s.log[k]
  }

  /** What a leader has committed it keeps for as long as it leads. */
  ghost predicate CommitsAreKept(run: seq<Cluster>) {
    forall p: nat, q: nat, a: nat :: LeadAlike(run, p, a, q, a) && p <= q ==>
      HoldsCommitted(run[p].servers[a], run[q].servers[a])
  }

  /** Every leader's next index for every peer lies in its log, so that building an append slices in bounds. */
  ghost predicate SendsInBounds(c: Cluster) {
    forall i, to :: 0 <= i < |c.servers| && 0 <= to < |c.servers| && c.servers[i].role.Leader? ==>
      CanSendTo(c.servers[i], to)
  }

  ghost predicate Orderly(run: seq<Cluster>)
    requires run != []
  {
    && OneLeaderPerTerm(run) && LeadersOnlyAppend(run) && CommitsAreKept(run)
    && SendsInBounds(Last(run)) && Matching(Last(run))
  }

  lemma {:induction false} AdoptingIsOrderly(n: nat, run: seq<Cluster>)
    requires Run(n, true, run)
    ensures Orderly(run)
  {
    forall p: nat, a: nat, q: nat, b: nat | LeadAlike(run, p, a, q, b) ensures a == b {
      OneLeaderEver(n, run, p, a, q, b);
    }
    forall p: nat, q: nat, a: nat | LeadAlike(run, p, a, q, a) && p <= q
      ensures run[p].servers[a].log <= run[q].servers[a].log
    {
      LeaderAppendsOnly(n, run, p, q, a);
    }
    LogMatching(n, run);
  }

  /** The cluster keeps Log Matching in all its runs exactly when a leader adopts the newer term it is told of. */
  lemma {:induction false} LogMatchingIffAdopts(adopt: bool)
    ensures adopt <==> forall n, run {:trigger Run(n, adopt, run)} :: Run(n, adopt, run) ==> Matching(Last(run))
  {
    if adopt {
      forall n, run | Run(n, adopt, run) ensures Matching(Last(run)) { AdoptingIsOrderly(n, run); }
    } else {
      var run, p, q := TermsRelapse();
    }
  }

  /** So it is with one leader ever in a term, */
  lemma {:induction false} OneLeaderIffAdopts(adopt: bool)
    ensures adopt <==> forall n, run {:trigger Run(n, adopt, run)} :: Run(n, adopt, run) ==> OneLeaderPerTerm(run)
  {
    if adopt {
      forall n, run | Run(n, adopt, run) ensures OneLeaderPerTerm(run) { AdoptingIsOrderly(n, run); }
    } else {
      var run, p, q := TermsRelapse();
      assert LeadAlike(run, p, 0, q, 1);
    }
  }

  /** with a leader's log only growing while it leads, */
  lemma {:induction false} AppendOnlyIffAdopts(adopt: bool)
    ensures adopt <==> forall n, run {:trigger Run(n, adopt, run)} :: Run(n, adopt, run) ==> LeadersOnlyAppend(run)
  {
    if adopt {
      forall n, run | Run(n, adopt, run) ensures LeadersOnlyAppend(run) { AdoptingIsOrderly(n, run); }
    } else {
      var run, p, q := TermsRelapse();
      var last := |run| - 1;
      assert LeadAlike(run, q, 1, last, 1);
      assert run[q].servers[1].log[1] != run[last].servers[1].log[1];
    }
  }

  /** As written, a leader can commit an entry, have it cut from its own log, and then slice that log out of bounds. */
  lemma {:induction false} LeaderIsOverrun() returns (run: seq<Cluster>)
    ensures Run(3, false, run) && !CommitsAreKept(run) && !SendsInBounds(Last(run))
  {
    var before, start := TwoReigns();
    var p;
    run, p := Overrun(before);
    WatchedIsRun(3, AS_WRITTEN, run);
    var q := |run| - 1;
    assert LeadAlike(run, p, 1, q, 1) && run[p].servers[1].log[1] == X;
    assert !HoldsCommitted(run[p].servers[1], run[q].servers[1]);
    assert !CanSendTo(Last(run).servers[1], 0);
  }

  /** with a leader's commits staying in its log, */
  lemma {:induction false} CommitsKeptIffAdopts(adopt: bool)
    ensures adopt <==> forall n, run {:trigger Run(n, adopt, run)} :: Run(n, adopt, run) ==> CommitsAreKept(run)
  {
    if adopt {
      forall n, run | Run(n, adopt, run) ensures CommitsAreKept(run) { AdoptingIsOrderly(n, run); }
    } else {
      var run := LeaderIsOverrun();
    }
  }

  /** and with its appends being built in bounds. */
  lemma {:induction false} InBoundsIffAdopts(adopt: bool)
    ensures adopt <==> forall n, run {:trigger Run(n, adopt, run)} :: Run(n, adopt, run) ==> SendsInBounds(Last(run))
  {
    if adopt {
      forall n, run | Run(n, adopt, run) ensures SendsInBounds(Last(run)) { AdoptingIsOrderly(n, run); }
    } else {
      var run := LeaderIsOverrun();
      assert Run(3, adopt, run) && !SendsInBounds(Last(run));
    }
  }

  // ---------------------------------------------------------------- runs that avoid the branch

  /** Every run of the code as written that never takes that branch is a run of the repaired code, and as orderly. */
  lemma {:induction false} QuietRunsMatch(n: nat, w: Watch, run: seq<Cluster>)
    requires WatchedRun(n, w, run) && w.news
    ensures Run(n, false, run) && Run(n, true, run) && Orderly(run)
  {
    forall i | 0 <= i < |run| - 1 ensures NextAt(false, run, i) && NextAt(true, run, i) {
      assert WatchedAt(w, run, i);
      var step :| Enabled(run[i], step) && Heeds(w, run[i], step) && run[i + 1] == After(run[i], step, w.adopt);
      assert After(run[i], step, true) == After(run[i], step, false);
    }
    AdoptingIsOrderly(n, run);
  }
}
