/**
 Runs written out one event at a time.
 */
module RaftScripts {
  import opened RaftServers
  import opened RaftClusters

  const F := FIRST_ENTRY

  /** The run has come to these servers, and no won election is waiting to be acted on. */
  ghost predicate Stage(w: Watch, run: seq<Cluster>, s: seq<Server>) {
    && WatchedRun(|s|, w, run) && Last(run).servers == s && Sized(Last(run))
    && forall i :: 0 <= i < |s| ==> !Last(run).won[i]
  }

  /** The run goes on; appends and answers stay in the network, and so do requests other than the one given. */
  ghost predicate GoesOn(run: seq<Cluster>, longer: seq<Cluster>, asked: set<VoteRpc>) {
    && run != [] && |run| < |longer| && run <= longer
    && Last(run).appends <= Last(longer).appends && Last(run).answers <= Last(longer).answers
    && forall v :: v in Last(run).votes && v.Asked? && v !in asked ==> v in Last(longer).votes
  }

  lemma Boots(n: nat, w: Watch) returns (run: seq<Cluster>)
    ensures Stage(w, run, Boot(n).servers)
  {
    run := [Boot(n)];
  }

  lemma Does(w: Watch, run: seq<Cluster>, s: seq<Server>, step: Step) returns (longer: seq<Cluster>)
    requires Stage(w, run, s) && Enabled(Last(run), step) && Heeds(w, Last(run), step)
    ensures longer == run + [After(Last(run), step, w.adopt)] && WatchedRun(|s|, w, longer)
    ensures Last(longer) == After(Last(run), step, w.adopt)
  {
    WatchedPush(|s|, w, run, step);
    longer := run + [After(Last(run), step, w.adopt)];
  }

  // ---------------------------------------------------------------- elections

  lemma Stands(w: Watch, run: seq<Cluster>, s: seq<Server>, i: nat, t: Server, args: VoteArgs)
    returns (longer: seq<Cluster>)
    requires Stage(w, run, s) && i < |s| && !s[i].role.Leader? && t == ElectSelf(s[i]) && args == Ballot(t)
    ensures Stage(w, longer, s[i := t]) && GoesOn(run, longer, {})
    ensures forall v: nat :: v < |s| && v != i ==> Asked(v, args) in Last(longer).votes
  {
    longer := Does(w, run, s, ElectionTimeout(i));
  }

  /** The vote `v` has been granted and counted. */
  lemma Votes(w: Watch, run: seq<Cluster>, s: seq<Server>, v: VoteRpc, t: Server, l: Server)
    returns (longer: seq<Cluster>)
    requires Stage(w, run, s) && v in Last(run).votes && v.Asked?
    requires v.voter < |s| && v.args.candidate < |s| && v.voter != v.args.candidate
    requires RequestVote(s[v.voter], v.args) == (t, VoteReply(v.args.term, true))
    requires var c := s[v.args.candidate];
             c.role.Candidate? && c.term == v.args.term && l == c.(voteCount := c.voteCount + 1)
    ensures WatchedRun(|s|, w, longer) && Sized(Last(longer)) && GoesOn(run, longer, {v})
    ensures Last(longer).servers == s[v.voter := t][v.args.candidate := l]
    ensures forall j :: 0 <= j < |s| ==>
              (Last(longer).won[j] <==> j == v.args.candidate && l.voteCount == l.peers / 2 + 1)
  {
    longer := Does(w, run, s, VoteArrives(v));
    var back := Answered(v.voter, v.args, VoteReply(v.args.term, true));
    var asking := longer;
    longer := Does(w, asking, s[v.voter := t], VoteComesBack(back, true));
  }

  lemma Polls(w: Watch, run: seq<Cluster>, s: seq<Server>, v: VoteRpc, t: Server, l: Server)
    returns (longer: seq<Cluster>)
    requires Stage(w, run, s) && v in Last(run).votes && v.Asked?
    requires v.voter < |s| && v.args.candidate < |s| && v.voter != v.args.candidate
    requires RequestVote(s[v.voter], v.args) == (t, VoteReply(v.args.term, true))
    requires var c := s[v.args.candidate];
             c.role.Candidate? && c.term == v.args.term && l == c.(voteCount := c.voteCount + 1)
    requires l.voteCount != |s| / 2 + 1
    ensures Stage(w, longer, s[v.voter := t][v.args.candidate := l]) && GoesOn(run, longer, {v})
  {
    longer := Votes(w, run, s, v, t, l);
  }

  /** The vote decides the election. */
  lemma Elects(w: Watch, run: seq<Cluster>, s: seq<Server>, v: VoteRpc, t: Server, l: Server)
    returns (longer: seq<Cluster>)
    requires Stage(w, run, s) && v in Last(run).votes && v.Asked?
    requires v.voter < |s| && v.args.candidate < |s| && v.voter != v.args.candidate
    requires RequestVote(s[v.voter], v.args) == (t, VoteReply(v.args.term, true))
    requires var c := s[v.args.candidate];
             && c.role.Candidate? && c.term == v.args.term && c.voteCount == |s| / 2
             && l == BecomeLeader(c.(voteCount := c.voteCount + 1))
    ensures Stage(w, longer, s[v.voter := t][v.args.candidate := l]) && GoesOn(run, longer, {v})
  {
    var i := v.args.candidate;
    longer := Votes(w, run, s, v, t, s[i].(voteCount := s[i].voteCount + 1));
    var won := longer;
    WatchedPush(|s|, w, won, Wins(i));
    longer := won + [After(Last(won), Wins(i), w.adopt)];
  }

  // ---------------------------------------------------------------- replication

  lemma Takes(w: Watch, run: seq<Cluster>, s: seq<Server>, i: nat, command: Command, t: Server)
    returns (longer: seq<Cluster>)
    requires Stage(w, run, s) && i < |s| && t == StartCommand(s[i], command)
    ensures Stage(w, longer, s[i := t]) && GoesOn(run, longer, {})
  {
    longer := Does(w, run, s, Starts(i, command));
  }

  lemma Dispatches(w: Watch, run: seq<Cluster>, s: seq<Server>, i: nat, a: AppendCall) returns (longer: seq<Cluster>)
    requires Stage(w, run, s) && i < |s| && a.to != i && CanSendTo(s[i], a.to) && a.args == AppendFor(s[i], a.to)
    ensures Stage(w, longer, s) && GoesOn(run, longer, {}) && a in Last(longer).appends
  {
    longer := Does(w, run, s, Sends(i, a.to));
  }

  lemma Delivers(w: Watch, run: seq<Cluster>, s: seq<Server>, a: AppendCall, t: Server, reply: AppendReply)
    returns (longer: seq<Cluster>)
    requires Stage(w, run, s) && a in Last(run).appends && a.to < |s| && ProcessAppend(s[a.to], a.args) == (t, reply)
    requires (w.conflict ==> !Clashes(s[a.to], a.args)) && (w.cut ==> !Cuts(s[a.to], a.args))
    ensures Stage(w, longer, s[a.to := t]) && GoesOn(run, longer, {}) && AppendAnswer(a, reply) in Last(longer).answers
  {
    longer := Does(w, run, s, AppendArrives(a));
  }

  lemma Returns(w: Watch, run: seq<Cluster>, s: seq<Server>, x: AppendAnswer, t: Server) returns (longer: seq<Cluster>)
    requires Stage(w, run, s) && x in Last(run).answers && x.call.args.leader < |s| && x.call.to < |s|
    requires t == AppendReturned(s[x.call.args.leader], x.call.to, x.call.args, x.reply, w.adopt)
    requires w.news ==> !IsNews(s[x.call.args.leader], x)
    ensures Stage(w, longer, s[x.call.args.leader := t]) && GoesOn(run, longer, {})
  {
    longer := Does(w, run, s, AppendComesBack(x));
  }

  /** An append is sent, delivered and answered at once. */
  lemma Replicates(w: Watch, run: seq<Cluster>, s: seq<Server>, i: nat, a: AppendCall, t: Server, reply: AppendReply,
                   l: Server)
    returns (longer: seq<Cluster>)
    requires Stage(w, run, s) && i < |s| && a.to < |s| && a.to != i
    requires CanSendTo(s[i], a.to) && a.args == AppendFor(s[i], a.to)
    requires ProcessAppend(s[a.to], a.args) == (t, reply) && reply.term == a.args.term
    requires l == AppendReturned(s[i], a.to, a.args, reply, w.adopt)
    requires (w.conflict ==> !Clashes(s[a.to], a.args)) && (w.cut ==> !Cuts(s[a.to], a.args))
    ensures Stage(w, longer, s[a.to := t][i := l]) && GoesOn(run, longer, {})
  {
    var sent := Dispatches(w, run, s, i, a);
    var delivered := Delivers(w, sent, s, a, t, reply);
    longer := Returns(w, delivered, s[a.to := t], AppendAnswer(a, reply), l);
  }

  lemma Fails(w: Watch, run: seq<Cluster>, s: seq<Server>, i: nat, t: Server) returns (longer: seq<Cluster>)
    requires Stage(w, run, s) && i < |s| && t == Restart(i, |s|, s[i].saved)
    ensures Stage(w, longer, s[i := t]) && GoesOn(run, longer, {})
  {
    longer := Does(w, run, s, Crashes(i));
  }

  // ---------------------------------------------------------------- counting three

  function Bit(b: bool): nat {
    if b then 1 else 0
  }

  /** Who of three holds an index. */
  lemma HeldByThree(m: seq<int>, me: nat, at: nat)
    requires |m| == 3 && me < 3
    ensures Holding(m, me, at, 3)
            == Bit(me != 0 && m[0] >= at) + Bit(me != 1 && m[1] >= at) + Bit(me != 2 && m[2] >= at)
  {
    assert Holding(m, me, at, 0) == 0;
    assert Holding(m, me, at, 1) == Bit(me != 0 && m[0] >= at);
    assert Holding(m, me, at, 2) == Holding(m, me, at, 1) + Bit(me != 1 && m[1] >= at);
  }
}
