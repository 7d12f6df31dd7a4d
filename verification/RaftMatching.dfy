module RaftMatchings {
  // Log Matching: if two logs hold entries of the same term at the same index, they
  // agree up to that index.  It holds in every reachable state once a leader told of
  // a newer term moves to it; a term then has one leader for good, and every entry
  // ever written is a copy out of the log of its term's leader.

  import opened RaftServers
  import opened RaftClusters
  import opened RaftElections

  /** A term's leader, the votes that made it one, and its log as it last stood in that term. */
  datatype Reign = Reign(leader: nat, voters: set<nat>, log: seq<LogEntry>)

  type Reigns = map<nat, Reign>

  // ---------------------------------------------------------------- logs

  /** Entry k is a copy of entry k of its term's leader, and so is everything before it. */
  ghost predicate EntryOk(r: Reigns, log: seq<LogEntry>, k: nat)
    requires k < |log|
  {
    && log[k].term > 0 && log[k].term in r
    && k < |r[log[k].term].log| && log[..k + 1] == r[log[k].term].log[..k + 1]
  }

  ghost predicate LogOk(r: Reigns, log: seq<LogEntry>) {
    && log != [] && log[0] == FIRST_ENTRY
    && forall k {:trigger EntryOk(r, log, k)} :: 1 <= k < |log| ==> EntryOk(r, log, k)
  }

  /** The same term at the same index means the same log up to there. */
  lemma LogsAgree(r: Reigns, a: seq<LogEntry>, b: seq<LogEntry>, k: nat)
    requires LogOk(r, a) && LogOk(r, b) && k < |a| && k < |b| && a[k].term == b[k].term
    ensures a[..k + 1] == b[..k + 1]
  {
    if k > 0 {
      assert EntryOk(r, a, k) && EntryOk(r, b, k);
    }
  }

  lemma {:induction false} PrefixOk(r: Reigns, log: seq<LogEntry>, n: nat)
    requires LogOk(r, log) && 0 < n <= |log|
    ensures LogOk(r, log[..n])
  {
    var p := log[..n];
    forall k | 1 <= k < |p| ensures EntryOk(r, p, k) {
      assert EntryOk(r, log, k);
      assert p[..k + 1] == log[..k + 1];
    }
  }

  /**
   Laying a stretch of a good log over another good log, where they agree just before it, gives that stretch's log.
   */
  lemma {:induction false} MergeIsCopy(r: Reigns, log: seq<LogEntry>, full: seq<LogEntry>, prev: nat)
    requires LogOk(r, log) && LogOk(r, full) && prev < |log| && prev < |full| && log[prev].term == full[prev].term
    ensures Merged(log, prev, full[prev + 1..]) == full
  {
    var k := Agreeing(log, prev + 1, full[prev + 1..]);
    AgreeingAgrees(r, log, full, prev);
    assert log[..prev + 1 + k] == full[..prev + 1 + k];
    assert full[prev + 1..][k..] == full[prev + 1 + k..];
  }

  lemma {:induction false} AgreeingAgrees(r: Reigns, log: seq<LogEntry>, full: seq<LogEntry>, prev: nat)
    requires LogOk(r, log) && LogOk(r, full) && prev < |log| && prev < |full| && log[prev].term == full[prev].term
    ensures var k := Agreeing(log, prev + 1, full[prev + 1..]);
            prev + 1 + k <= |full| && prev + 1 + k <= |log| && log[..prev + 1 + k] == full[..prev + 1 + k]
    decreases |full| - prev
  {
    var rest := full[prev + 1..];
    if rest == [] || prev + 1 >= |log| || log[prev + 1].term != rest[0].term {
      LogsAgree(r, log, full, prev);
    } else {
      assert rest[1..] == full[prev + 2..];
      AgreeingAgrees(r, log, full, prev + 1);
    }
  }

  // ---------------------------------------------------------------- the invariant

  ghost predicate ReignOk(c: Cluster, h: Tally, r: Reigns, t: nat)
    requires t in r
  {
    var reign := r[t];
    && 0 < t && reign.leader < |c.servers| && t <= c.servers[reign.leader].term
    && (t == c.servers[reign.leader].term ==>
          c.servers[reign.leader].votedFor == reign.leader && !c.servers[reign.leader].role.Candidate?)
    && reign.leader !in reign.voters && 1 + |reign.voters| > |c.servers| / 2
    && (forall v :: v in reign.voters ==> Grant(t, v, reign.leader) in h.grants)
    && (forall v :: Grant(t, reign.leader, v) !in h.grants)
    && LogOk(r, reign.log)
  }

  ghost predicate IndexOk(s: Server, j: nat)
    requires s.role.Leader? && j < s.peers
  {
    1 <= s.nextIndex[j] <= |s.log| && 0 <= s.matchIndex[j] < |s.log|
  }

  ghost predicate HolderOk(c: Cluster, r: Reigns, i: nat)
    requires i < |c.servers|
  {
    var s := c.servers[i];
    && LogOk(r, s.log)
    && (s.role.Leader? ==> s.term in r && r[s.term].leader == i && r[s.term].log == s.log
                           && forall j {:trigger IndexOk(s, j)} :: 0 <= j < s.peers ==> IndexOk(s, j))
  }

  /** An append carries a stretch of the log of its term's leader. */
  ghost predicate CallOk(c: Cluster, r: Reigns, a: AppendCall) {
    var args := a.args;
    && args.term in r && args.leader == r[args.term].leader && a.to < |c.servers| && a.to != args.leader
    && var log := r[args.term].log;
       args.prevLogIndex + 1 + |args.entries| <= |log| && log[args.prevLogIndex].term == args.prevLogTerm
       && args.entries == log[args.prevLogIndex + 1..args.prevLogIndex + 1 + |args.entries|]
  }

  /** An answer in the leader's own term that is no success points at a place before the one asked about. */
  ghost predicate AnswerOk(c: Cluster, r: Reigns, x: AppendAnswer) {
    && CallOk(c, r, x.call)
    && (x.reply.term == x.call.args.term && !x.reply.success ==>
          x.reply.conflictTerm < 0 && 1 <= x.reply.conflictIndex <= x.call.args.prevLogIndex)
  }

  ghost predicate Ruled(c: Cluster, h: Tally, r: Reigns) {
    && (forall t {:trigger ReignOk(c, h, r, t)} :: t in r ==> ReignOk(c, h, r, t))
    && (forall i {:trigger HolderOk(c, r, i)} :: 0 <= i < |c.servers| ==> HolderOk(c, r, i))
    && (forall a {:trigger CallOk(c, r, a)} :: a in c.appends ==> CallOk(c, r, a))
    && (forall x {:trigger AnswerOk(c, r, x)} :: x in c.answers ==> AnswerOk(c, r, x))
  }

  // ---------------------------------------------------------------- steps that touch no log

  /** A server that keeps its log; if it leads, it led before and has sane indices. */
  ghost predicate KeepsLog(c: Cluster, r: Reigns, i: nat, t: Server)
    requires i < |c.servers|
  {
    var s := c.servers[i];
    && t.log == s.log && t.term >= s.term
    && (t.term == s.term && s.votedFor == i && !s.role.Candidate? ==> t.votedFor == i && !t.role.Candidate?)
    && (t.role.Leader? ==> && s.role.Leader? && t.term == s.term && t.peers == s.peers
                           && forall j {:trigger IndexOk(t, j)} :: 0 <= j < t.peers ==> IndexOk(t, j))
  }

  lemma {:induction false} SameLogs(c: Cluster, d: Cluster, h: Tally, h': Tally, r: Reigns, i: nat, t: Server)
    requires Ruled(c, h, r) && i < |c.servers| && KeepsLog(c, r, i, t) && d.servers == c.servers[i := t]
    requires d.appends == c.appends && d.answers == c.answers && h.grants <= h'.grants
    requires forall g :: g in h'.grants && g !in h.grants ==> g.term !in r || r[g.term].leader != g.voter
    ensures Ruled(d, h', r)
  {
    forall k | k in r ensures ReignOk(d, h', r, k) { assert ReignOk(c, h, r, k); }
    forall j | 0 <= j < |d.servers| ensures HolderOk(d, r, j) { assert HolderOk(c, r, j); }
    forall a | a in d.appends ensures CallOk(d, r, a) { assert CallOk(c, r, a); }
    forall x | x in d.answers ensures AnswerOk(d, r, x) { assert AnswerOk(c, r, x); assert CallOk(c, r, x.call); }
  }

  lemma {:induction false} QuietStepRuled(c: Cluster, step: Step, h: Tally, r: Reigns)
    requires Inv(c, h) && Ruled(c, h, r) && Enabled(c, step)
    requires (step.ElectionTimeout? || step.VoteComesBack? || step.Crashes?)
    ensures Ruled(After(c, step, true), AfterTally(c, step, h), r)
  {
    var d := After(c, step, true);
    var i := match step case ElectionTimeout(i) => i case VoteComesBack(m, _) => m.args.candidate case Crashes(i) => i;
    assert HolderOk(c, r, i) && ServerOk(c, h, i);
    assert c.servers[i].role.Leader? ==> forall j :: 0 <= j < c.servers[i].peers ==> IndexOk(c.servers[i], j);
    SameLogs(c, d, h, AfterTally(c, step, h), r, i, d.servers[i]);
  }

  /** A term's leader, past or present, grants no vote in that term. */
  lemma {:induction false} VoteRuled(c: Cluster, m: VoteRpc, h: Tally, r: Reigns)
    requires Inv(c, h) && Ruled(c, h, r) && Enabled(c, VoteArrives(m))
    ensures Ruled(After(c, VoteArrives(m), true), AfterTally(c, VoteArrives(m), h), r)
  {
    var d, h', i := After(c, VoteArrives(m), true), AfterTally(c, VoteArrives(m), h), m.voter;
    assert HolderOk(c, r, i) && ServerOk(c, h, i) && RpcOk(c, h, m);
    VoterActs(c.servers[i], m.args, i);
    forall g | g in h'.grants && g !in h.grants ensures g.term !in r || r[g.term].leader != g.voter {
      assert g.term in r ==> ReignOk(c, h, r, g.term);
    }
    assert c.servers[i].role.Leader? ==> forall j :: 0 <= j < c.servers[i].peers ==> IndexOk(c.servers[i], j);
    SameLogs(c, d, h, h', r, i, d.servers[i]);
  }

  /** What an answer in the leader's own term leaves as indices still lies in its log. */
  lemma {:induction false} IndicesStay(c: Cluster, x: AppendAnswer, h: Tally, r: Reigns, s: Server)
    requires Ruled(c, h, r) && x in c.answers && x.call.args.leader < |c.servers|
    requires s == c.servers[x.call.args.leader] && s.peers == |c.servers|
    requires s.role.Leader? && x.call.args.term == s.term == x.reply.term
    ensures x.call.to < s.peers
    ensures var (next, match') := Indices(s, x.call.to, x.call.args, x.reply);
            1 <= next <= |s.log| && 0 <= match' < |s.log|
  {
    assert AnswerOk(c, r, x) && CallOk(c, r, x.call) && HolderOk(c, r, x.call.args.leader);
    assert IndexOk(s, x.call.to);
  }

  lemma {:induction false} AnswerRuled(c: Cluster, x: AppendAnswer, h: Tally, r: Reigns)
    requires Inv(c, h) && Ruled(c, h, r) && Enabled(c, AppendComesBack(x))
    ensures Ruled(After(c, AppendComesBack(x), true), h, r)
  {
    var d, i := After(c, AppendComesBack(x), true), x.call.args.leader;
    var s, t := c.servers[i], d.servers[i];
    assert HolderOk(c, r, i) && ServerOk(c, h, i);
    if t.role.Leader? {
      if x.call.args.term == s.term && x.reply.term == s.term { IndicesStay(c, x, h, r, s); }
      forall j | 0 <= j < t.peers ensures IndexOk(t, j) { assert IndexOk(s, j); }
    }
    SameLogs(c, d, h, h, r, i, t);
  }

  // ---------------------------------------------------------------- steps that extend a leader's log

  /** The same reigns or more, their logs the same or longer. */
  ghost predicate Extends(r: Reigns, r': Reigns) {
    forall t :: t in r ==>
        t in r' && r'[t].leader == r[t].leader && r'[t].voters == r[t].voters && r[t].log <= r'[t].log
  }

  lemma {:induction false} LogStaysOk(r: Reigns, r': Reigns, log: seq<LogEntry>)
    requires LogOk(r, log) && Extends(r, r')
    ensures LogOk(r', log)
  {
    forall k | 1 <= k < |log| ensures EntryOk(r', log, k) {
      assert EntryOk(r, log, k);
      var old', new' := r[log[k].term].log, r'[log[k].term].log;
      assert old'[..k + 1] == new'[..k + 1];
    }
  }

  /** Calls and answers stay good when logs grow. */
  lemma {:induction false} CallStaysOk(c: Cluster, d: Cluster, r: Reigns, r': Reigns, a: AppendCall)
    requires CallOk(c, r, a) && Extends(r, r') && |d.servers| == |c.servers|
    ensures CallOk(d, r', a)
  {
    var log, log', p := r[a.args.term].log, r'[a.args.term].log, a.args.prevLogIndex;
    assert log[p] == log'[p];
    assert log[p + 1..p + 1 + |a.args.entries|] == log'[p + 1..p + 1 + |a.args.entries|];
  }

  /** Server i starts to reign in its term, or adds to its log. */
  lemma {:induction false} ReignsGrow(c: Cluster, d: Cluster, h: Tally, r: Reigns, r': Reigns, i: nat, t: Server)
    requires Inv(c, h) && Ruled(c, h, r) && i < |c.servers| && d.servers == c.servers[i := t]
    requires d.appends == c.appends && d.answers == c.answers
    requires Extends(r, r') && r'.Keys == r.Keys + {t.term} && t.term in r'
    requires forall k :: k in r && k != t.term ==> r'[k] == r[k]
    requires t.role.Leader? && t.term == c.servers[i].term && t.votedFor == i
    requires r'[t.term].leader == i && r'[t.term].log == t.log && LogOk(r', t.log)
    requires forall j {:trigger IndexOk(t, j)} :: 0 <= j < t.peers ==> IndexOk(t, j)
    requires ReignOk(d, h, r', t.term)
    ensures Ruled(d, h, r')
  {
    forall k | k in r' ensures ReignOk(d, h, r', k) {
      if k != t.term {
        assert ReignOk(c, h, r, k);
        LogStaysOk(r, r', r[k].log);
      }
    }
    forall j | 0 <= j < |d.servers| ensures HolderOk(d, r', j) {
      assert HolderOk(c, r, j);
      LogStaysOk(r, r', c.servers[j].log);
      if j != i && c.servers[j].role.Leader? { ReignedBy(c, h, r, i, j, r', t.term); }
    }
    forall a | a in d.appends ensures CallOk(d, r', a) { assert CallOk(c, r, a); CallStaysOk(c, d, r, r', a); }
    forall x | x in d.answers ensures AnswerOk(d, r', x) { assert AnswerOk(c, r, x); CallStaysOk(c, d, r, r', x.call); }
  }

  /** Another current leader rules another term. */
  lemma ReignedBy(c: Cluster, h: Tally, r: Reigns, i: nat, j: nat, r': Reigns, term: nat)
    requires Ruled(c, h, r) && i < |c.servers| && j < |c.servers| && i != j && c.servers[j].role.Leader?
    requires Extends(r, r') && term in r' && r'[term].leader == i
    ensures c.servers[j].term != term
  {
    assert HolderOk(c, r, j);
  }

  ghost function Crowned(c: Cluster, h: Tally, r: Reigns, i: nat): Reigns
    requires i < |c.servers| == |h.voters|
  {
    var s := c.servers[i];
    if s.role.Candidate? then r[s.term := Reign(i, h.voters[i], s.log)] else r
  }

  /** Nobody voted both for a candidate and for the leader its term has had. */
  lemma {:induction false} CampsAreApart(c: Cluster, h: Tally, r: Reigns, i: nat, v: nat)
    requires Inv(c, h) && Ruled(c, h, r) && i < |c.servers|
    requires c.servers[i].role.Candidate? && c.servers[i].term in r && v in Camp(h, i)
    ensures var reign := r[c.servers[i].term]; v !in reign.voters + {reign.leader}
  {
    var t := c.servers[i].term;
    var b := r[t].leader;
    assert ServerOk(c, h, i) && ReignOk(c, h, r, t);
    assert !GrantOk(c, Grant(t, i, b));
  }

  /** A term that has had a leader cannot get another. */
  lemma {:induction false} TermIsFree(c: Cluster, h: Tally, r: Reigns, i: nat)
    requires Inv(c, h) && Ruled(c, h, r) && i < |c.servers| && c.servers[i].role.Candidate? && c.won[i]
    ensures c.servers[i].term !in r
  {
    var t := c.servers[i].term;
    CandidateCamp(c, h, i);
    if t in r {
      ReignCamp(c, h, r, t);
      forall v | v in Camp(h, i) ensures v !in r[t].voters + {r[t].leader} { CampsAreApart(c, h, r, i, v); }
      var v := MajoritiesMeet(|c.servers|, Camp(h, i), r[t].voters + {r[t].leader});
    }
  }

  lemma CandidateCamp(c: Cluster, h: Tally, i: nat)
    requires Inv(c, h) && i < |c.servers| && c.servers[i].role.Candidate? && c.won[i]
    ensures |Camp(h, i)| > |c.servers| / 2 && forall v :: v in Camp(h, i) ==> v < |c.servers|
  {
    assert ServerOk(c, h, i);
    forall v | v in h.voters[i] ensures v < |c.servers| && v != i { assert GrantOk(c, Grant(c.servers[i].term, v, i)); }
    assert |Camp(h, i)| == |h.voters[i]| + 1;
  }

  lemma ReignCamp(c: Cluster, h: Tally, r: Reigns, t: nat)
    requires Inv(c, h) && Ruled(c, h, r) && t in r
    ensures var camp := r[t].voters + {r[t].leader};
            |camp| > |c.servers| / 2 && forall v :: v in camp ==> v < |c.servers|
  {
    assert ReignOk(c, h, r, t);
    forall v | v in r[t].voters ensures v < |c.servers| { assert GrantOk(c, Grant(t, v, r[t].leader)); }
    assert |r[t].voters + {r[t].leader}| == |r[t].voters| + 1;
  }

  lemma {:induction false} CrownRuled(c: Cluster, h: Tally, r: Reigns, i: nat)
    requires Inv(c, h) && Ruled(c, h, r) && Enabled(c, Wins(i))
    ensures Ruled(After(c, Wins(i), true), h, Crowned(c, h, r, i)) && Extends(r, Crowned(c, h, r, i))
  {
    var d, r' := After(c, Wins(i), true), Crowned(c, h, r, i);
    var s, t := c.servers[i], d.servers[i];
    assert ServerOk(c, h, i) && HolderOk(c, r, i);
    if s.role.Candidate? {
      TermIsFree(c, h, r, i);
      LogStaysOk(r, r', s.log);
      forall j | 0 <= j < t.peers ensures IndexOk(t, j) { }
      CandidateIsFresh(c, h, i);
      ReignsGrow(c, d, h, r, r', i, t);
    } else {
      forall j | 0 <= j < t.peers && t.role.Leader? ensures IndexOk(t, j) { assert IndexOk(s, j); }
      SameLogs(c, d, h, h, r, i, t);
    }
  }

  lemma CandidateIsFresh(c: Cluster, h: Tally, i: nat)
    requires Inv(c, h) && i < |c.servers| && !c.servers[i].role.Follower?
    ensures forall v :: Grant(c.servers[i].term, i, v) !in h.grants
    ensures i !in h.voters[i]
  {
    forall v ensures Grant(c.servers[i].term, i, v) !in h.grants {
      assert !GrantOk(c, Grant(c.servers[i].term, i, v));
    }
    assert ServerOk(c, h, i);
  }

  ghost function Added(c: Cluster, r: Reigns, i: nat, command: Command): Reigns
    requires i < |c.servers|
  {
    var s := c.servers[i];
    if s.role.Leader? && s.term in r
    then r[s.term := r[s.term].(log := r[s.term].log + [LogEntry(s.term, command)])]
    else r
  }

  lemma {:induction false} AddedLogOk(r: Reigns, r': Reigns, term: nat, log: seq<LogEntry>, command: Command)
    requires LogOk(r, log) && term > 0 && term in r && r[term].log == log
    requires Extends(r, r') && r'[term].log == log + [LogEntry(term, command)]
    ensures LogOk(r', log + [LogEntry(term, command)])
  {
    var log' := log + [LogEntry(term, command)];
    LogStaysOk(r, r', log);
    forall k | 1 <= k < |log'| ensures EntryOk(r', log', k) {
      if k < |log| {
        assert EntryOk(r', log, k);
        assert log'[..k + 1] == log[..k + 1];
      }
    }
  }

  lemma {:induction false} StartRuled(c: Cluster, h: Tally, r: Reigns, i: nat, command: Command)
    requires Inv(c, h) && Ruled(c, h, r) && Enabled(c, Starts(i, command))
    ensures Ruled(After(c, Starts(i, command), true), h, Added(c, r, i, command)) && Extends(r, Added(c, r, i, command))
  {
    var d, r' := After(c, Starts(i, command), true), Added(c, r, i, command);
    var s, t := c.servers[i], d.servers[i];
    assert ServerOk(c, h, i) && HolderOk(c, r, i);
    if s.role.Leader? {
      assert ReignOk(c, h, r, s.term);
      AddedLogOk(r, r', s.term, s.log, command);
      forall j | 0 <= j < t.peers ensures IndexOk(t, j) { assert IndexOk(s, j); }
      ReignsGrow(c, d, h, r, r', i, t);
    } else {
      SameLogs(c, d, h, h, r, i, t);
    }
  }

  // ---------------------------------------------------------------- appends

  lemma {:induction false} SendRuled(c: Cluster, h: Tally, r: Reigns, i: nat, to: nat)
    requires Inv(c, h) && Ruled(c, h, r) && Enabled(c, Sends(i, to))
    ensures Ruled(After(c, Sends(i, to), true), h, r)
  {
    var d, a := After(c, Sends(i, to), true), AppendCall(to, AppendFor(c.servers[i], to));
    assert HolderOk(c, r, i);
    var log, next := c.servers[i].log, c.servers[i].nextIndex[to];
    assert log[next..] == log[next..|log|];
    forall k | k in r ensures ReignOk(d, h, r, k) { assert ReignOk(c, h, r, k); }
    forall j | 0 <= j < |d.servers| ensures HolderOk(d, r, j) { assert HolderOk(c, r, j); }
    forall b | b in d.appends ensures CallOk(d, r, b) { assert b != a ==> CallOk(c, r, b); }
    forall x | x in d.answers ensures AnswerOk(d, r, x) { assert AnswerOk(c, r, x); assert CallOk(c, r, x.call); }
  }

  lemma AppendEffect(s: Server, args: AppendArgs)
    ensures var (t, reply) := ProcessAppend(s, args);
            && t.log == (if Fits(s, args) then Merged(s.log, args.prevLogIndex, args.entries) else s.log)
            && t.term >= s.term && t.peers == s.peers
            && (t.term == s.term ==>
                  t.role == s.role && t.votedFor == s.votedFor && t.nextIndex == s.nextIndex
                    && t.matchIndex == s.matchIndex)
            && (t.term > s.term ==> t.role.Follower? && t.term == args.term)
            && (reply.term == args.term && !reply.success ==>
                  reply.conflictTerm < 0 && 1 <= reply.conflictIndex <= args.prevLogIndex)
  {
  }

  /** A delivered append that fits leaves the follower with a prefix of the log of the append's leader. */
  lemma {:induction false} DeliveredLog(r: Reigns, log: seq<LogEntry>, ruler: seq<LogEntry>, prev: nat,
                                        entries: seq<LogEntry>)
    requires LogOk(r, log) && LogOk(r, ruler) && prev < |log| && prev + 1 + |entries| <= |ruler|
    requires ruler[prev].term == log[prev].term && entries == ruler[prev + 1..prev + 1 + |entries|]
    ensures Merged(log, prev, entries) == ruler[..prev + 1 + |entries|] && LogOk(r, Merged(log, prev, entries))
  {
    var full := ruler[..prev + 1 + |entries|];
    PrefixOk(r, ruler, |full|);
    assert full[prev + 1..] == entries;
    MergeIsCopy(r, log, full, prev);
  }

  /** What an append leaves behind is a good log; a leader's own log is not touched. */
  lemma {:induction false} DeliveryHolds(c: Cluster, h: Tally, r: Reigns, a: AppendCall)
    requires Inv(c, h) && Ruled(c, h, r) && Enabled(c, AppendArrives(a))
    ensures var t := ProcessAppend(c.servers[a.to], a.args).0;
            LogOk(r, t.log) && (t.role.Leader? ==> t.log == c.servers[a.to].log)
  {
    var s := c.servers[a.to];
    assert CallOk(c, r, a) && HolderOk(c, r, a.to);
    assert ReignOk(c, h, r, a.args.term);
    AppendEffect(s, a.args);
    if Fits(s, a.args) {
      DeliveredLog(r, s.log, r[a.args.term].log, a.args.prevLogIndex, a.args.entries);
    }
  }

  lemma {:induction false} DeliveryRuled(c: Cluster, h: Tally, r: Reigns, a: AppendCall)
    requires Inv(c, h) && Ruled(c, h, r) && Enabled(c, AppendArrives(a))
    ensures Ruled(After(c, AppendArrives(a), true), h, r)
  {
    var (t, reply) := ProcessAppend(c.servers[a.to], a.args);
    DeliveryHolds(c, h, r, a);
    AppendEffect(c.servers[a.to], a.args);
    DeliveredRuled(c, h, r, a, t, reply);
  }

  lemma {:induction false} DeliveredRuled(c: Cluster, h: Tally, r: Reigns, a: AppendCall, t: Server, reply: AppendReply)
    requires Ruled(c, h, r) && a in c.appends && a.to < |c.servers| && LogOk(r, t.log)
    requires var s := c.servers[a.to];
             && t.term >= s.term && t.peers == s.peers && (t.role.Leader? ==> t.log == s.log)
             && (t.term == s.term ==>
                   t.role == s.role && t.votedFor == s.votedFor && t.nextIndex == s.nextIndex
                     && t.matchIndex == s.matchIndex)
             && (t.term > s.term ==> t.role.Follower?)
    requires reply.term == a.args.term && !reply.success ==>
      reply.conflictTerm < 0 && 1 <= reply.conflictIndex <= a.args.prevLogIndex
    ensures Ruled(WithServer(c, a.to, t).(answers := c.answers + {AppendAnswer(a, reply)}), h, r)
  {
    var d := WithServer(c, a.to, t).(answers := c.answers + {AppendAnswer(a, reply)});
    forall k | k in r ensures ReignOk(d, h, r, k) { assert ReignOk(c, h, r, k); }
    forall j | 0 <= j < |d.servers| ensures HolderOk(d, r, j) {
      assert HolderOk(c, r, j);
      forall k | j == a.to && t.role.Leader? && 0 <= k < t.peers ensures IndexOk(t, k) {
        assert IndexOk(c.servers[j], k);
      }
    }
    forall b | b in d.appends ensures CallOk(d, r, b) { assert CallOk(c, r, b); }
    forall x | x in d.answers ensures AnswerOk(d, r, x) {
      assert CallOk(c, r, a);
      if x in c.answers { assert AnswerOk(c, r, x); assert CallOk(c, r, x.call); }
    }
  }

  // ---------------------------------------------------------------- whole runs

  ghost function AfterReigns(c: Cluster, step: Step, h: Tally, r: Reigns): Reigns
    requires Inv(c, h) && Enabled(c, step)
  {
    match step
    case Wins(i) => Crowned(c, h, r, i)
    case Starts(i, command) => Added(c, r, i, command)
    case _ => r
  }

  lemma {:induction false} StepRuled(c: Cluster, step: Step, h: Tally, r: Reigns)
    requires Inv(c, h) && Ruled(c, h, r) && Enabled(c, step)
    ensures Ruled(After(c, step, true), AfterTally(c, step, h), AfterReigns(c, step, h, r))
    ensures Extends(r, AfterReigns(c, step, h, r))
  {
    match step {
      case VoteArrives(m) => VoteRuled(c, m, h, r);
      case Wins(i) => CrownRuled(c, h, r, i);
      case Starts(i, command) => StartRuled(c, h, r, i, command);
      case Sends(i, to) => SendRuled(c, h, r, i, to);
      case AppendArrives(a) => DeliveryRuled(c, h, r, a);
      case AppendComesBack(x) => AnswerRuled(c, x, h, r);
      case _ => QuietStepRuled(c, step, h, r);
    }
  }

  /** A server that leads is on record for its term, and so is what it has written. */
  ghost predicate OnRecord(s: Server, r: Reigns) {
    s.role.Leader? ==> s.term in r && r[s.term].leader == s.me && s.log <= r[s.term].log
  }

  ghost predicate Recorded(run: seq<Cluster>, r: Reigns) {
    forall p, i :: 0 <= p < |run| && 0 <= i < |run[p].servers| ==>
        run[p].servers[i].me == i && OnRecord(run[p].servers[i], r)
  }

  lemma {:induction false} RunRuled(n: nat, run: seq<Cluster>) returns (h: Tally, r: Reigns)
    requires Run(n, true, run)
    ensures Inv(Last(run), h) && Ruled(Last(run), h, r) && Recorded(run, r)
  {
    if |run| == 1 {
      h, r := Tally({}, seq(n, _ => {})), map[];
      BootIsFair(n);
      forall i | 0 <= i < n ensures HolderOk(Boot(n), r, i) { }
    } else {
      var c, before := run[|run| - 2], run[..|run| - 1];
      RunFront(n, true, run);
      h, r := RunRuled(n, before);
      var step :| Enabled(c, step) && run[|run| - 1] == After(c, step, true);
      StepKeeps(c, step, true, h);
      StepRuled(c, step, h, r);
      var r' := AfterReigns(c, step, h, r);
      h := AfterTally(c, step, h);
      forall p, i | 0 <= p < |run| && 0 <= i < |run[p].servers|
        ensures run[p].servers[i].me == i && OnRecord(run[p].servers[i], r')
      {
        if p == |run| - 1 {
          assert HolderOk(run[p], r', i);
        } else {
          assert before[p] == run[p] && OnRecord(before[p].servers[i], r);
        }
      }
      r := r';
    }
  }

  /** With the repair a term has one leader ever, not just one at a time. */
  lemma {:induction false} OneLeaderEver(n: nat, run: seq<Cluster>, p: nat, a: nat, q: nat, b: nat)
    requires Run(n, true, run) && p < |run| && q < |run| && a < |run[p].servers| && b < |run[q].servers|
    requires run[p].servers[a].role.Leader? && run[q].servers[b].role.Leader?
    requires run[p].servers[a].term == run[q].servers[b].term
    ensures a == b
  {
    var h, r := RunRuled(n, run);
  }

  /** With the repair a leader only ever adds to its log while it leads. */
  lemma {:induction false} LeaderAppendsOnly(n: nat, run: seq<Cluster>, p: nat, q: nat, a: nat)
    requires Run(n, true, run) && p <= q < |run| && a < |run[p].servers| && a < |run[q].servers|
    requires run[p].servers[a].role.Leader? && run[q].servers[a].role.Leader?
    requires run[p].servers[a].term == run[q].servers[a].term
    ensures run[p].servers[a].log <= run[q].servers[a].log
  {
    var upto := run[..q + 1];
    RunPrefix(n, true, run, q + 1);
    var h, r := RunRuled(n, upto);
    assert upto[p] == run[p] && OnRecord(upto[p].servers[a], r);
    assert HolderOk(upto[q], r, a);
  }

  ghost predicate Matching(c: Cluster) {
    forall i, j :: 0 <= i < |c.servers| && 0 <= j < |c.servers| ==> Matches(c.servers[i].log, c.servers[j].log)
  }

  ghost predicate Matches(a: seq<LogEntry>, b: seq<LogEntry>) {
    forall k :: 0 <= k < |a| && k < |b| && a[k].term == b[k].term ==> a[..k + 1] == b[..k + 1]
  }

  /** Log Matching in every reachable state of the repaired cluster, and no leader ever slices its log out of bounds. */
  lemma {:induction false} LogMatching(n: nat, run: seq<Cluster>)
    requires Run(n, true, run)
    ensures Matching(Last(run))
    ensures forall i, to ::
              0 <= i < |Last(run).servers| && 0 <= to < |Last(run).servers| && Last(run).servers[i].role.Leader? ==>
              CanSendTo(Last(run).servers[i], to)
  {
    var h, r := RunRuled(n, run);
    var c := Last(run);
    forall i, j | 0 <= i < |c.servers| && 0 <= j < |c.servers| ensures Matches(c.servers[i].log, c.servers[j].log) {
      assert HolderOk(c, r, i) && HolderOk(c, r, j);
      var a, b := c.servers[i].log, c.servers[j].log;
      forall k | 0 <= k < |a| && k < |b| && a[k].term == b[k].term ensures a[..k + 1] == b[..k + 1] {
        LogsAgree(r, a, b, k);
      }
    }
    forall i, to | 0 <= i < |c.servers| && 0 <= to < |c.servers| && c.servers[i].role.Leader?
      ensures CanSendTo(c.servers[i], to)
    {
      assert HolderOk(c, r, i);
      assert IndexOk(c.servers[i], to);
    }
  }
}
