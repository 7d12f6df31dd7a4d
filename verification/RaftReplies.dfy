module RaftReplies {
  // What a success answer is worth over whole runs: whether the follower then held the
  // leader's log as it stood when the append was sent.

  import opened RaftServers
  import opened RaftClusters
  import opened RaftElections
  import opened RaftMatchings
  import opened RaftRules
  import opened RaftScripts
  import opened RaftRelapses
  import opened RaftKeeping

  // ---------------------------------------------------------------- where messages come from

  /** At moment p the append's sender leads, and this is the append it would build. */
  ghost predicate SentAt(run: seq<Cluster>, p: nat, a: AppendCall) {
    && p < |run| && a.args.leader < |run[p].servers|
    && CanSendTo(run[p].servers[a.args.leader], a.to) && a.args == AppendFor(run[p].servers[a.args.leader], a.to)
  }

  /** Between moments q and q + 1 the append is delivered and given this answer. */
  ghost predicate AnsweredAt(run: seq<Cluster>, q: nat, x: AppendAnswer) {
    && q + 1 < |run| && x.call.to < |run[q].servers| && x.call in run[q].appends
    && var (t, reply) := ProcessAppend(run[q].servers[x.call.to], x.call.args);
       x.reply == reply && run[q + 1].servers == run[q].servers[x.call.to := t]
  }

  ghost predicate Trip(run: seq<Cluster>, p: nat, q: nat, x: AppendAnswer) {
    p <= q && SentAt(run, p, x.call) && AnsweredAt(run, q, x)
  }

  lemma {:induction false} EveryAppendWasSent(n: nat, adopt: bool, run: seq<Cluster>, a: AppendCall)
    requires Run(n, adopt, run) && a in Last(run).appends
    ensures exists p :: SentAt(run, p, a)
  {
    if |run| > 1 {
      var c, before := run[|run| - 2], run[..|run| - 1];
      RunFront(n, adopt, run);
      var step :| Enabled(c, step) && Last(run) == After(c, step, adopt);
      if a in c.appends {
        EveryAppendWasSent(n, adopt, before, a);
        var p: nat :| SentAt(before, p, a);
        assert SentAt(run, p, a);
      } else {
        assert SentAt(run, |run| - 2, a);
      }
    }
  }

  /** Every answer in the network was given to an append sent before. */
  lemma {:induction false} EveryAnswerHasATrip(n: nat, adopt: bool, run: seq<Cluster>, x: AppendAnswer)
    requires Run(n, adopt, run) && x in Last(run).answers
    ensures exists p, q :: Trip(run, p, q, x)
  {
    if |run| > 1 {
      var c, before := run[|run| - 2], run[..|run| - 1];
      RunFront(n, adopt, run);
      var step :| Enabled(c, step) && Last(run) == After(c, step, adopt);
      if x in c.answers {
        EveryAnswerHasATrip(n, adopt, before, x);
        var p: nat, q: nat :| Trip(before, p, q, x);
        assert before[q + 1] == run[q + 1];
        assert Trip(run, p, q, x);
      } else {
        EveryAppendWasSent(n, adopt, before, x.call);
        var p: nat :| SentAt(before, p, x.call);
        assert Trip(run, p, |run| - 2, x);
      }
    }
  }

  // ---------------------------------------------------------------- what success means

  /** Once it has answered, the follower's log is the leader's log as it stood when it sent the append. */
  ghost predicate Copied(run: seq<Cluster>, p: nat, q: nat, x: AppendAnswer)
    requires Trip(run, p, q, x)
  {
    run[q + 1].servers[x.call.to].log == run[p].servers[x.call.args.leader].log
  }

  lemma SentIsStretch(run: seq<Cluster>, p: nat, a: AppendCall)
    requires SentAt(run, p, a)
    ensures var log := run[p].servers[a.args.leader].log;
            Stretch(log, a.args) && log[..a.args.prevLogIndex + 1 + |a.args.entries|] == log
  {
  }

  /**
   For the code as written and the repaired one: exactly when the logs were the same up to where the terms stop
   agreeing.
   */
  lemma {:induction false} SuccessIsCopyIff(run: seq<Cluster>, p: nat, q: nat, x: AppendAnswer)
    requires Trip(run, p, q, x) && x.reply.success
    ensures var (held, sent, at) := (run[q].servers[x.call.to].log, run[p].servers[x.call.args.leader].log,
                                     x.call.args.prevLogIndex + 1);
            && at <= |held|
            && var agreed := at + Agreeing(held, at, x.call.args.entries);
               agreed <= |sent| && (Copied(run, p, q, x) <==> held[..agreed] == sent[..agreed])
  {
    var s, sent := run[q].servers[x.call.to], run[p].servers[x.call.args.leader].log;
    SentIsStretch(run, p, x.call);
    assert run[q + 1].servers[x.call.to].log == ProcessAppend(s, x.call.args).0.log;
    SuccessMeansHeldIff(s, x.call.args, sent);
  }

  /** A delivered append that fits leaves its sender's log. */
  lemma {:induction false} FittingIsCopied(c: Cluster, h: Tally, r: Reigns, a: AppendCall, sent: seq<LogEntry>)
    requires Ruled(c, h, r) && a in c.appends && a.to < |c.servers| && Fits(c.servers[a.to], a.args)
    requires Stretch(sent, a.args) && |sent| == a.args.prevLogIndex + 1 + |a.args.entries|
    requires a.args.term in r && sent <= r[a.args.term].log
    ensures ProcessAppend(c.servers[a.to], a.args).0.log == sent
  {
    var args, ruler := a.args, r[a.args.term].log;
    assert CallOk(c, r, a) && HolderOk(c, r, a.to) && ReignOk(c, h, r, args.term);
    DeliveredLog(r, c.servers[a.to].log, ruler, args.prevLogIndex, args.entries);
    assert ruler[..|sent|] == sent;
  }

  /** With the newer term adopted, exactly when the answer names no conflicting term. */
  lemma {:induction false} SuccessIsCopyIffNoConflict(n: nat, run: seq<Cluster>, p: nat, q: nat, x: AppendAnswer)
    requires Run(n, true, run) && Trip(run, p, q, x) && x.reply.success
    ensures Copied(run, p, q, x) <==> x.reply.conflictTerm < 0
  {
    var s, args := run[q].servers[x.call.to], x.call.args;
    var sent, upto := run[p].servers[args.leader].log, run[..q + 1];
    SentIsStretch(run, p, x.call);
    ConflictTermTells(s, args);
    if x.reply.conflictTerm < 0 {
      RunPrefix(n, true, run, q + 1);
      var h, r := RunRuled(n, upto);
      assert upto[p] == run[p] && OnRecord(upto[p].servers[args.leader], r);
      FittingIsCopied(run[q], h, r, x.call, sent);
    } else {
      assert s.log[args.prevLogIndex] != sent[args.prevLogIndex];
    }
  }

  /** A success that names no conflicting term means a copy in all runs exactly when the newer term is adopted. */
  lemma {:induction false} CopiesIffAdopts(adopt: bool)
    ensures adopt <==> forall n, run, p, q, x ::
              Run(n, adopt, run) && Trip(run, p, q, x) && x.reply.success && x.reply.conflictTerm < 0 ==>
                         Copied(run, p, q, x)
  {
    if adopt {
      forall n, run, p, q, x | Run(n, adopt, run) && Trip(run, p, q, x) && x.reply.success && x.reply.conflictTerm < 0
        ensures Copied(run, p, q, x)
      {
        SuccessIsCopyIffNoConflict(n, run, p, q, x);
      }
    } else {
      var run, at := AnotherEntryIsKept();
    }
  }

  /**
   With the newer term adopted, an entry that the follower shares with the leader when an append arrives, acknowledged
   or not, is still in its log afterwards exactly when the append reaches beyond it; one that is lost is lost in the
   branch that cuts.
   */
  lemma {:induction false} SharedStaysIff(n: nat, run: seq<Cluster>, p: nat, q: nat, x: AppendAnswer, k: nat)
    requires Run(n, true, run) && Trip(run, p, q, x) && x.reply.success && x.reply.conflictTerm < 0
    requires x.call.args.leader < |run[q].servers|
    requires run[q].servers[x.call.args.leader].role.Leader?
    requires run[q].servers[x.call.args.leader].term == x.call.args.term
    requires k < |run[q].servers[x.call.to].log| && k < |run[q].servers[x.call.args.leader].log|
    requires run[q].servers[x.call.to].log[k] == run[q].servers[x.call.args.leader].log[k]
    ensures var (held, kept) := (run[q].servers[x.call.to].log, run[q + 1].servers[x.call.to].log);
            && (k < |kept| && kept[k] == held[k] <==> k < x.call.args.prevLogIndex + 1 + |x.call.args.entries|)
            && (!(k < |kept| && kept[k] == held[k]) ==> Cuts(run[q].servers[x.call.to], x.call.args))
  {
    var s, args := run[q].servers[x.call.to], x.call.args;
    var sent, leads := run[p].servers[args.leader].log, run[q].servers[args.leader].log;
    SuccessIsCopyIffNoConflict(n, run, p, q, x);
    SentIsStretch(run, p, x.call);
    LeaderAppendsOnly(n, run, p, q, args.leader);
    ConflictTermTells(s, args);
    if |sent| <= k {
      SharedPrefix(n, run, q, x.call.to, args.leader, k);
      HasPrefix(sent, leads, |sent| - 1);
      SharedBeyond(s.log, leads, args, k);
    }
  }

  /** Log Matching at a moment of a run, for two servers. */
  lemma {:induction false} SharedPrefix(n: nat, run: seq<Cluster>, q: nat, i: nat, j: nat, k: nat)
    requires Run(n, true, run) && q < |run| && i < |run[q].servers| && j < |run[q].servers|
    requires k < |run[q].servers[i].log| && k < |run[q].servers[j].log|
    requires run[q].servers[i].log[k].term == run[q].servers[j].log[k].term
    ensures Has(run[q].servers[i].log, run[q].servers[j].log, k)
  {
    RunPrefix(n, true, run, q + 1);
    LogMatching(n, run[..q + 1]);
    assert Matches(run[q].servers[i].log, run[q].servers[j].log);
  }

  /** As written, a follower can answer success and keep another entry of the same term. */
  lemma {:induction false} AnotherEntryIsKept() returns (run: seq<Cluster>, at: nat)
    ensures Run(3, false, run) && Trip(run, at, at, AGREED) && !Copied(run, at, at, AGREED)
  {
    var before, p, q := TermsRelapse();
    SendsOne(1, 1, Y, 0);
    run := Dispatches(AS_WRITTEN, before, TRUNCATED, 1, AGAIN);
    at := |run| - 1;
    assert SentAt(run, at, AGAIN);
    KeepsItsOwn();
    var step := AppendArrives(AGAIN);
    WatchedPush(3, AS_WRITTEN, run, step);
    run := run + [After(Last(run), step, false)];
    WatchedIsRun(3, AS_WRITTEN, run);
    assert AnsweredAt(run, at, AGREED);
    assert run[at + 1].servers[0].log[1] != run[at].servers[1].log[1];
  }
}
