module RaftVoters {
  // The election restriction over whole runs: who leads was voted for by a majority of
  // servers, none of whom had at that moment a log newer than the candidate's own when
  // it asked, nor had voted for anybody else in that term.

  import opened RaftServers
  import opened RaftClusters
  import opened RaftElections
  import opened RaftRules

  /** At moment p this is what its candidate asks the others. */
  ghost predicate AskedAt(run: seq<Cluster>, p: nat, args: VoteArgs) {
    && p < |run| && args.candidate < |run[p].servers|
    && run[p].servers[args.candidate].role.Candidate? && args == Ballot(run[p].servers[args.candidate])
  }

  /** Between moments q and q + 1 the voter grants it. */
  ghost predicate GrantedAt(run: seq<Cluster>, q: nat, voter: nat, args: VoteArgs) {
    && q + 1 < |run| && voter < |run[q].servers|
    && var (t, reply) := RequestVote(run[q].servers[voter], args);
       reply.granted && run[q + 1].servers == run[q].servers[voter := t]
  }

  ghost predicate Vote(run: seq<Cluster>, p: nat, q: nat, g: Grant, args: VoteArgs) {
    && p <= q && args.term == g.term && args.candidate == g.candidate
    && AskedAt(run, p, args) && GrantedAt(run, q, g.voter, args)
  }

  ghost predicate Cast(run: seq<Cluster>, g: Grant) {
    exists p, q, args :: Vote(run, p, q, g, args)
  }

  ghost predicate WasAsked(run: seq<Cluster>, args: VoteArgs) {
    exists p :: AskedAt(run, p, args)
  }

  /** Every vote on record was cast, and every request in the network was made, in the run. */
  ghost predicate Witnessed(run: seq<Cluster>, h: Tally)
    requires run != []
  {
    && (forall g {:trigger Cast(run, g)} :: g in h.grants ==> Cast(run, g))
    && (forall m {:trigger WasAsked(run, m.args)} :: m in Last(run).votes ==> WasAsked(run, m.args))
  }

  lemma CastStays(run: seq<Cluster>, d: Cluster, g: Grant)
    requires Cast(run, g)
    ensures Cast(run + [d], g)
  {
    var p, q, args :| Vote(run, p, q, g, args);
    assert Vote(run + [d], p, q, g, args);
  }

  lemma AskedStays(run: seq<Cluster>, d: Cluster, args: VoteArgs)
    requires WasAsked(run, args)
    ensures WasAsked(run + [d], args)
  {
    var p :| AskedAt(run, p, args);
    assert AskedAt(run + [d], p, args);
  }

  /** A request made by the last step is made by the candidate as it then stands. */
  lemma {:induction false} RequestsWitnessed(run: seq<Cluster>, step: Step, adopt: bool, h: Tally, m: VoteRpc)
    requires run != [] && Witnessed(run, h) && Enabled(Last(run), step) && m in After(Last(run), step, adopt).votes
    ensures WasAsked(run + [After(Last(run), step, adopt)], m.args)
  {
    var c, d := Last(run), After(Last(run), step, adopt);
    if step.ElectionTimeout? && m in Broadcast(ElectSelf(c.servers[step.i])) {
      assert AskedAt(run + [d], |run|, m.args);
    } else {
      assert m in c.votes || (step.VoteArrives? && m.args == step.m.args && step.m in c.votes);
      AskedStays(run, d, m.args);
    }
  }

  lemma {:induction false} GrantWitnessed(run: seq<Cluster>, m: VoteRpc, adopt: bool, h: Tally)
    requires run != [] && Witnessed(run, h) && Enabled(Last(run), VoteArrives(m))
    requires RequestVote(Last(run).servers[m.voter], m.args).1.granted
    ensures Cast(run + [After(Last(run), VoteArrives(m), adopt)], Grant(m.args.term, m.voter, m.args.candidate))
  {
    var longer := run + [After(Last(run), VoteArrives(m), adopt)];
    assert WasAsked(run, m.args);
    var p :| AskedAt(run, p, m.args);
    assert Vote(longer, p, |run| - 1, Grant(m.args.term, m.voter, m.args.candidate), m.args);
  }

  lemma {:induction false} RunWitnessed(n: nat, adopt: bool, run: seq<Cluster>) returns (h: Tally)
    requires Run(n, adopt, run)
    ensures Inv(Last(run), h) && Witnessed(run, h)
  {
    if |run| == 1 {
      h := Tally({}, seq(n, _ => {}));
      BootIsFair(n);
    } else {
      var c, before := run[|run| - 2], run[..|run| - 1];
      RunFront(n, adopt, run);
      var h0 := RunWitnessed(n, adopt, before);
      var step :| Enabled(c, step) && run[|run| - 1] == After(c, step, adopt);
      StepKeeps(c, step, adopt, h0);
      h := AfterTally(c, step, h0);
      assert run == before + [After(c, step, adopt)];
      forall g | g in h.grants ensures Cast(run, g) {
        if g in h0.grants {
          CastStays(before, After(c, step, adopt), g);
        } else {
          GrantWitnessed(before, step.m, adopt, h0);
        }
      }
      forall m | m in Last(run).votes ensures WasAsked(run, m.args) { RequestsWitnessed(before, step, adopt, h0, m); }
    }
  }

  /**
   The voter gives the candidate its vote in that term, at a moment when its log is no newer than the candidate's was
   when it asked, and when it has not voted for anybody else in that term.
   */
  ghost predicate Chose(run: seq<Cluster>, p: nat, q: nat, voter: nat, candidate: nat, term: nat) {
    && p <= q && q + 1 < |run| && candidate < |run[p].servers| && voter < |run[q].servers| == |run[q + 1].servers|
    && var (asks, votes, voted) := (run[p].servers[candidate], run[q].servers[voter], run[q + 1].servers[voter]);
       && asks.role.Candidate? && asks.term == term
       && NoOlder(LastTerm(asks.log), LastIndex(asks.log), LastTerm(votes.log), LastIndex(votes.log))
       && (votes.term < term || (votes.term == term && votes.votedFor in {VOTED_NULL, candidate as int}))
       && voted.term == term && voted.votedFor == candidate && voted.log == votes.log
  }

  ghost predicate Elects(run: seq<Cluster>, camp: set<nat>, candidate: nat, term: nat)
    requires run != []
  {
    && candidate in camp && |camp| > |Last(run).servers| / 2
    && (forall v :: v in camp ==> v < |Last(run).servers|)
    && (forall v :: v in camp && v != candidate ==> exists p, q :: Chose(run, p, q, v, candidate, term))
  }

  /** In every run a current leader has the votes of a majority, none given against a newer log. */
  lemma {:induction false} ElectionRestriction(n: nat, adopt: bool, run: seq<Cluster>, i: nat)
    requires Run(n, adopt, run) && i < |Last(run).servers| && Last(run).servers[i].role.Leader?
    ensures exists camp :: Elects(run, camp, i, Last(run).servers[i].term)
  {
    var c, term := Last(run), Last(run).servers[i].term;
    var h := RunWitnessed(n, adopt, run);
    CampIs(c, h, i);
    forall v | v in Camp(h, i) && v != i ensures exists p, q :: Chose(run, p, q, v, i, term) {
      assert Cast(run, Grant(term, v, i));
      var p: nat, q: nat, args :| Vote(run, p, q, Grant(term, v, i), args);
      VoteGrantedIff(run[q].servers[v], args);
      assert Chose(run, p, q, v, i, term);
    }
    assert Elects(run, Camp(h, i), i, term);
  }
}
