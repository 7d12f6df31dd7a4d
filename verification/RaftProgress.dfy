module RaftProgress {
  // What keeps a cluster moving: acknowledgements are not forgotten, a majority of them
  // commits, followers learn of commits, and a refusal says where to go on.

  import opened RaftServers
  import opened RaftClusters
  import opened RaftElections
  import opened RaftMatchings
  import opened RaftRules
  import opened RaftReplies
  import opened RaftKeeping
  import opened RaftSafety
  import Histories

  // ---------------------------------------------------------------- runs with their steps

  ghost predicate Stepped(adopt: bool, run: seq<Cluster>, steps: seq<Step>) {
    && |run| == |steps| + 1
    && forall x {:trigger SteppedAt(adopt, run, steps, x)} :: 0 <= x < |steps| ==> SteppedAt(adopt, run, steps, x)
  }

  ghost predicate SteppedAt(adopt: bool, run: seq<Cluster>, steps: seq<Step>, x: nat)
    requires x < |steps| && |run| == |steps| + 1
  {
    Enabled(run[x], steps[x]) && run[x + 1] == After(run[x], steps[x], adopt)
  }

  lemma StepsPush(adopt: bool, run: seq<Cluster>, steps: seq<Step>, step: Step)
    requires Stepped(adopt, run, steps) && Enabled(Last(run), step)
    ensures Stepped(adopt, run + [After(Last(run), step, adopt)], steps + [step])
  {
    var run', steps' := run + [After(Last(run), step, adopt)], steps + [step];
    forall x | 0 <= x < |steps'| ensures SteppedAt(adopt, run', steps', x) {
      if x < |steps| { assert SteppedAt(adopt, run, steps, x); }
    }
  }

  /** Every run has its steps. */
  lemma {:induction false} EveryRunIsStepped(n: nat, adopt: bool, run: seq<Cluster>)
    requires Run(n, adopt, run)
    ensures exists steps :: Stepped(adopt, run, steps)
  {
    if |run| == 1 {
      assert Stepped(adopt, run, []);
    } else {
      var front := run[..|run| - 1];
      RunFront(n, adopt, run);
      EveryRunIsStepped(n, adopt, front);
      var steps :| Stepped(adopt, front, steps);
      var step :| Enabled(run[|run| - 2], step) && run[|run| - 1] == After(run[|run| - 2], step, adopt);
      StepsPush(adopt, front, steps, step);
      assert front + [run[|run| - 1]] == run;
    }
  }

  // ---------------------------------------------------------------- commit indices

  /** An append that is taken over, claims more commits than the follower has, and does not even reach those. */
  predicate FallsShort(s: Server, args: AppendArgs) {
    Fits(s, args) && args.leaderCommit > s.commitIndex > args.prevLogIndex + |args.entries|
  }

  /** Other than by its crash a server's commit index moves back exactly when such an append is delivered to it. */
  lemma {:induction false} CommitFallsIff(c: Cluster, step: Step, adopt: bool, i: nat)
    requires Enabled(c, step) && i < |c.servers| && step != Crashes(i)
    ensures |After(c, step, adopt).servers| == |c.servers|
    ensures After(c, step, adopt).servers[i].commitIndex < c.servers[i].commitIndex
            <==> step.AppendArrives? && step.call.to == i && FallsShort(c.servers[i], step.call.args)
  {
  }

  /** Over a run: as long as a server neither crashes nor is sent such an append, its commit index never moves back. */
  lemma {:induction false} CommitNeverFalls(adopt: bool, run: seq<Cluster>, steps: seq<Step>, i: nat, p: nat, q: nat)
    requires Stepped(adopt, run, steps) && p <= q < |run| && i < |run[p].servers|
    requires forall x :: p <= x < q ==> steps[x] != Crashes(i)
    requires forall x :: p <= x < q && steps[x].AppendArrives? && steps[x].call.to == i && i < |run[x].servers| ==>
               !FallsShort(run[x].servers[i], steps[x].call.args)
    ensures i < |run[q].servers| && run[p].servers[i].commitIndex <= run[q].servers[i].commitIndex
    decreases q
  {
    if p < q {
      CommitNeverFalls(adopt, run, steps, i, p, q - 1);
      assert SteppedAt(adopt, run, steps, q - 1);
      CommitFallsIff(run[q - 1], steps[q - 1], adopt, i);
    }
  }

  /**
   A follower that takes an append over and had committed less than the leader when it sent it has then committed as
   much as the leader had, as far as its log reaches; otherwise its commit index stays.
   */
  lemma {:induction false} CommitFollows(run: seq<Cluster>, p: nat, q: nat, x: AppendAnswer)
    requires Trip(run, p, q, x) && x.reply.success && x.reply.conflictTerm < 0
    ensures var (before, after) := (run[q].servers[x.call.to].commitIndex, run[q + 1].servers[x.call.to]);
            var (told, last) := (run[p].servers[x.call.args.leader].commitIndex, |after.log| - 1);
            after.commitIndex == if told <= before then before else if told < last then told else last
  {
  }

  // ---------------------------------------------------------------- match indices

  /** In a cluster of n the server leads this term from moment p to moment q. */
  ghost predicate Leads(run: seq<Cluster>, n: nat, i: nat, term: nat, p: nat, q: nat) {
    && p <= q < |run|
    && forall x {:trigger LeadsAt(run, n, i, term, x)} :: p <= x <= q ==> LeadsAt(run, n, i, term, x)
  }

  ghost predicate LeadsAt(run: seq<Cluster>, n: nat, i: nat, term: nat, x: nat)
    requires x < |run|
  {
    && Sized(run[x]) && i < |run[x].servers| == n
    && run[x].servers[i].role.Leader? && run[x].servers[i].term == term
  }

  /** The step takes in an answer of peer j to an append of this leader and term, in that term. */
  ghost predicate TakesIn(step: Step, i: nat, term: nat, j: nat, success: bool) {
    && step.AppendComesBack? && step.answer.call.to == j && step.answer.call.args.leader == i
    && step.answer.call.args.term == term == step.answer.reply.term && step.answer.reply.success == success
  }

  function LastSent(args: AppendArgs): nat {
    args.prevLogIndex + |args.entries|
  }

  lemma {:induction false} MatchStep(c: Cluster, step: Step, adopt: bool, i: nat, j: nat)
    requires Enabled(c, step) && i < |c.servers| && j < |c.servers| && c.servers[i].role.Leader?
    requires var t := After(c, step, adopt).servers[i]; t.role.Leader? && t.term == c.servers[i].term
    requires !TakesIn(step, i, c.servers[i].term, j, false)
    ensures After(c, step, adopt).servers[i].peers == c.servers[i].peers
    ensures c.servers[i].matchIndex[j] <= After(c, step, adopt).servers[i].matchIndex[j]
    ensures TakesIn(step, i, c.servers[i].term, j, true) ==>
              LastSent(step.answer.call.args) <= After(c, step, adopt).servers[i].matchIndex[j]
  {
  }

  /** While a leader takes in no refusal of a peer, what it believes the peer to hold never shrinks. */
  lemma {:induction false} MatchNeverFalls(adopt: bool, run: seq<Cluster>, steps: seq<Step>, n: nat, i: nat, term: nat,
                                           j: nat, p: nat, q: nat)
    requires Stepped(adopt, run, steps) && Leads(run, n, i, term, p, q) && j < n
    requires forall x :: p <= x < q ==> !TakesIn(steps[x], i, term, j, false)
    ensures LeadsAt(run, n, i, term, p) && LeadsAt(run, n, i, term, q)
    ensures run[p].servers[i].matchIndex[j] <= run[q].servers[i].matchIndex[j]
    decreases q
  {
    assert LeadsAt(run, n, i, term, p) && LeadsAt(run, n, i, term, q);
    if p < q {
      MatchNeverFalls(adopt, run, steps, n, i, term, j, p, q - 1);
      assert SteppedAt(adopt, run, steps, q - 1);
      MatchStep(run[q - 1], steps[q - 1], adopt, i, j);
    }
  }

  /** At step x the leader took in a success of peer j that reaches index `at`, and no refusal of j since. */
  ghost predicate Credits(steps: seq<Step>, i: nat, term: nat, j: nat, at: nat, x: nat, q: nat)
    requires q <= |steps|
  {
    && x < q && TakesIn(steps[x], i, term, j, true) && at <= LastSent(steps[x].answer.call.args)
    && forall y :: x < y < q ==> !TakesIn(steps[y], i, term, j, false)
  }

  ghost predicate Credited(steps: seq<Step>, i: nat, term: nat, j: nat, at: nat, p: nat, q: nat)
    requires q <= |steps|
  {
    exists x :: p <= x && Credits(steps, i, term, j, at, x, q)
  }

  ghost predicate AllCredited(steps: seq<Step>, n: nat, i: nat, term: nat, camp: set<nat>, at: nat, p: nat, q: nat)
    requires q <= |steps|
  {
    forall j {:trigger Credited(steps, i, term, j, at, p, q)} :: j in camp ==>
        j < n && Credited(steps, i, term, j, at, p, q)
  }

  /** Every success taken in counts until a refusal is. */
  lemma {:induction false} CreditCounts(adopt: bool, run: seq<Cluster>, steps: seq<Step>, n: nat, i: nat, term: nat,
                                        j: nat, at: nat, p: nat, q: nat)
    requires Stepped(adopt, run, steps) && Leads(run, n, i, term, p, q) && j < n
    requires Credited(steps, i, term, j, at, p, q)
    ensures LeadsAt(run, n, i, term, q) && at <= run[q].servers[i].matchIndex[j]
  {
    var x: nat :| p <= x && Credits(steps, i, term, j, at, x, q);
    assert LeadsAt(run, n, i, term, x) && LeadsAt(run, n, i, term, x + 1);
    assert SteppedAt(adopt, run, steps, x);
    MatchStep(run[x], steps[x], adopt, i, j);
    forall y | x + 1 <= y <= q ensures LeadsAt(run, n, i, term, y) { }
    MatchNeverFalls(adopt, run, steps, n, i, term, j, x + 1, q);
  }

  /** Who is credited at q but was not a moment before is credited by the last step. */
  lemma LastCredit(steps: seq<Step>, i: nat, term: nat, j: nat, at: nat, p: nat, q: nat)
    requires p < q <= |steps| && Credited(steps, i, term, j, at, p, q) && !Credited(steps, i, term, j, at, p, q - 1)
    ensures TakesIn(steps[q - 1], i, term, j, true)
  {
    var x: nat :| p <= x && Credits(steps, i, term, j, at, x, q);
    if x < q - 1 { assert Credits(steps, i, term, j, at, x, q - 1); }
  }

  // ---------------------------------------------------------------- a majority commits

  lemma {:induction false} AnswerCommits(c: Cluster, step: Step, adopt: bool, i: nat, camp: set<nat>, at: nat)
    requires Enabled(c, step) && i < |c.servers| && |c.servers| > 1 && i !in camp && |camp| + 1 > |c.servers| / 2
    requires step.AppendComesBack? && step.answer.call.args.leader == i && c.servers[i].role.Leader?
    requires step.answer.call.args.term == c.servers[i].term == step.answer.reply.term
    requires var t := After(c, step, adopt).servers[i];
             && t.role.Leader? && at < |t.log| && t.log[at].term == t.term
             && forall j :: j in camp ==> j < t.peers && t.matchIndex[j] >= at
    ensures at <= After(c, step, adopt).servers[i].commitIndex
  {
    var s, t, x := c.servers[i], After(c, step, adopt).servers[i], step.answer;
    CommitsTheHighest(s, x.call.to, x.call.args, x.reply, adopt);
    Histories.FitsBelow(Holders(t, at), t.peers);
    assert camp + {i} <= Holders(t, at);
    Larger(camp + {i}, Holders(t, at));
  }

  lemma Larger(a: set<nat>, b: set<nat>)
    requires a <= b
    ensures |a| <= |b|
  {
    assert b == a + (b - a);
  }

  /** There is an entry of its own term at this index. */
  predicate HoldsOwn(s: Server, at: nat) {
    at < |s.log| && s.log[at].term == s.term
  }

  lemma {:induction false} LastCreditCommits(adopt: bool, n: nat, run: seq<Cluster>, steps: seq<Step>, i: nat,
                                             term: nat, at: nat,
                                             camp: set<nat>, p: nat, q: nat, j: nat)
    requires Stepped(adopt, run, steps) && n > 1 && Leads(run, n, i, term, p, q) && p < q
    requires LeadsAt(run, n, i, term, q) && HoldsOwn(run[q].servers[i], at)
    requires i !in camp && |camp| + 1 > n / 2
    requires AllCredited(steps, n, i, term, camp, at, p, q)
    requires j in camp && !Credited(steps, i, term, j, at, p, q - 1)
    ensures at <= run[q].servers[i].commitIndex
  {
    assert LeadsAt(run, n, i, term, q - 1) && SteppedAt(adopt, run, steps, q - 1);
    assert Credited(steps, i, term, j, at, p, q);
    LastCredit(steps, i, term, j, at, p, q);
    forall v | v in camp ensures v < n && at <= run[q].servers[i].matchIndex[v] {
      assert Credited(steps, i, term, v, at, p, q);
      CreditCounts(adopt, run, steps, n, i, term, v, at, p, q);
    }
    AnswerCommits(run[q - 1], steps[q - 1], adopt, i, camp, at);
  }

  /** While a leader holds an entry of its own term, a majority's credit for it has it committed at some moment. */
  lemma {:induction false} MajorityHasCommitted(adopt: bool, n: nat, run: seq<Cluster>, steps: seq<Step>, i: nat,
                                                term: nat,
                                                at: nat, camp: set<nat>, p: nat, q: nat) returns (x: nat)
    requires Stepped(adopt, run, steps) && n > 1 && Leads(run, n, i, term, p, q)
    requires forall y :: p < y <= q ==> LeadsAt(run, n, i, term, y) && HoldsOwn(run[y].servers[i], at)
    requires i !in camp && |camp| + 1 > n / 2 && AllCredited(steps, n, i, term, camp, at, p, q)
    ensures p < x <= q && LeadsAt(run, n, i, term, x) && at <= run[x].servers[i].commitIndex
    decreases q
  {
    assert camp != {};
    var k: nat :| k in camp;
    assert Credited(steps, i, term, k, at, p, q);
    if AllCredited(steps, n, i, term, camp, at, p, q - 1) {
      x := MajorityHasCommitted(adopt, n, run, steps, i, term, at, camp, p, q - 1);
    } else {
      var j: nat :| j in camp && !(j < n && Credited(steps, i, term, j, at, p, q - 1));
      assert Credited(steps, i, term, j, at, p, q) && LeadsAt(run, n, i, term, q);
      LastCreditCommits(adopt, n, run, steps, i, term, at, camp, p, q, j);
      x := q;
    }
  }

  /** The entry was in the leader's log a moment before, too. */
  lemma {:induction false} EntryWasThere(n: nat, run: seq<Cluster>, i: nat, term: nat, q: nat, j: nat, at: nat)
    requires Run(n, true, run) && q + 1 < |run| && LeadsAt(run, n, i, term, q) && LeadsAt(run, n, i, term, q + 1)
    requires j < n && at <= run[q].servers[i].matchIndex[j]
    requires HoldsOwn(run[q + 1].servers[i], at)
    ensures HoldsOwn(run[q].servers[i], at)
  {
    RunPrefix(n, true, run, q + 1);
    var h, r := RunRuled(n, run[..q + 1]);
    assert HolderOk(run[q], r, i) && IndexOk(run[q].servers[i], j);
    LeaderAppendsOnly(n, run, q, q + 1, i);
  }

  /**
   With the newer term adopted, or where the code as written behaves as if it were: an entry of the leader's own term
   that a majority, the leader included, is credited with is committed.
   */
  lemma {:induction false} MajorityCommits(adopt: bool, n: nat, run: seq<Cluster>, steps: seq<Step>, i: nat, term: nat,
                                           at: nat,
                                           camp: set<nat>, p: nat, q: nat)
    requires Run(n, true, run) && Stepped(adopt, run, steps) && n > 1 && Leads(run, n, i, term, p, q)
    requires LeadsAt(run, n, i, term, q) && HoldsOwn(run[q].servers[i], at)
    requires i !in camp && |camp| + 1 > n / 2
    requires AllCredited(steps, n, i, term, camp, at, p, q)
    ensures at <= run[q].servers[i].commitIndex
    decreases q
  {
    assert camp != {};
    var k: nat :| k in camp;
    assert Credited(steps, i, term, k, at, p, q);
    if AllCredited(steps, n, i, term, camp, at, p, q - 1) {
      EntryWasCounted(adopt, n, run, steps, i, term, at, p, q, k);
      MajorityCommits(adopt, n, run, steps, i, term, at, camp, p, q - 1);
      CommitNeverFallsLeading(adopt, n, run, steps, i, term, q - 1);
    } else {
      var j: nat :| j in camp && !(j < n && Credited(steps, i, term, j, at, p, q - 1));
      assert Credited(steps, i, term, j, at, p, q);
      LastCreditCommits(adopt, n, run, steps, i, term, at, camp, p, q, j);
    }
  }

  /** An entry that a peer was credited with a moment before was in the log then. */
  lemma {:induction false} EntryWasCounted(adopt: bool, n: nat, run: seq<Cluster>, steps: seq<Step>, i: nat, term: nat,
                                           at: nat, p: nat,
                                           q: nat, k: nat)
    requires Run(n, true, run) && Stepped(adopt, run, steps) && Leads(run, n, i, term, p, q) && p < q
    requires LeadsAt(run, n, i, term, q) && HoldsOwn(run[q].servers[i], at)
    requires k < n && Credited(steps, i, term, k, at, p, q - 1)
    ensures Leads(run, n, i, term, p, q - 1) && LeadsAt(run, n, i, term, q - 1)
    ensures HoldsOwn(run[q - 1].servers[i], at)
  {
    assert LeadsAt(run, n, i, term, q - 1);
    CreditCounts(adopt, run, steps, n, i, term, k, at, p, q - 1);
    EntryWasThere(n, run, i, term, q - 1, k, at);
  }

  /** A leader's commit index does not move back while it leads. */
  lemma {:induction false} CommitNeverFallsLeading(adopt: bool, n: nat, run: seq<Cluster>, steps: seq<Step>, i: nat,
                                                   term: nat, q: nat)
    requires Run(n, true, run) && Stepped(adopt, run, steps) && q + 1 < |run|
    requires LeadsAt(run, n, i, term, q) && LeadsAt(run, n, i, term, q + 1)
    ensures run[q].servers[i].commitIndex <= run[q + 1].servers[i].commitIndex
  {
    var c, step := run[q], steps[q];
    assert SteppedAt(adopt, run, steps, q);
    CommitFallsIff(c, step, adopt, i);
    if step.AppendArrives? && step.call.to == i {
      RunPrefix(n, true, run, q + 1);
      var h, r := RunRuled(n, run[..q + 1]);
      assert CallOk(c, r, step.call) && HolderOk(c, r, i);
      AppendEffect(c.servers[i], step.call.args);
    }
  }

  // ---------------------------------------------------------------- in runs off the three branches

  /** Off the three branches no append falls short, so that a server that does not crash never takes a commit back. */
  lemma {:induction false} CommitsGoForward(n: nat, w: Watch, run: seq<Cluster>, steps: seq<Step>, i: nat, p: nat,
                                            q: nat)
    requires WatchedRun(n, w, run) && w.conflict && w.cut && (w.adopt || w.news) && Stepped(w.adopt, run, steps)
    requires forall x :: 0 <= x < |steps| ==> Enabled(run[x], steps[x]) && Heeds(w, run[x], steps[x])
    requires p <= q < |run| && i < |run[p].servers| && forall x :: p <= x < q ==> steps[x] != Crashes(i)
    ensures i < |run[q].servers| && run[p].servers[i].commitIndex <= run[q].servers[i].commitIndex
  {
    forall x | p <= x < q && steps[x].AppendArrives? && steps[x].call.to == i && i < |run[x].servers|
      ensures !FallsShort(run[x].servers[i], steps[x].call.args)
    {
      var a := steps[x].call;
      assert Enabled(run[x], steps[x]) && Heeds(w, run[x], steps[x]);
      WatchedPrefix(n, w, run, x + 1);
      var h, r, m := RunSteady(n, w, run[..x + 1]);
      if Fits(run[x].servers[i], a.args) {
        DeliveredCommit(run[x], h, r, m, a, m.acks);
        FollowerCopies(run[x], h, r, a);
      }
    }
    CommitNeverFalls(w.adopt, run, steps, i, p, q);
  }

  /** And a follower that takes an append over has then committed at least as much as the leader had when it sent it. */
  lemma {:induction false} CommitCatchesUp(n: nat, w: Watch, run: seq<Cluster>, p: nat, q: nat, x: AppendAnswer)
    requires WatchedRun(n, w, run) && w.conflict && w.cut && (w.adopt || w.news)
    requires Trip(run, p, q, x) && x.reply.success && x.reply.conflictTerm < 0
    ensures var (before, told) := (run[q].servers[x.call.to].commitIndex,
                                   run[p].servers[x.call.args.leader].commitIndex);
            run[q + 1].servers[x.call.to].commitIndex == if told <= before then before else told
  {
    CommitFollows(run, p, q, x);
    WatchedAsAdopting(n, w, run);
    SuccessIsCopyIffNoConflict(n, run, p, q, x);
    WatchedPrefix(n, w, run, p + 1);
    var h, r, m := RunSteady(n, w, run[..p + 1]);
    assert CommitOk(n, r, m.acks, run[..p + 1][p].servers[x.call.args.leader]);
  }

  lemma WatchedAsAdopting(n: nat, w: Watch, run: seq<Cluster>)
    requires WatchedRun(n, w, run) && (w.adopt || w.news)
    ensures Run(n, true, run)
  {
    forall i | 0 <= i < |run| - 1 ensures NextAt(true, run, i) {
      assert WatchedAt(w, run, i);
      var step :| Enabled(run[i], step) && Heeds(w, run[i], step) && run[i + 1] == After(run[i], step, w.adopt);
      assert After(run[i], step, true) == After(run[i], step, w.adopt);
    }
  }

  // ---------------------------------------------------------------- refusals

  /** A refusal in the leader's own term means that the follower's log is too short, and names its length. */
  lemma {:induction false} RefusalNamesLength(run: seq<Cluster>, q: nat, x: AppendAnswer)
    requires AnsweredAt(run, q, x) && x.reply.term == x.call.args.term && !x.reply.success
    ensures x.reply.conflictTerm < 0
    ensures x.reply.conflictIndex == |run[q].servers[x.call.to].log| <= x.call.args.prevLogIndex
  {
  }

  /** A conflict names the follower's term at the previous index and where that term begins in its log. */
  lemma {:induction false} ConflictNamesStretch(run: seq<Cluster>, q: nat, x: AppendAnswer)
    requires AnsweredAt(run, q, x) && x.reply.conflictTerm >= 0
    ensures var (log, prev, first) := (run[q].servers[x.call.to].log, x.call.args.prevLogIndex, x.reply.conflictIndex);
            && x.reply.success && 0 <= first <= prev < |log|
            && x.reply.conflictTerm == log[prev].term != x.call.args.prevLogTerm
            && (forall k :: first <= k <= prev ==> log[k].term == log[prev].term)
            && (first > 0 ==> log[first - 1].term != log[prev].term)
  {
  }

  /** A leader that takes a refusal in goes on from the end of the follower's log as it was. */
  lemma {:induction false} RefusalIsHeeded(adopt: bool, run: seq<Cluster>, steps: seq<Step>, n: nat, i: nat, term: nat,
                                           q: nat, y: nat)
    requires Stepped(adopt, run, steps) && y < |steps| && LeadsAt(run, n, i, term, y) && LeadsAt(run, n, i, term, y + 1)
    requires steps[y].AppendComesBack? && TakesIn(steps[y], i, term, steps[y].answer.call.to, false)
    requires AnsweredAt(run, q, steps[y].answer) && steps[y].answer.call.to < n
    ensures var j := steps[y].answer.call.to;
            && run[y + 1].servers[i].nextIndex[j] == |run[q].servers[j].log|
            && run[y + 1].servers[i].matchIndex[j] == |run[q].servers[j].log| - 1
  {
    assert SteppedAt(adopt, run, steps, y);
    RefusalNamesLength(run, q, steps[y].answer);
  }

  // ---------------------------------------------------------------- candidates

  /** It has moved beyond `term`, or is in it as a follower. */
  predicate DoneStanding(s: Server, term: nat) {
    s.saved.term == s.term >= term && (s.term == term ==> s.role.Follower?)
  }

  lemma {:induction false} StaysDone(c: Cluster, step: Step, adopt: bool, i: nat, term: nat)
    requires Enabled(c, step) && i < |c.servers| && DoneStanding(c.servers[i], term)
    ensures |After(c, step, adopt).servers| == |c.servers| && DoneStanding(After(c, step, adopt).servers[i], term)
  {
  }

  /** A candidate that an answer tells of a newer term never leads the term it stood in, nor stands in it again. */
  lemma {:induction false} OutdatedNeverLeads(adopt: bool, run: seq<Cluster>, steps: seq<Step>, y: nat, z: nat)
    requires Stepped(adopt, run, steps) && y < z < |run| && steps[y].VoteComesBack? && steps[y].m.Answered?
    requires steps[y].m.args.candidate < |run[y].servers| && run[y].servers[steps[y].m.args.candidate].role.Candidate?
    requires run[y].servers[steps[y].m.args.candidate].term == steps[y].m.args.term < steps[y].m.reply.term
    ensures steps[y].m.args.candidate < |run[z].servers|
    ensures DoneStanding(run[z].servers[steps[y].m.args.candidate], steps[y].m.args.term)
  {
    var m := steps[y].m;
    if z == y + 1 {
      assert SteppedAt(adopt, run, steps, y);
      GivesUpIffOutdated(run[y].servers[m.args.candidate], m.args, m.reply);
    } else {
      OutdatedNeverLeads(adopt, run, steps, y, z - 1);
      assert SteppedAt(adopt, run, steps, z - 1);
      StaysDone(run[z - 1], steps[z - 1], adopt, m.args.candidate, m.args.term);
    }
  }
}
