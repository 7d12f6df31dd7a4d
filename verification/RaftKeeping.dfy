module RaftKeeping {
  // Why what a majority has acknowledged is kept.  Remembered are every acknowledgement
  // ever given and the log every candidate stood with.  For each entry written in a term,
  // every later leader has it, or a majority has moved on without acknowledging it and so
  // never will.

  import opened RaftServers
  import opened RaftClusters
  import opened RaftElections
  import opened RaftMatchings
  import opened RaftRules

  /** While in this term, the voter held the first `len` entries of the log of the term's leader. */
  datatype Ack = Ack(term: nat, voter: nat, len: nat)

  datatype Candidacy = Candidacy(term: nat, candidate: nat)

  datatype Memory = Memory(acks: set<Ack>, ballots: map<Candidacy, seq<LogEntry>>)

  // ---------------------------------------------------------------- logs

  ghost predicate Has(log: seq<LogEntry>, full: seq<LogEntry>, k: nat) {
    k < |log| && k < |full| && log[..k + 1] == full[..k + 1]
  }

  lemma HasLess(log: seq<LogEntry>, full: seq<LogEntry>, k: nat, j: nat)
    requires Has(log, full, k) && j <= k
    ensures Has(log, full, j) && log[j] == full[j]
  {
    assert log[..j + 1] == log[..k + 1][..j + 1] && full[..j + 1] == full[..k + 1][..j + 1];
    assert log[j] == log[..j + 1][j] && full[j] == full[..j + 1][j];
  }

  lemma HasOn(a: seq<LogEntry>, b: seq<LogEntry>, c: seq<LogEntry>, k: nat)
    requires Has(a, b, k) && Has(b, c, k)
    ensures Has(a, c, k)
  {
  }

  lemma HasPrefix(log: seq<LogEntry>, full: seq<LogEntry>, k: nat)
    requires log <= full && k < |log|
    ensures Has(log, full, k) && Has(full, log, k)
  {
    assert log[..k + 1] == full[..k + 1];
  }

  /** An entry of its own term in the log of a term's leader. */
  ghost predicate OfTerm(r: Reigns, t: nat, k: nat) {
    t in r && k < |r[t].log| && r[t].log[k].term == t
  }

  ghost predicate TermsUpTo(log: seq<LogEntry>, t: nat) {
    forall k :: 0 <= k < |log| ==> log[k].term <= t
  }

  ghost predicate InOrder(r: Reigns) {
    forall u {:trigger TermsUpTo(r[u].log, u)} :: u in r ==> TermsUpTo(r[u].log, u)
  }

  /** Terms never fall along a good log. */
  lemma TermsAscend(r: Reigns, log: seq<LogEntry>, i: nat, j: nat)
    requires LogOk(r, log) && InOrder(r) && i <= j < |log|
    ensures log[i].term <= log[j].term
  {
    if i < j {
      assert EntryOk(r, log, j);
      var u := log[j].term;
      assert TermsUpTo(r[u].log, u);
      assert log[i] == log[..j + 1][i] == r[u].log[i];
    }
  }

  lemma {:induction false} AgreeingAll(log: seq<LogEntry>, at: nat, entries: seq<LogEntry>)
    requires at + |entries| <= |log| && entries == log[at..at + |entries|]
    ensures Agreeing(log, at, entries) == |entries|
    decreases |entries|
  {
    if entries != [] {
      assert entries[0] == log[at];
      assert entries[1..] == log[at + 1..at + 1 + |entries[1..]|];
      AgreeingAll(log, at + 1, entries[1..]);
    }
  }

  /** What a log shares with the sender's beyond the end of an append means that the append ends short. */
  lemma {:induction false} SharedBeyond(log: seq<LogEntry>, ruler: seq<LogEntry>, args: AppendArgs, k: nat)
    requires Stretch(ruler, args) && Has(log, ruler, k) && args.prevLogIndex + 1 + |args.entries| <= k
    ensures EndsShort(log, args)
  {
    var at, len := args.prevLogIndex + 1, args.prevLogIndex + 1 + |args.entries|;
    HasLess(log, ruler, k, len - 1);
    assert log[at..len] == log[..len][at..] == ruler[..len][at..] == ruler[at..len];
    AgreeingAll(log, at, args.entries);
  }

  /** An append that does not end short takes nothing away that the log shares with the sender's. */
  lemma {:induction false} DeliveryKeeps(r: Reigns, log: seq<LogEntry>, ruler: seq<LogEntry>, args: AppendArgs, k: nat)
    requires LogOk(r, log) && LogOk(r, ruler) && Stretch(ruler, args)
    requires args.prevLogIndex < |log| && log[args.prevLogIndex].term == args.prevLogTerm
    requires Has(log, ruler, k) && !EndsShort(log, args)
    ensures Has(Merged(log, args.prevLogIndex, args.entries), ruler, k)
  {
    var len := args.prevLogIndex + 1 + |args.entries|;
    DeliveredLog(r, log, ruler, args.prevLogIndex, args.entries);
    if len <= k { SharedBeyond(log, ruler, args, k); }
    assert ruler[..len][..k + 1] == ruler[..k + 1];
  }

  // ---------------------------------------------------------------- acknowledged, or never to be

  ghost predicate AckedPast(acks: set<Ack>, t: nat, v: nat, k: nat) {
    exists len: nat :: len > k && Ack(t, v, len) in acks
  }

  ghost predicate Abstains(c: Cluster, acks: set<Ack>, v: nat, t: nat, k: nat) {
    v < |c.servers| && c.servers[v].term > t && !AckedPast(acks, t, v, k)
  }

  ghost predicate BlockedBy(c: Cluster, acks: set<Ack>, t: nat, k: nat, camp: set<nat>) {
    |camp| > |c.servers| / 2 && forall v :: v in camp ==> Abstains(c, acks, v, t, k)
  }

  /** A majority has moved on from the term without acknowledging index k in it. */
  ghost predicate Blocked(c: Cluster, acks: set<Ack>, t: nat, k: nat) {
    exists camp :: BlockedBy(c, acks, t, k, camp)
  }

  ghost predicate Kept(c: Cluster, r: Reigns, acks: set<Ack>, log: seq<LogEntry>, t: nat, k: nat)
    requires OfTerm(r, t, k)
  {
    Has(log, r[t].log, k) || Blocked(c, acks, t, k)
  }

  // ---------------------------------------------------------------- the invariant

  ghost predicate AckOk(c: Cluster, r: Reigns, a: Ack) {
    && a.voter < |c.servers| && a.term in r && 0 < a.len <= |r[a.term].log|
    && var s := c.servers[a.voter];
       a.term <= s.term && (a.term == s.term ==> Has(s.log, r[a.term].log, a.len - 1))
  }

  /** Who acknowledged an entry has it still, unless it is blocked. */
  ghost predicate Holds(c: Cluster, r: Reigns, acks: set<Ack>, v: nat, t: nat, k: nat) {
    v < |c.servers| && AckedPast(acks, t, v, k) && OfTerm(r, t, k) ==> Kept(c, r, acks, c.servers[v].log, t, k)
  }

  /** A later leader has it, unless it is blocked. */
  ghost predicate Later(c: Cluster, r: Reigns, acks: set<Ack>, u: nat, t: nat, k: nat) {
    u in r && t < u && OfTerm(r, t, k) ==> Kept(c, r, acks, r[u].log, t, k)
  }

  /** Whoever was voted for by one who had acknowledged it has it, unless it is blocked. */
  ghost predicate Passed(c: Cluster, r: Reigns, m: Memory, g: Grant, t: nat, k: nat) {
    var x := Candidacy(g.term, g.candidate);
    && x in m.ballots
    && (t < g.term && AckedPast(m.acks, t, g.voter, k) && OfTerm(r, t, k) ==> Kept(c, r, m.acks, m.ballots[x], t, k))
  }

  /** A candidacy is no later than the candidate's term, and the candidate keeps its log until somebody wins. */
  ghost predicate BallotOk(c: Cluster, r: Reigns, m: Memory, x: Candidacy)
    requires x in m.ballots
  {
    && x.candidate < |c.servers| && LogOk(r, m.ballots[x])
    && var s := c.servers[x.candidate];
       x.term <= s.term && (x.term == s.term && s.role.Candidate? && x.term !in r ==> s.log == m.ballots[x])
  }

  ghost predicate VoteOk(m: Memory, v: VoteRpc) {
    var x := Candidacy(v.args.term, v.args.candidate);
    && x in m.ballots && m.ballots[x] != []
    && v.args.lastLogIndex == LastIndex(m.ballots[x]) && v.args.lastLogTerm == LastTerm(m.ballots[x])
  }

  /** If the entry is of the leader's own term, the peer has acknowledged it. */
  ghost predicate AckedAt(acks: set<Ack>, log: seq<LogEntry>, term: nat, v: nat, k: int) {
    0 <= k < |log| && (log[k].term == term ==> Ack(term, v, k + 1) in acks)
  }

  ghost predicate PeerAcked(acks: set<Ack>, s: Server, j: nat)
    requires s.role.Leader? && j < s.peers
  {
    AckedAt(acks, s.log, s.term, j, s.nextIndex[j] - 1) && AckedAt(acks, s.log, s.term, j, s.matchIndex[j])
  }

  ghost predicate ServerSteady(c: Cluster, m: Memory, i: nat)
    requires i < |c.servers|
  {
    var s := c.servers[i];
    && TermsUpTo(s.log, s.term)
    && (s.role.Candidate? ==> Candidacy(s.term, i) in m.ballots)
    && (s.role.Leader? ==> && AckedAt(m.acks, s.log, s.term, i, |s.log| - 1)
                           && forall j {:trigger PeerAcked(m.acks, s, j)} :: 0 <= j < s.peers ==>
                                PeerAcked(m.acks, s, j))
  }

  // ---------------------------------------------------------------- what is committed

  ghost predicate ChosenBy(n: nat, acks: set<Ack>, t: nat, k: nat, camp: set<nat>) {
    |camp| > n / 2 && forall v :: v in camp ==> v < n && AckedPast(acks, t, v, k)
  }

  /** A majority has acknowledged an entry of the term in the term. */
  ghost predicate Chosen(n: nat, r: Reigns, acks: set<Ack>, t: nat, k: nat) {
    OfTerm(r, t, k) && exists camp :: ChosenBy(n, acks, t, k, camp)
  }

  ghost predicate CommittedBy(n: nat, r: Reigns, acks: set<Ack>, log: seq<LogEntry>, term: nat, index: nat, t: nat,
                              k: nat)
  {
    Chosen(n, r, acks, t, k) && t <= term && index <= k && Has(log, r[t].log, index)
  }

  /** The log up to the index is what some chosen entry, of a term no later, was written on top of. */
  ghost predicate IsCommitted(n: nat, r: Reigns, acks: set<Ack>, log: seq<LogEntry>, term: nat, index: nat) {
    index > 0 ==> exists t, k :: CommittedBy(n, r, acks, log, term, index, t, k)
  }

  ghost predicate CommitOk(n: nat, r: Reigns, acks: set<Ack>, s: Server) {
    s.commitIndex < |s.log| && IsCommitted(n, r, acks, s.log, s.term, s.commitIndex)
  }

  // ---------------------------------------------------------------- messages

  ghost predicate CallSteady(n: nat, r: Reigns, acks: set<Ack>, a: AppendCall) {
    && (a.args.prevLogTerm == a.args.term ==> Ack(a.args.term, a.to, a.args.prevLogIndex + 1) in acks)
    && a.args.term in r && a.args.leaderCommit < |r[a.args.term].log|
    && IsCommitted(n, r, acks, r[a.args.term].log, a.args.term, a.args.leaderCommit)
  }

  ghost predicate AnswerSteady(acks: set<Ack>, x: AppendAnswer) {
    var args := x.call.args;
    && (x.reply.success ==> Ack(args.term, x.call.to, args.prevLogIndex + 1 + |args.entries|) in acks)
    && (x.reply.term == args.term && !x.reply.success ==> args.prevLogTerm != args.term)
  }

  // ---------------------------------------------------------------- all of it

  ghost predicate AcksOk(c: Cluster, r: Reigns, acks: set<Ack>) {
    && (forall a {:trigger AckOk(c, r, a)} :: a in acks ==> AckOk(c, r, a))
    && (forall v: nat, t: nat, k: nat {:trigger Holds(c, r, acks, v, t, k)} :: Holds(c, r, acks, v, t, k))
  }

  ghost predicate LaterOk(c: Cluster, r: Reigns, acks: set<Ack>) {
    forall u: nat, t: nat, k: nat {:trigger Later(c, r, acks, u, t, k)} :: Later(c, r, acks, u, t, k)
  }

  ghost predicate BallotsOk(c: Cluster, h: Tally, r: Reigns, m: Memory) {
    && (forall x {:trigger BallotOk(c, r, m, x)} :: x in m.ballots ==> BallotOk(c, r, m, x))
    && (forall v {:trigger VoteOk(m, v)} :: v in c.votes ==> VoteOk(m, v))
    && (forall g, t: nat, k: nat {:trigger Passed(c, r, m, g, t, k)} :: g in h.grants ==> Passed(c, r, m, g, t, k))
  }

  ghost predicate ServersSteady(c: Cluster, r: Reigns, m: Memory) {
    && InOrder(r)
    && (forall i {:trigger ServerSteady(c, m, i)} :: 0 <= i < |c.servers| ==> ServerSteady(c, m, i))
    && (forall i {:trigger CommitOk(|c.servers|, r, m.acks, c.servers[i])} :: 0 <= i < |c.servers| ==>
          CommitOk(|c.servers|, r, m.acks, c.servers[i]))
  }

  ghost predicate MailSteady(c: Cluster, r: Reigns, acks: set<Ack>) {
    && (forall a {:trigger CallSteady(|c.servers|, r, acks, a)} :: a in c.appends ==>
          CallSteady(|c.servers|, r, acks, a))
    && (forall x {:trigger AnswerSteady(acks, x)} :: x in c.answers ==> AnswerSteady(acks, x))
  }

  ghost predicate Steady(c: Cluster, h: Tally, r: Reigns, m: Memory) {
    && AcksOk(c, r, m.acks) && LaterOk(c, r, m.acks) && BallotsOk(c, h, r, m)
    && ServersSteady(c, r, m) && MailSteady(c, r, m.acks)
  }

  // ---------------------------------------------------------------- what time does not change

  /** Terms only rise, and who acknowledges anew has not moved on. */
  ghost predicate Onward(c: Cluster, d: Cluster, acks: set<Ack>, acks': set<Ack>) {
    && |d.servers| == |c.servers| && acks <= acks'
    && (forall v :: 0 <= v < |c.servers| ==> d.servers[v].term >= c.servers[v].term)
    && (forall a :: a in acks' && a !in acks ==> a.voter < |c.servers| && c.servers[a.voter].term <= a.term)
  }

  lemma {:induction false} BlockedStays(c: Cluster, d: Cluster, acks: set<Ack>, acks': set<Ack>, t: nat, k: nat)
    requires Onward(c, d, acks, acks') && Blocked(c, acks, t, k)
    ensures Blocked(d, acks', t, k)
  {
    var camp :| BlockedBy(c, acks, t, k, camp);
    forall v | v in camp ensures Abstains(d, acks', v, t, k) { assert Abstains(c, acks, v, t, k); }
    assert BlockedBy(d, acks', t, k, camp);
  }

  lemma OfTermStays(r: Reigns, r': Reigns, t: nat, k: nat)
    requires Extends(r, r') && OfTerm(r, t, k)
    ensures OfTerm(r', t, k) && Has(r[t].log, r'[t].log, k)
  {
    HasPrefix(r[t].log, r'[t].log, k);
  }

  lemma {:induction false} KeptStays(c: Cluster, d: Cluster, r: Reigns, r': Reigns, acks: set<Ack>, acks': set<Ack>,
                                     log: seq<LogEntry>, t: nat, k: nat)
    requires Onward(c, d, acks, acks') && Extends(r, r') && OfTerm(r, t, k) && Kept(c, r, acks, log, t, k)
    ensures OfTerm(r', t, k) && Kept(d, r', acks', log, t, k)
  {
    OfTermStays(r, r', t, k);
    if Has(log, r[t].log, k) { HasOn(log, r[t].log, r'[t].log, k); } else { BlockedStays(c, d, acks, acks', t, k); }
  }

  lemma ChosenStays(n: nat, r: Reigns, r': Reigns, acks: set<Ack>, acks': set<Ack>, t: nat, k: nat)
    requires Extends(r, r') && acks <= acks' && Chosen(n, r, acks, t, k)
    ensures Chosen(n, r', acks', t, k)
  {
    OfTermStays(r, r', t, k);
    var camp :| ChosenBy(n, acks, t, k, camp);
    forall v | v in camp ensures AckedPast(acks', t, v, k) { assert AckedPast(acks, t, v, k); }
    assert ChosenBy(n, acks', t, k, camp);
  }

  lemma {:induction false} CommittedStays(n: nat, r: Reigns, r': Reigns, acks: set<Ack>, acks': set<Ack>,
                                          log: seq<LogEntry>, log': seq<LogEntry>, term: nat, term': nat, index: nat)
    requires Extends(r, r') && acks <= acks' && term <= term' && log <= log' && index < |log|
    requires IsCommitted(n, r, acks, log, term, index)
    ensures IsCommitted(n, r', acks', log', term', index)
  {
    if index > 0 {
      var t, k :| CommittedBy(n, r, acks, log, term, index, t, k);
      ChosenStays(n, r, r', acks, acks', t, k);
      HasPrefix(log, log', index);
      HasPrefix(r[t].log, r'[t].log, index);
      HasOn(log', log, r[t].log, index);
      HasOn(log', r[t].log, r'[t].log, index);
      assert CommittedBy(n, r', acks', log', term', index, t, k);
    }
  }

  /** A majority that acknowledged and one that never will cannot both be. */
  lemma {:induction false} ChosenIsFree(c: Cluster, r: Reigns, acks: set<Ack>, t: nat, k: nat)
    requires Chosen(|c.servers|, r, acks, t, k)
    ensures !Blocked(c, acks, t, k)
  {
    var camp :| ChosenBy(|c.servers|, acks, t, k, camp);
    if Blocked(c, acks, t, k) {
      var other :| BlockedBy(c, acks, t, k, other);
      forall v | v in other ensures v < |c.servers| { assert Abstains(c, acks, v, t, k); }
      var v := MajoritiesMeet(|c.servers|, camp, other);
    }
  }

  /** A leader of a term no earlier has what is chosen. */
  lemma {:induction false} LeaderHasChosen(c: Cluster, r: Reigns, acks: set<Ack>, u: nat, t: nat, k: nat)
    requires LaterOk(c, r, acks) && Chosen(|c.servers|, r, acks, t, k) && u in r && t <= u
    ensures Has(r[u].log, r[t].log, k)
  {
    ChosenIsFree(c, r, acks, t, k);
    assert Later(c, r, acks, u, t, k);
  }

  // ---------------------------------------------------------------- how memory grows

  ghost function AfterMemory(c: Cluster, step: Step, m: Memory): Memory
    requires Enabled(c, step)
  {
    match step
    case ElectionTimeout(i) =>
      var s := c.servers[i];
      m.(ballots := m.ballots[Candidacy(s.term + 1, i) := s.log])
    case Starts(i, _) =>
      var s := c.servers[i];
      if s.role.Leader? then m.(acks := m.acks + {Ack(s.term, i, |s.log| + 1)}) else m
    case AppendArrives(a) =>
      if Fits(c.servers[a.to], a.args)
      then m.(acks := m.acks + {Ack(a.args.term, a.to, a.args.prevLogIndex + 1 + |a.args.entries|)})
      else m
    case _ => m
  }

  lemma {:induction false} StepOnward(c: Cluster, step: Step, h: Tally, m: Memory)
    requires Inv(c, h) && Enabled(c, step)
    ensures Onward(c, After(c, step, true), m.acks, AfterMemory(c, step, m).acks)
  {
    forall v | 0 <= v < |c.servers| ensures After(c, step, true).servers[v].term >= c.servers[v].term {
      TermsRise(c, step, h, v);
    }
  }

  lemma TermsRise(c: Cluster, step: Step, h: Tally, v: nat)
    requires Inv(c, h) && Enabled(c, step) && v < |c.servers|
    ensures |After(c, step, true).servers| == |c.servers| && After(c, step, true).servers[v].term >= c.servers[v].term
  {
    assert ServerOk(c, h, v);
  }

  // ---------------------------------------------------------------- acknowledgements

  lemma {:induction false} HoldsStays(c: Cluster, d: Cluster, r: Reigns, r': Reigns, acks: set<Ack>, acks': set<Ack>,
                                      a: Ack, k: nat)
    requires Onward(c, d, acks, acks') && Extends(r, r') && AcksOk(c, r, acks) && a in acks && k < a.len
    requires OfTerm(r', a.term, k) && a.voter < |c.servers| && c.servers[a.voter].log <= d.servers[a.voter].log
    ensures Kept(d, r', acks', d.servers[a.voter].log, a.term, k)
  {
    var t, v := a.term, a.voter;
    assert AckOk(c, r, a);
    assert r[t].log[k] == r'[t].log[k];
    assert AckedPast(acks, t, v, k) && Holds(c, r, acks, v, t, k);
    KeptStays(c, d, r, r', acks, acks', c.servers[v].log, t, k);
    if Has(c.servers[v].log, r'[t].log, k) {
      HasPrefix(c.servers[v].log, d.servers[v].log, k);
      HasOn(d.servers[v].log, c.servers[v].log, r'[t].log, k);
    }
  }

  lemma AckStays(c: Cluster, d: Cluster, r: Reigns, r': Reigns, acks: set<Ack>, acks': set<Ack>, a: Ack)
    requires Onward(c, d, acks, acks') && Extends(r, r') && AckOk(c, r, a)
    requires c.servers[a.voter].log <= d.servers[a.voter].log
    ensures AckOk(d, r', a)
  {
    if a.term == d.servers[a.voter].term {
      var k, log, log' := a.len - 1, c.servers[a.voter].log, d.servers[a.voter].log;
      HasPrefix(log, log', k);
      HasPrefix(r[a.term].log, r'[a.term].log, k);
      HasOn(log', log, r[a.term].log, k);
      HasOn(log', r[a.term].log, r'[a.term].log, k);
    }
  }

  /** New acknowledgements are of the term the server is in, and it has what it acknowledges. */
  ghost predicate NewAck(d: Cluster, r: Reigns, a: Ack) {
    AckOk(d, r, a) && a.term == d.servers[a.voter].term
  }

  lemma {:induction false} NewAckHolds(d: Cluster, r: Reigns, acks: set<Ack>, a: Ack, k: nat)
    requires NewAck(d, r, a) && k < a.len && OfTerm(r, a.term, k)
    ensures Kept(d, r, acks, d.servers[a.voter].log, a.term, k)
  {
    HasLess(d.servers[a.voter].log, r[a.term].log, a.len - 1, k);
  }

  /** Logs that only grow keep every acknowledgement. */
  lemma {:induction false} GrowingAcksOk(c: Cluster, d: Cluster, r: Reigns, r': Reigns, acks: set<Ack>, acks': set<Ack>)
    requires Onward(c, d, acks, acks') && Extends(r, r') && AcksOk(c, r, acks)
    requires forall v :: 0 <= v < |c.servers| ==> c.servers[v].log <= d.servers[v].log
    requires forall a :: a in acks' && a !in acks ==> NewAck(d, r', a)
    ensures AcksOk(d, r', acks')
  {
    forall a | a in acks' ensures AckOk(d, r', a) {
      if a in acks { assert AckOk(c, r, a); AckStays(c, d, r, r', acks, acks', a); } else { assert NewAck(d, r', a); }
    }
    forall v: nat, t: nat, k: nat ensures Holds(d, r', acks', v, t, k) {
      if v < |d.servers| && AckedPast(acks', t, v, k) && OfTerm(r', t, k) {
        var len: nat :| len > k && Ack(t, v, len) in acks';
        var a := Ack(t, v, len);
        if a in acks {
          HoldsStays(c, d, r, r', acks, acks', a, k);
        } else {
          NewAckHolds(d, r', acks', a, k);
        }
      }
    }
  }

  // ---------------------------------------------------------------- later leaders

  /** The step writes no entry and makes no leader. */
  lemma {:induction false} LaterStays(c: Cluster, d: Cluster, r: Reigns, acks: set<Ack>, acks': set<Ack>)
    requires Onward(c, d, acks, acks') && LaterOk(c, r, acks)
    ensures LaterOk(d, r, acks')
  {
    forall u: nat, t: nat, k: nat ensures Later(d, r, acks', u, t, k) {
      assert Later(c, r, acks, u, t, k);
      if u in r && t < u && OfTerm(r, t, k) { KeptStays(c, d, r, r, acks, acks', r[u].log, t, k); }
    }
  }

  /** Whoever voted in a later term has moved on. */
  lemma {:induction false} ReignMovedOn(c: Cluster, h: Tally, r: Reigns, u: nat, v: nat)
    requires Inv(c, h) && Ruled(c, h, r) && u in r && v in r[u].voters + {r[u].leader}
    ensures v < |c.servers| && c.servers[v].term >= u
  {
    assert ReignOk(c, h, r, u);
    assert v != r[u].leader ==> GrantOk(c, Grant(u, v, r[u].leader));
  }

  /** A new entry of a term that later leaders have left behind is blocked by those who elected them. */
  lemma {:induction false} NewEntryBlocked(c: Cluster, h: Tally, r: Reigns, m: Memory, i: nat, command: Command, u: nat)
    requires Inv(c, h) && Ruled(c, h, r) && AcksOk(c, r, m.acks)
    requires Enabled(c, Starts(i, command)) && c.servers[i].role.Leader?
    requires u in r && c.servers[i].term < u
    ensures Blocked(After(c, Starts(i, command), true), AfterMemory(c, Starts(i, command), m).acks, c.servers[i].term,
                    |c.servers[i].log|)
  {
    var d, acks' := After(c, Starts(i, command), true), AfterMemory(c, Starts(i, command), m).acks;
    var t, k, camp := c.servers[i].term, |c.servers[i].log|, r[u].voters + {r[u].leader};
    ReignCamp(c, h, r, u);
    assert HolderOk(c, r, i);
    forall v | v in camp ensures Abstains(d, acks', v, t, k) {
      ReignMovedOn(c, h, r, u, v);
      forall len: nat | len > k ensures Ack(t, v, len) !in acks' {
        assert Ack(t, v, len) in m.acks ==> AckOk(c, r, Ack(t, v, len));
      }
    }
    assert BlockedBy(d, acks', t, k, camp);
  }

  lemma {:induction false} StartLater(c: Cluster, h: Tally, r: Reigns, m: Memory, i: nat, command: Command)
    requires Inv(c, h) && Ruled(c, h, r) && AcksOk(c, r, m.acks)
    requires LaterOk(c, r, m.acks) && Enabled(c, Starts(i, command))
    requires c.servers[i].role.Leader?
    ensures LaterOk(After(c, Starts(i, command), true), Added(c, r, i, command),
                    AfterMemory(c, Starts(i, command), m).acks)
  {
    var d, r', acks' := After(c, Starts(i, command), true), Added(c, r, i, command),
      AfterMemory(c, Starts(i, command), m).acks;
    StartRuled(c, h, r, i, command);
    StepOnward(c, Starts(i, command), h, m);
    assert HolderOk(c, r, i);
    forall u: nat, t: nat, k: nat ensures Later(d, r', acks', u, t, k) {
      if u in r' && t < u && OfTerm(r', t, k) {
        if OfTerm(r, t, k) {
          assert Later(c, r, m.acks, u, t, k);
          KeptStays(c, d, r, r', m.acks, acks', r[u].log, t, k);
          if Has(r[u].log, r'[t].log, k) {
            HasPrefix(r[u].log, r'[u].log, k);
            HasOn(r'[u].log, r[u].log, r'[t].log, k);
          }
        } else {
          NewEntryBlocked(c, h, r, m, i, command, u);
        }
      }
    }
  }

  // ---------------------------------------------------------------- elections

  /** What a voter has, a candidate with a log no older than the voter's has, unless it is blocked. */
  lemma {:induction false} VoterPasses(c: Cluster, r: Reigns, acks: set<Ack>, log: seq<LogEntry>, stood: seq<LogEntry>,
                                       t: nat, k: nat)
    requires LogOk(r, log) && LogOk(r, stood) && InOrder(r) && LaterOk(c, r, acks) && OfTerm(r, t, k) && t > 0
    requires Has(log, r[t].log, k) && IsLogUpdated(log, LastIndex(stood), LastTerm(stood))
    ensures Kept(c, r, acks, stood, t, k)
  {
    var u, w := LastTerm(log), LastTerm(stood);
    HasLess(log, r[t].log, k, k);
    TermsAscend(r, log, k, LastIndex(log));
    assert LastIndex(log) > 0 && w > 0;
    assert EntryOk(r, log, LastIndex(log)) && EntryOk(r, stood, LastIndex(stood));
    assert log[..|log|] == log && stood[..|stood|] == stood;
    if w == u {
      HasPrefix(log, stood, k);
      HasOn(stood, log, r[t].log, k);
    } else {
      assert Later(c, r, acks, w, t, k);
      if Has(r[w].log, r[t].log, k) { StoodLongEnough(r, stood, w, t, k); }
    }
  }

  lemma {:induction false} StoodLongEnough(r: Reigns, stood: seq<LogEntry>, w: nat, t: nat, k: nat)
    requires stood != [] && w in r && stood <= r[w].log && InOrder(r) && LastTerm(stood) == w
    requires OfTerm(r, t, k) && t < w && Has(r[w].log, r[t].log, k)
    ensures Has(stood, r[t].log, k)
  {
    assert TermsUpTo(r[t].log, t);
    if |stood| <= k { HasLess(r[w].log, r[t].log, k, |stood| - 1); }
    HasPrefix(stood, r[w].log, k);
    HasOn(stood, r[w].log, r[t].log, k);
  }

  /** A new leader has everything that its voters keep others from losing. */
  lemma {:induction false} CrownedHas(c: Cluster, h: Tally, r: Reigns, m: Memory, i: nat, t: nat, k: nat)
    requires Inv(c, h) && Ruled(c, h, r) && Steady(c, h, r, m) && Enabled(c, Wins(i)) && c.servers[i].role.Candidate?
    requires t < c.servers[i].term && OfTerm(r, t, k)
    ensures Kept(c, r, m.acks, c.servers[i].log, t, k)
  {
    var s, camp := c.servers[i], Camp(h, i);
    CandidateCamp(c, h, i);
    TermIsFree(c, h, r, i);
    assert ServerOk(c, h, i) && ServerSteady(c, m, i);
    if v :| v in camp && AckedPast(m.acks, t, v, k) {
      if v == i {
        assert Holds(c, r, m.acks, i, t, k);
      } else {
        assert Passed(c, r, m, Grant(s.term, v, i), t, k);
        assert BallotOk(c, r, m, Candidacy(s.term, i));
      }
    } else {
      forall v | v in camp ensures Abstains(c, m.acks, v, t, k) {
        assert v != i ==> GrantOk(c, Grant(s.term, v, i));
      }
      assert BlockedBy(c, m.acks, t, k, camp);
    }
  }

  lemma {:induction false} CrownLater(c: Cluster, h: Tally, r: Reigns, m: Memory, i: nat)
    requires Inv(c, h) && Ruled(c, h, r) && Steady(c, h, r, m) && Enabled(c, Wins(i)) && c.servers[i].role.Candidate?
    ensures LaterOk(After(c, Wins(i), true), Crowned(c, h, r, i), m.acks)
  {
    var d, r', term := After(c, Wins(i), true), Crowned(c, h, r, i), c.servers[i].term;
    TermIsFree(c, h, r, i);
    CrownRuled(c, h, r, i);
    StepOnward(c, Wins(i), h, m);
    forall u: nat, t: nat, k: nat ensures Later(d, r', m.acks, u, t, k) {
      if u in r' && t < u && OfTerm(r', t, k) {
        CrownedWroteNothing(c, h, r, i, t, k);
        if u == term { CrownedHas(c, h, r, m, i, t, k); } else { assert Later(c, r, m.acks, u, t, k); }
        KeptStays(c, d, r, r', m.acks, m.acks, r'[u].log, t, k);
      }
    }
  }

  /** A new leader has written nothing in its term yet. */
  lemma CrownedWroteNothing(c: Cluster, h: Tally, r: Reigns, i: nat, t: nat, k: nat)
    requires Inv(c, h) && Ruled(c, h, r) && Enabled(c, Wins(i)) && c.servers[i].role.Candidate?
    requires OfTerm(Crowned(c, h, r, i), t, k)
    ensures OfTerm(r, t, k)
  {
    var s := c.servers[i];
    TermIsFree(c, h, r, i);
    assert HolderOk(c, r, i) && ServerOk(c, h, i);
    NotOfFreeTerm(r, s.log, s.term);
  }

  lemma NotOfFreeTerm(r: Reigns, log: seq<LogEntry>, term: nat)
    requires LogOk(r, log) && term > 0 && term !in r
    ensures forall k :: 0 <= k < |log| ==> log[k].term != term
  {
    forall k | 0 <= k < |log| ensures log[k].term != term { assert k > 0 ==> EntryOk(r, log, k); }
  }
}
