module RaftRules {
  // What single handlers promise, said without their own words: when a vote is
  // granted, and what a leader may commit.

  import opened RaftServers

  /** Position (term, index) of one log's end is no older than that of another: terms first, then indices. */
  ghost predicate NoOlder(termA: nat, indexA: nat, termB: nat, indexB: nat) {
    termA > termB || (termA == termB && indexA >= indexB)
  }

  /**
   A vote is granted exactly to a candidate of no older term and log whom the voter has not turned down in that term.
   */
  lemma VoteGrantedIff(s: Server, args: VoteArgs)
    ensures var (t, reply) := RequestVote(s, args);
            && (reply.granted <==> && args.term >= s.term
                                   && NoOlder(args.lastLogTerm, args.lastLogIndex, LastTerm(s.log), LastIndex(s.log))
                                   && (args.term > s.term || s.votedFor == VOTED_NULL || s.votedFor == args.candidate))
            && (reply.granted ==> t.votedFor == args.candidate && reply.term == args.term)
            && t.term == (if args.term > s.term then args.term else s.term) == reply.term && t.log == s.log
            && t.saved == Saved(t.term, t.votedFor, t.log)
  {
  }

  /**
   A candidate gives up exactly when it is told of a newer term: it then follows nobody, stays in its own term and
   forgets that it voted for itself. It counts exactly the votes granted in its term, and wins with the one that makes
   a majority.
   */
  lemma GivesUpIffOutdated(s: Server, args: VoteArgs, reply: VoteReply)
    requires s.role.Candidate?
    ensures var (t, won) := VoteReturned(s, args, reply);
            && (!t.role.Candidate? <==> args.term == s.term < reply.term)
            && (!t.role.Candidate? ==>
                  t.role.Follower? && t.votedFor == VOTED_NULL && t.saved == Saved(t.term, t.votedFor, t.log))
            && (t.voteCount != s.voteCount <==> args.term == s.term == reply.term && reply.granted)
            && (won <==> t.voteCount == s.voteCount + 1 && s.voteCount <= s.peers / 2 < t.voteCount)
            && t.term == s.term && t.log == s.log
  {
  }

  /** The servers known to hold index `at`, the leader itself among them. */
  ghost function Holders(s: Server, at: nat): set<nat>
    requires s.role.Leader?
  {
    set i: nat | i < s.peers && (i == s.me || s.matchIndex[i] >= at)
  }

  ghost function HoldersBelow(matchIndex: seq<int>, me: nat, at: nat, n: nat): set<nat>
    requires n <= |matchIndex|
  {
    set i: nat | i < n && i != me && matchIndex[i] >= at
  }

  lemma {:induction false} HoldingCounts(matchIndex: seq<int>, me: nat, at: nat, n: nat)
    requires n <= |matchIndex|
    ensures Holding(matchIndex, me, at, n) == |HoldersBelow(matchIndex, me, at, n)|
  {
    if n == 0 {
      assert HoldersBelow(matchIndex, me, at, n) == {};
    } else {
      HoldingCounts(matchIndex, me, at, n - 1);
      var fewer, more := HoldersBelow(matchIndex, me, at, n - 1), HoldersBelow(matchIndex, me, at, n);
      if n - 1 != me && matchIndex[n - 1] >= at {
        assert more == fewer + {n - 1};
      } else {
        assert more == fewer;
      }
    }
  }

  lemma {:induction false} ReplicatedIff(s: Server, at: nat)
    requires s.role.Leader? && at < |s.log|
    ensures Replicated(s, at) <==> s.peers == 1 || (s.log[at].term == s.term && |Holders(s, at)| > s.peers / 2)
  {
    HoldingCounts(s.matchIndex, s.me, at, s.peers);
    var others := HoldersBelow(s.matchIndex, s.me, at, s.peers);
    assert Holders(s, at) == others + {s.me};
    assert |Holders(s, at)| == |others| + 1;
    if s.peers == 1 { assert others == {}; }
  }

  /**
   A leader's commit index never moves back; it moves to the highest entry of its own term that a majority holds, if
   there is one.
   */
  lemma {:induction false} CommitsTheHighest(s: Server, server: nat, args: AppendArgs, reply: AppendReply, adopt: bool)
    requires server < s.peers && s.role.Leader? && args.term == s.term == reply.term && s.peers > 1
    ensures var t := AppendReturned(s, server, args, reply, adopt);
            && t.role.Leader? && t.commitIndex >= s.commitIndex && t.log == s.log && t.term == s.term
            && (t.commitIndex > s.commitIndex ==>
                  t.commitIndex < |t.log| && t.log[t.commitIndex].term == t.term
                    && |Holders(t, t.commitIndex)| > t.peers / 2)
            && (forall j :: t.commitIndex < j < |t.log| ==> t.log[j].term != t.term || |Holders(t, j)| <= t.peers / 2)
  {
    var t := AppendReturned(s, server, args, reply, adopt);
    var (next, match') := Indices(s, server, args, reply);
    var u := s.(nextIndex := s.nextIndex[server := next], matchIndex := s.matchIndex[server := match']);
    assert t == Persist(u.(commitIndex := Committed(u, |u.log|)));
    forall j | 0 <= j < |t.log| ensures Replicated(u, j) <==> t.log[j].term == t.term && |Holders(t, j)| > t.peers / 2 {
      ReplicatedIff(u, j);
      assert Holders(u, j) == Holders(t, j);
    }
  }

  /**
   On a refusal that names a term the leader goes back to its own last entry of that term, or, holding none, to where
   the follower says the term begins.
   */
  lemma BacksUpToTerm(s: Server, server: nat, args: AppendArgs, reply: AppendReply)
    requires s.role.Leader? && server < s.peers && !reply.success && reply.conflictTerm >= 0
    ensures var (next, match') := Indices(s, server, args, reply);
            && match' == next - 1
            && if exists j :: 0 <= j < |s.log| && s.log[j].term == reply.conflictTerm
               then && 0 <= next < |s.log| && s.log[next].term == reply.conflictTerm
                    && forall j :: next < j < |s.log| ==> s.log[j].term != reply.conflictTerm
               else next == reply.conflictIndex
  {
  }

  // ---------------------------------------------------------------- what a success reply is worth

  /** The answer itself tells whether the previous entry was the one named; if it was not, nothing is taken over. */
  lemma ConflictTermTells(s: Server, args: AppendArgs)
    requires ProcessAppend(s, args).1.success
    ensures var (t, reply) := ProcessAppend(s, args);
            && args.term >= s.term && args.prevLogIndex < |s.log|
            && (reply.conflictTerm < 0 <==> s.log[args.prevLogIndex].term == args.prevLogTerm)
            && t.log == (if reply.conflictTerm < 0 then Merged(s.log, args.prevLogIndex, args.entries) else s.log)
  {
  }

  /** What is sent is a stretch of this log: the named entry before it, then the entries. */
  predicate Stretch(log: seq<LogEntry>, args: AppendArgs) {
    var (prev, n) := (args.prevLogIndex, |args.entries|);
    prev + 1 + n <= |log| && log[prev].term == args.prevLogTerm && args.entries == log[prev + 1..prev + 1 + n]
  }

  /**
   A log with a stretch laid over it from `at + k` on is the log the stretch was taken from exactly if it begins like
   it.
   */
  lemma {:induction false} PiecedIff(log: seq<LogEntry>, at: nat, k: nat, entries: seq<LogEntry>, sent: seq<LogEntry>)
    requires at + k <= |log| && k <= |entries| && at + |entries| <= |sent| && entries == sent[at..at + |entries|]
    ensures log[..at + k] + entries[k..] == sent[..at + |entries|] <==> log[..at + k] == sent[..at + k]
  {
    var full := sent[..at + |entries|];
    assert entries[k..] == full[at + k..];
    assert full == full[..at + k] + full[at + k..];
    assert full[..at + k] == sent[..at + k];
    if log[..at + k] + entries[k..] == full {
      assert (log[..at + k] + entries[k..])[..at + k] == log[..at + k];
    }
  }

  lemma {:induction false} MergedIff(log: seq<LogEntry>, args: AppendArgs, sent: seq<LogEntry>)
    requires args.prevLogIndex < |log| && Stretch(sent, args)
    ensures var agreed := args.prevLogIndex + 1 + Agreeing(log, args.prevLogIndex + 1, args.entries);
            Merged(log, args.prevLogIndex, args.entries) == sent[..args.prevLogIndex + 1 + |args.entries|]
            <==> log[..agreed] == sent[..agreed]
  {
    PiecedIff(log, args.prevLogIndex + 1, Agreeing(log, args.prevLogIndex + 1, args.entries), args.entries, sent);
  }

  lemma Apart(a: seq<LogEntry>, b: seq<LogEntry>, i: nat, n: nat)
    requires i < n <= |a| && n <= |b| && a[i] != b[i]
    ensures a[..n] != b[..n]
  {
    assert a[..n][i] == a[i] && b[..n][i] == b[i];
  }

  /** Where the previous entry is not the one named, the log is not the sender's. */
  lemma {:induction false} NotLaidOver(log: seq<LogEntry>, args: AppendArgs, sent: seq<LogEntry>, n: nat)
    requires args.prevLogIndex < n <= |log| && n <= |sent| && Stretch(sent, args)
    requires log[args.prevLogIndex].term != args.prevLogTerm
    ensures log != sent[..args.prevLogIndex + 1 + |args.entries|] && log[..n] != sent[..n]
  {
    Apart(log, sent, args.prevLogIndex, n);
    assert sent[..args.prevLogIndex + 1 + |args.entries|][args.prevLogIndex] == sent[args.prevLogIndex];
  }

  /**
   A follower that answers success ends up with the sender's log, as far as it was sent, exactly when its own log was
   the sender's up to where the terms stop agreeing.
   */
  lemma {:induction false} SuccessMeansHeldIff(s: Server, args: AppendArgs, sent: seq<LogEntry>)
    requires ProcessAppend(s, args).1.success && Stretch(sent, args)
    ensures args.prevLogIndex < |s.log|
    ensures var agreed := args.prevLogIndex + 1 + Agreeing(s.log, args.prevLogIndex + 1, args.entries);
            ProcessAppend(s, args).0.log == sent[..args.prevLogIndex + 1 + |args.entries|]
            <==> s.log[..agreed] == sent[..agreed]
  {
    ConflictTermTells(s, args);
    if s.log[args.prevLogIndex].term == args.prevLogTerm {
      MergedIff(s.log, args, sent);
    } else {
      NotLaidOver(s.log, args, sent, args.prevLogIndex + 1 + Agreeing(s.log, args.prevLogIndex + 1, args.entries));
    }
  }
}
