/**
 The server as an object: every handler runs under the mutex from start to end,
 so each is one step of the specification.
 */
module RaftPeers {
  import opened RaftServers

  class Raft {
    const me: nat
    const peers: nat
    var term: nat
    var votedFor: int
    var log: seq<LogEntry>
    var role: Role
    var voteCount: nat
    var commitIndex: nat
    var nextIndex: seq<int>
    var matchIndex: seq<int>
    var saved: Saved

    ghost function View(): Peer
      reads this
    {
      Peer(me, peers, term, votedFor, log, role, voteCount, commitIndex, nextIndex, matchIndex, saved)
    }

    ghost predicate Valid()
      reads this
    {
      Sound(View())
    }

    constructor Make(peers: nat, me: nat)
      requires me < peers
      ensures Valid() && View() == Restart(me, peers, Saved(0, VOTED_NULL, [FIRST_ENTRY]))
    {
      this.peers, this.me := peers, me;
      term, votedFor, log, role, voteCount := 0, VOTED_NULL, [FIRST_ENTRY], Follower, 0;
      commitIndex, nextIndex, matchIndex := 0, [], [];
      saved := Saved(0, VOTED_NULL, [FIRST_ENTRY]);
    }

    constructor FromSaved(peers: nat, me: nat, data: Saved)
      requires me < peers && data.log != []
      ensures Valid() && View() == Restart(me, peers, data)
    {
      this.peers, this.me := peers, me;
      role, voteCount := Follower, 0;
      commitIndex, nextIndex, matchIndex := 0, [], [];
      term, votedFor, log, saved := data.term, data.votedFor, data.log, data;
    }

    method Persist()
      requires Valid()
      modifies this
      ensures Valid() && View() == RaftServers.Persist(old(View()))
    {
      saved := Saved(term, votedFor, log);
    }

    method StepDown(currentTerm: nat)
      requires Valid()
      modifies this
      ensures Valid() && View() == RaftServers.StepDown(old(View()), currentTerm)
    {
      term := currentTerm;
      role := Follower;
      votedFor := VOTED_NULL;
    }

    method ElectSelf(wanted: Role) returns (ballot: VoteArgs)
      requires Valid()
      modifies this
      ensures Valid()
      ensures View() == if old(role) != wanted then old(View()) else RaftServers.ElectSelf(old(View()))
      ensures ballot == Ballot(View())
    {
      if role == wanted {
        role := Candidate;
        term := term + 1;
        votedFor := me;
        voteCount := 1;
        Persist();
      }
      ballot := VoteArgs(term, me, |log| - 1, log[|log| - 1].term);
    }

    method RequestVote(args: VoteArgs) returns (reply: VoteReply)
      requires Valid()
      modifies this
      ensures Valid() && (View(), reply) == RaftServers.RequestVote(old(View()), args)
    {
      if args.term < term {
        reply := VoteReply(term, false);
        Persist();
        return;
      }
      if args.term > term {
        StepDown(args.term);
      }
      reply := VoteReply(term, false);
      if (votedFor == VOTED_NULL || votedFor == args.candidate)
         && IsLogUpdated(log, args.lastLogIndex, args.lastLogTerm) {
        reply := VoteReply(term, true);
        votedFor := args.candidate;
      }
      Persist();
    }

    method VoteReturned(args: VoteArgs, reply: VoteReply) returns (won: bool)
      requires Valid()
      modifies this
      ensures Valid() && (View(), won) == RaftServers.VoteReturned(old(View()), args, reply)
    {
      won := false;
      if role != Candidate || args.term != term || reply.term < term {
        return;
      }
      if reply.term > term {
        StepDown(args.term);
        Persist();
        return;
      }
      if reply.granted {
        voteCount := voteCount + 1;
        won := voteCount == peers / 2 + 1;
      }
    }

    method ReinitialisedAfterElection()
      requires Valid()
      modifies this
      ensures Valid() && View() == BecomeLeader(old(View()))
    {
      if role != Candidate {
        return;
      }
      role := Leader;
      nextIndex := seq(peers, _ => 0);
      matchIndex := seq(peers, _ => 0);
      var lastLogIndex := |log|;
      for i := 0 to peers
        modifies this`nextIndex
        invariant |nextIndex| == peers && forall j :: 0 <= j < i ==> nextIndex[j] == lastLogIndex
      {
        nextIndex := nextIndex[i := lastLogIndex];
      }
      assert nextIndex == seq(peers, _ => lastLogIndex);
    }

    method Start(command: Command) returns (index: int, current: nat, isLeader: bool)
      requires Valid()
      modifies this
      ensures Valid() && View() == StartCommand(old(View()), command)
      ensures current == term && isLeader == role.Leader?
      ensures isLeader ==> 0 <= index < |log| && log[..index] == old(log) && log[index..] == [LogEntry(term, command)]
      ensures !isLeader ==> index == -1
    {
      if role != Leader {
        return -1, term, false;
      }
      log := log + [LogEntry(term, command)];
      Persist();
      return |log| - 1, term, true;
    }

    /** The message for one peer; slicing the log is safe exactly when the peer's next index lies in it. */
    method HeartBeatFor(server: nat) returns (args: AppendArgs)
      requires Valid() && CanSendTo(View(), server)
      ensures args == AppendFor(View(), server)
    {
      var next := nextIndex[server];
      args := AppendArgs(term, me, next - 1, log[next - 1].term, log[next..], commitIndex);
    }

    method ProcessAppendEntries(args: AppendArgs) returns (reply: AppendReply)
      requires Valid()
      modifies this
      ensures Valid() && (View(), reply) == ProcessAppend(old(View()), args)
    {
      if args.term < term {
        reply := AppendReply(term, false, -1, -1);
        Persist();
        return;
      }
      if args.term > term {
        StepDown(args.term);
      }
      var lastIndex := |log| - 1;
      reply := AppendReply(term, false, -1, -1);
      if args.prevLogIndex > lastIndex {
        reply := reply.(conflictIndex := lastIndex + 1);
        Persist();
        return;
      }
      if log[args.prevLogIndex].term != args.prevLogTerm {
        var start := FindStretch(args.prevLogIndex);
        reply := AppendReply(term, true, start, log[args.prevLogIndex].term);
        Persist();
        return;
      }
      Merge(args.prevLogIndex, args.entries);
      reply := reply.(success := true);
      if args.leaderCommit > commitIndex {
        commitIndex := Min(args.leaderCommit, |log| - 1);
      }
      Persist();
    }

    method FindStretch(prev: nat) returns (start: nat)
      requires prev < |log|
      ensures start == StretchStart(log, prev)
    {
      var i: int := prev;
      start := prev;
      while i >= 0 && log[i].term == log[prev].term
        invariant -1 <= i <= prev && start == (if i == prev then prev else i + 1) && start <= prev
        invariant log[start].term == log[prev].term && StretchStart(log, start) == StretchStart(log, prev)
      {
        start := i;
        i := i - 1;
      }
    }

    method Merge(prev: nat, entries: seq<LogEntry>)
      requires prev < |log|
      modifies this`log
      ensures log == Merged(old(log), prev, entries)
    {
      var lastIndex := |log| - 1;
      var prevIdx, entryIdx := prev + 1, 0;
      while prevIdx < lastIndex + 1 && entryIdx < |entries|
        invariant prevIdx == prev + 1 + entryIdx && prevIdx <= |log| && entryIdx <= |entries|
        invariant Agreeing(log, prev + 1, entries) == entryIdx + Agreeing(log, prevIdx, entries[entryIdx..])
      {
        if log[prevIdx].term != entries[entryIdx].term {
          break;
        }
        prevIdx := prevIdx + 1;
        entryIdx := entryIdx + 1;
      }
      log := log[..prevIdx];
      log := log + entries[entryIdx..];
    }

    method AppendReturned(server: nat, args: AppendArgs, reply: AppendReply)
      requires Valid() && server < peers
      modifies this
      ensures Valid() && View() == RaftServers.AppendReturned(old(View()), server, args, reply, false)
    {
      if role != Leader || args.term != term || reply.term < term {
        Persist();
        return;
      }
      if reply.term > term {
        StepDown(args.term);
        Persist();
        return;
      }
      SetIndices(server, args, reply);
      AdvanceCommit();
      Persist();
    }

    method SetIndices(server: nat, args: AppendArgs, reply: AppendReply)
      requires Valid() && server < peers && role.Leader?
      modifies this`nextIndex, this`matchIndex
      ensures nextIndex == old(nextIndex)[server := Indices(old(View()), server, args, reply).0]
      ensures matchIndex == old(matchIndex)[server := Indices(old(View()), server, args, reply).1]
    {
      if reply.success {
        var sent := args.prevLogIndex + |args.entries|;
        if sent > matchIndex[server] {
          matchIndex := matchIndex[server := sent];
        }
        nextIndex := nextIndex[server := matchIndex[server] + 1];
      } else if reply.conflictTerm < 0 {
        nextIndex := nextIndex[server := reply.conflictIndex];
        matchIndex := matchIndex[server := nextIndex[server] - 1];
      } else {
        var next := FindLast(reply.conflictTerm);
        if next < 0 {
          nextIndex := nextIndex[server := reply.conflictIndex];
        } else {
          nextIndex := nextIndex[server := next];
        }
        matchIndex := matchIndex[server := nextIndex[server] - 1];
      }
    }

    method FindLast(wanted: int) returns (next: int)
      ensures next == LastOfTerm(log, wanted, |log|)
    {
      next := |log| - 1;
      while next >= 0
        invariant -1 <= next < |log| && LastOfTerm(log, wanted, |log|) == LastOfTerm(log, wanted, next + 1)
      {
        if log[next].term == wanted {
          break;
        }
        next := next - 1;
      }
    }

    method AdvanceCommit()
      requires Valid() && role.Leader?
      modifies this`commitIndex
      ensures commitIndex == Committed(old(View()), |log|)
    {
      var n := |log| - 1;
      while n >= commitIndex
        invariant -1 <= n < |log| && commitIndex == old(commitIndex)
        invariant Committed(View(), |log|) == Committed(View(), n + 1)
      {
        var count := 1;
        if log[n].term == term {
          for i := 0 to peers
            invariant count == 1 + Holding(matchIndex, me, n, i)
          {
            if i != me && matchIndex[i] >= n {
              count := count + 1;
            }
          }
        }
        if count > peers / 2 {
          commitIndex := n;
          break;
        }
        n := n - 1;
      }
    }
  }
}
