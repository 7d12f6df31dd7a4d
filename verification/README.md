# Verified models of a linearizability checker, Raft, a log store and a MapReduce coordinator

The repository holds exercises in distributed systems. This project models its
four hardest parts in Dafny and proves what they are for. Files are named after
what they hold.

**The linearizability checker** (`crates/linearizability`, and its Go twin
`6.5840/src/porcupine`). `Histories` says what linearizable means: some order of
the operations respects real time and is accepted by the model step by step.
`Search.CheckSingle` is the code's search: pointers relinked in place, a stack,
a bit set, a hash table of visited configurations. It is proved to terminate, to
answer exactly that question, and to leave the best partial linearization of
every operation when it fails. `Links` and `LinkedNodes` carry the dancing
links, `Bitset` the bit-parallel arithmetic, `Checker` the hash buckets,
`Searching` the invariant of the search over positions and sets. Around it,
`Preparation`, `Renumbering`, `Partitioning`, `Locality` and `KvModel` show that
sorting, renumbering and splitting by key ask the same question, and `KvModel`
what that question is for the key/value store: every read is told the last value
put, followed by what was appended since. `Verdicts` is
the parallel run with its kill flag as a state machine, in which a worker may
answer whatever the search may answer. `Checking` puts all of it together:
however the workers interleave, the answer about a whole store is right, and so
is that of the methods run one after the other.

**Raft** (`6.5840/src/raft/raft.go`). `RaftServer` says what each event does to
one server; `RaftPeer` is the server as an object, handler by handler, proved
against it, and `RaftRules` says what a vote, a success and a commit are worth to
one server. `RaftCluster` is the cluster as a state machine over a network that
loses, delays and reorders. Over all its runs, `RaftElection` proves that a term
has at most one leader at a time, `RaftVoters` that it was elected by a majority
with no newer logs, `RaftMatching` Log Matching for a leader that adopts the
newer term it is told of, and `RaftReplies` what a success answer means.
`RaftKeeping` and `RaftSafety` prove leader completeness and state machine
safety for every run in which three branches of the code are not taken.
`RaftRelapse`, `RaftConflict` and `RaftOutvoted` are runs, written event by event
with `RaftScripts`, that show what each of the three branches alone can cost, so
that the condition is exact. `RaftProgress` is about getting on: what a majority
has acknowledged is committed, followers learn of it, a refusal says where to go
on, and when a commit index can move back.

**The key/value store** (`project_3`, `project_4`). `KvLogs` gives the meaning of
a log, `KvDisk` is the directory, which remembers every state it has been in,
`KvStore` is the store over it with its index of byte ranges, and `KvCompaction`
settles which interrupted compactions are safe.

**The MapReduce coordinator** (`6.5840/src/mr/coordinator.go`). `Coordinator` is
the object, `CoordinatorRuns` what holds over every run of calls.

## Where the code and its comments disagree

- A leader told of a newer term stays in its own (`6.5840/src/raft/raft.go:464-467`),
  although the comment says that it updates its term. The model has a flag,
  `adopt`. Election safety is proved for both settings. Log Matching, one leader
  ever per term, leaders that only append, commits that stay in the leader's log,
  and appends sliced in bounds each hold in all runs exactly when the flag is set
  (`RaftRelapses.LogMatchingIffAdopts`, `OneLeaderIffAdopts`, `AppendOnlyIffAdopts`,
  `CommitsKeptIffAdopts`, `InBoundsIffAdopts`), and all five in every run of the
  code as written that never enters that branch (`RaftRelapses.QuietRunsMatch`).
- A follower's reply is documented as success when its log matched
  (`6.5840/src/raft/raft.go:218-220`), but a conflict is answered with success
  too (`6.5840/src/raft/raft.go:407`). With the newer term adopted, success means
  that the follower holds the leader's log as sent exactly when the reply names no
  conflicting term (`RaftReplies.SuccessIsCopyIffNoConflict`); as written not even
  then (`RaftReplies.CopiesIffAdopts`), and the exact condition is that the logs
  were the same up to where their terms stop agreeing (`RaftReplies.SuccessIsCopyIff`).
  The leader does not look: `RaftConflicts.ConflictIsCounted` is a run in which it
  commits an entry that only it holds.
- A follower truncates its log after the entries sent even where all of them
  agree (`6.5840/src/raft/raft.go:422-424`), so that a late append takes back what
  was acknowledged (`RaftConflicts.LateAppendCuts`). An entry that the follower
  shares with the leader survives an append exactly when the append reaches beyond
  it (`RaftReplies.SharedStaysIff`).
- Each of the three branches (the own term kept, the conflict answered with
  success, the append that agrees and cuts) is alone enough for two servers to
  commit different entries at one index (`RaftOutvoted.CommitsDisagreeRelapsed`,
  `RaftConflicts.CommitsDisagree`, `RaftConflicts.CommitsDisagreeLate`). In every
  run that takes none of them committed entries agree: state machine safety holds
  in all runs exactly when all three are avoided (`RaftSafety.SafeIff`).
- A commit index is cut down to the end of a log that an append has just
  shortened (`6.5840/src/raft/raft.go:428-432`), so that without a crash it can move
  back: `RaftConflicts.CommitIsTakenBack` is a run in which it does, and
  `RaftProgress.CommitFallsIff` says exactly when. In runs that avoid the three
  branches it never does, and then a follower has committed the larger of
  what it had and what the leader had (`RaftProgress.CommitsGoForward`,
  `CommitCatchesUp`).
- The leader's search for the conflicting term
  (`6.5840/src/raft/raft.go:485-500`) is never reached: a refusal in its own term
  names no term, and an answer that names one is a success
  (`RaftProgress.RefusalNamesLength`, `ConflictNamesStretch`).
- The Rust checker sorts by time alone (`crates/linearizability/src/lib.rs:30-48`).
  It keeps the real-time order exactly when no operation returns at the instant
  at which a later-listed one is called (`Preparation.StableKeepsOrderIffTieFree`);
  `KvModels.TieChangesTheAnswer` is a history whose answer changes. The Go
  comparison has no such condition (`Preparation.CallsFirstSameAnswer`).
- With no part to check, the waiting loop never ends unless a timeout was asked
  for (`Verdicts.NothingToWaitFor`).
- `project_3` deletes stale generations in the order of a hash map. A crash
  half-way is harmless exactly when the oldest went first
  (`KvCompaction.SafeIffOldestFirst`); `project_4` deletes in that order.
- Uncompacted bytes are counted when a log is opened, but not when a `remove` makes
  some, and in `project_3` not when a `set` does
  (`project_3/src/engines/kvstore/kvs.rs:222-241`, `254-273`), where whether a `set`
  compacts is therefore settled until the next compaction. In `project_4` the count
  stays exact through every `set` (`KvStores.KvStore.Set`, `Remove`,
  `SetOldestFirst`).

## Model

| member | source | states |
|---|---|---|
| Search.CheckSingle | crates/linearizability/src/lib.rs:222-292 | On every well-formed history, for every model: the search terminates and never follows a missing link, `true` means linearizable even if it is called off, and if it is not called off it answers `true` if and only if some order respects real time and is accepted from the initial state. With partial results on and a `false` answer, each operation has the longest partial linearization that contains it, and none exactly when none exists; with `true`, the full one. Also when it is called off, whatever is recorded is a partial linearization that contains its operation. |
| Search.Run.Turn | crates/linearizability/src/lib.rs:242-290 | One turn of the loop keeps the invariant that ties list, bit set, stack, state and cache to the search; being stuck means not linearizable; otherwise something new was cached, or the stack got shorter, or the search moved along the list. |
| Search.Run.TryCall | 6.5840/src/porcupine/checker.go:194-213 | Trying a call keeps the invariant; either a configuration never seen before is cached, or the stack is unchanged and the search is further along the list. |
| Search.Run.TakeBack | crates/linearizability/src/lib.rs:279-289 | Taking the last call back restores list, bit set and state of the level before, with that call now among those known to fail. |
| Search.Run.FoundIsDone | crates/linearizability/src/lib.rs:256-264 | Memoisation loses nothing: a call whose outcome, up to equal states, is already cached leads to no completion, and to no partial linearization longer than those recorded. |
| Search.Run.Finish | 6.5840/src/porcupine/checker.go:244-252 | When the list is empty the stack spells a complete linearization. |
| Search.KeepLongest | 6.5840/src/porcupine/checker.go:218-234 | Afterwards every operation on the stack has a partial linearization at least as long as the stack recorded, none has lost a longer one, and each recorded one replays and contains its operation. |
| Search.CoveredIsBest | 6.5840/src/porcupine/checker.go:214-217 | When the whole search space is covered, the recorded partial linearizations are the best there are. |
| Search.LinkEntries | 6.5840/src/porcupine/checker.go:179-189 | The list behind the sentinel carries the entries in order, each call knows its return, and n is half their number. |
| Histories.FinishIffLinearizable | crates/linearizability/src/lib.rs:222-292 | Searching without a cache, one minimal operation at a time, succeeds if and only if the history is linearizable. |
| Histories.EqualStatesFinishAlike | crates/linearizability/src/model.rs:89-93 | States that the model calls equal can be completed alike, which is what the cache relies on. |
| LinkedLists.LinkedNodes.PushFront | crates/linearizability/src/lib.rs:103-114 | On any list, whatever has been taken out: the new node becomes the head, only the old head learns of it, and every other link is as it was. |
| LinkedLists.LinkedNodes.Len | crates/linearizability/src/lib.rs:93-101 | The number of nodes pushed less those taken out. |
| LinkedLists.LinkedNodes.FromEntries | crates/linearizability/src/lib.rs:63-91 | The list carries the entries in order, and each call is matched with the next return of its id. |
| LinkedLists.LinkedNodes.Lift | crates/linearizability/src/lib.rs:190-203 | Taking out a call and its return leaves the list that skips exactly these two besides those gone before, in both directions. |
| LinkedLists.LinkedNodes.Unlift | crates/linearizability/src/lib.rs:205-220 | Putting the pair taken out last back leaves the list that skips exactly those gone before it. |
| LinkedLists.LinkedNodes.LiftAndUnlift | crates/linearizability/src/lib.rs:190-220 | Taking a call out and putting it back leaves both pointers of every node of the list as they were. |
| Links.UnlinkKeepsWoven | crates/linearizability/src/lib.rs:190-203 | After a removal every remaining node still points at its nearest remaining neighbours, and every removed one at those it had. |
| Links.RelinkKeepsWoven | crates/linearizability/src/lib.rs:205-220 | The same after the node removed last is put back. |
| Links.RelinkUndoesUnlink | crates/linearizability/src/lib.rs:190-220 | Putting a node back restores every link of the list. |
| Links.WovenIsUnique | crates/linearizability/src/lib.rs:190-220 | Which nodes are out, and in which order they went, fixes every link, so undoing under stack discipline is exact. |
| Links.PushKeepsWoven | crates/linearizability/src/lib.rs:103-114 | Pushing a node keeps every remaining node pointing at its nearest remaining neighbours, and every removed one at those it had. |
| Bitsets.Bitset.constructor | crates/linearizability/src/bitset.rs:7-10 | The empty set, with room for every bit asked for. |
| Bitsets.Bitset.Set | crates/linearizability/src/bitset.rs:12-15 | Adds exactly one member. |
| Bitsets.Bitset.Clear | crates/linearizability/src/bitset.rs:17-20 | Removes exactly one member. |
| Bitsets.Bitset.Popcnt | crates/linearizability/src/bitset.rs:22-33 | The number of members. |
| Bitsets.PopWordCounts | crates/linearizability/src/bitset.rs:25-31 | For every 64-bit word the masked additions and the wrapping multiplication give the number of bits set. |
| Bitsets.Bitset.Hash | crates/linearizability/src/bitset.rs:35-41 | The number of members folded with every word. |
| Bitsets.Bitset.Equals | crates/linearizability/src/bitset.rs:43-55 | Equal words; for equal lengths, equal sets. |
| Bitsets.SameWords | crates/linearizability/src/lib.rs:170-183 | The comparison the cache lookup makes: equal words, which for equal lengths means equal sets. |
| Bitsets.SameMembersSameWords | crates/linearizability/src/bitset.rs:43-55 | Equally long vectors with the same members are the same vector. |
| Checker.CacheContains | crates/linearizability/src/lib.rs:170-183 | Looking in one hash bucket finds a configuration if and only if one with the same set and an equal state was ever inserted. |
| Checker.InsertRepresents | crates/linearizability/src/lib.rs:262-264 | Filing a configuration under its hash adds exactly it to what the buckets represent. |
| Preparation.MakeEntries | crates/linearizability/src/lib.rs:30-48 | Two records per operation, well formed and densely numbered; a's return stands before b's call if and only if a returned earlier, or at the same time with a listed first. |
| Preparation.StableKeepsOrderIffTieFree | crates/linearizability/src/lib.rs:30-48 | Sorting stably by time keeps the real-time order if and only if no return coincides with a later-listed call; then the answer is that of the timed operations. |
| Preparation.CallsFirstSameAnswer | 6.5840/src/porcupine/checker.go:39-68 | Under the comparison that puts calls first, any sort of any operations, stable or not, keeps the real-time order and the answer. |
| Renumbering.Renumber | crates/linearizability/src/lib.rs:127-142 | The events in order, with ids renamed by order of first sight. |
| Renumbering.RenumberedSameAnswer | crates/linearizability/src/lib.rs:127-163 | The renamed events are well formed, their ids lie below half their number, so every bit set access is in range, and the answer is the same. |
| Locality.LinearizableIffEachKeyIs | crates/linearizability/src/model.rs:58-61 | A history of a map of independent objects is linearizable if and only if the part of each key is. |
| Partitioning.OpsPartSameAnswer | crates/linearizability/src/models.rs:32-46 | A key's list of operations asks what that key's part of the history asks. |
| Partitioning.EventPartSameAnswer | crates/linearizability/src/models.rs:48-72 | A key's events are well formed and ask what that key's part of the history asks. |
| KvModels.Partition | crates/linearizability/src/models.rs:32-46 | One list per key that occurs, each holding exactly that key's operations in order. |
| KvModels.PartitionEvent | crates/linearizability/src/models.rs:48-72 | One list per key that occurs, each holding exactly the events of that key's operations in order; the key of every return is known. |
| KvModels.PartitionDecides | crates/linearizability/src/model.rs:58-61 | The store's history is linearizable if and only if each list of operations is. |
| KvModels.PartitionEventDecides | crates/linearizability/src/model.rs:58-61 | The same for events. |
| KvModels.KeyAcceptsIff | crates/linearizability/src/models.rs:80-91 | One key's model accepts an order of operations exactly when every Get in it was told the last value put before it, or the empty string, followed by everything appended since, in order. |
| KvModels.StoreAcceptsIff | crates/linearizability/src/models.rs:80-91 | The same for the whole store, key by key. |
| KvModels.StoreLinearizableIff | crates/linearizability/src/models.rs:80-91 | The store's history is linearizable exactly when its operations can be put in an order that respects real time and in which every Get was told just that: no model, no step. |
| KvModels.TieChangesTheAnswer | crates/linearizability/src/lib.rs:30-48 | A read and a write that touch in one instant: linearizable as timed operations, not after the stable sort. |
| Verdicts.WaitRes | crates/linearizability/src/lib.rs:364-393 | `false`, with the flag raised, at the first wrong part; `true` after all parts were right, or when a timeout cuts the wait short and all so far were. Its state is that of the loop of the parallel run after the same receptions. |
| Verdicts.LoopOfRun | crates/linearizability/src/lib.rs:364-393 | In every interleaving the loop of the parallel run is in the state some sequence of receptions brings it to, with a timeout among them only if one was asked for. |
| Verdicts.VerdictIsRight | crates/linearizability/src/lib.rs:300-327 | In every interleaving of workers, flag and loop, for both languages, where a worker that saw the flag may answer a wrong `false`: without a timeout the answer is the conjunction of the true answers, and with one a negative answer is genuine. |
| Verdicts.NeverStuck | 6.5840/src/porcupine/checker.go:274-313 | With at least one part, until the wait is over some step is possible. |
| Verdicts.RunsAreShort | 6.5840/src/porcupine/checker.go:274-313 | No run takes more than three steps per part and one more, so the wait ends. |
| Verdicts.FlagTells | 6.5840/src/porcupine/checker.go:291-310 | In every interleaving: the flag goes up only with the end of the wait, and then only for a wrong part or a timeout; a wait that ends early has raised it, except in Rust on a timeout; with partial results asked for, only a timeout ends it early, and only if one was asked for. |
| Verdicts.NothingToWaitFor | crates/linearizability/src/lib.rs:364-393 | With no part the wait ends only by giving up, and never without a timeout. |
| Checking.SearchEvents | crates/linearizability/src/lib.rs:346-355 | What one worker may answer about a part given as events: never a wrong `true`, and the right answer if no look at the flag found it up. |
| Checking.SearchOperations | crates/linearizability/src/lib.rs:311-320 | The same for timed operations without ties. |
| Checking.CheckEvents | crates/linearizability/src/lib.rs:335-362 | A run whose workers answer as the search may, and that ends without a timeout, answers `true` if and only if the whole store's history is linearizable; no run answers `false` wrongly. |
| Checking.CheckEventsInTurn | crates/linearizability/src/lib.rs:335-362 | Split by key, renumber, search each part, wait: `true` if and only if the store's history is linearizable, for every non-empty history; and so if and only if in some order that respects real time every Get was told the last value put and what was appended since. |
| Checking.CheckOperations | 6.5840/src/porcupine/checker.go:365-373 | The same for timed operations, sorted with calls first, or by time where no part has ties. |
| Checking.CheckOperationsInTurn | crates/linearizability/src/lib.rs:300-327 | The same for timed operations with the stable sort by time, when no return coincides with a later-listed call of the same key, in both readings. |
| RaftElections.SettlingKeeps | 6.5840/src/raft/raft.go:343-355 | A server that steps down, in its own term or into a later one, keeps the election invariant of the whole cluster, although it forgets its vote. |
| RaftElections.ElectionKeeps | 6.5840/src/raft/raft.go:965-982 | So does one that stands for the next term: no vote of an earlier candidacy can be counted in the new one, and no ballot is out twice. |
| RaftPeers.Raft.RequestVote | 6.5840/src/raft/raft.go:797-832 | The voter's step of the specification, and its reply. |
| RaftPeers.Raft.VoteReturned | 6.5840/src/raft/raft.go:872-903 | The candidate's step, and whether it signals a won election. |
| RaftPeers.Raft.ReinitialisedAfterElection | 6.5840/src/raft/raft.go:997-1017 | A candidate becomes leader, every next index just past its log and every match index zero. |
| RaftPeers.Raft.Start | 6.5840/src/raft/raft.go:938-957 | A leader appends the command under its term at the index returned, and saves; any other server changes nothing. |
| RaftMatchings.SendRuled | 6.5840/src/raft/raft.go:1045-1056 | What a leader sends is a stretch of the log its term is on record for, next to the entry named before it. |
| RaftPeers.Raft.ProcessAppendEntries | 6.5840/src/raft/raft.go:359-435 | The follower's step: refusal, conflict report, or merged log and commit index, and the reply. |
| RaftPeers.Raft.FindStretch | 6.5840/src/raft/raft.go:404-406 | The first index of the stretch of equal terms that ends at the given one. |
| RaftPeers.Raft.Merge | 6.5840/src/raft/raft.go:411-424 | The log up to where terms stop agreeing, followed by the remaining entries. |
| RaftPeers.Raft.AppendReturned | 6.5840/src/raft/raft.go:451-517 | The leader's step, staying in its own term when told of a newer one. |
| RaftPeers.Raft.SetIndices | 6.5840/src/raft/raft.go:470-500 | Next and match index of one peer after its answer; no other peer's change. |
| RaftPeers.Raft.FindLast | 6.5840/src/raft/raft.go:487-490 | The last index that holds the term, or -1. |
| RaftPeers.Raft.AdvanceCommit | 6.5840/src/raft/raft.go:503-517 | The highest replicated index from the end of the log down to the commit index, or the commit index. |
| RaftVoters.ElectionRestriction | 6.5840/src/raft/raft.go:797-832 | In every run of either setting a current leader has a majority of servers behind it, each of which, at a moment of the run, had a log no newer than the candidate's when it asked, had voted for nobody else in that term, and then recorded its vote. |
| RaftRules.ReplicatedIff | 6.5840/src/raft/raft.go:503-511 | The count passes exactly when the entry is of the current term and a majority of the servers, the leader included, hold it, or there is only one server. |
| RaftRules.CommitsTheHighest | 6.5840/src/raft/raft.go:503-517 | A leader's commit index never moves back, moves only to entries of its own term that a majority holds, and no higher such entry is left. |
| RaftRules.BacksUpToTerm | 6.5840/src/raft/raft.go:485-500 | On a refusal that names a term, next is the leader's last index of that term, or the conflict index exactly when its log has none, and match is one less. |
| RaftRules.SuccessMeansHeldIff | 6.5840/src/raft/raft.go:401-425 | Sent a stretch of some log, a follower that answers success ends with exactly that log, as far as it was sent, if and only if its own log was the same, entry by entry, up to where the terms stop agreeing. |
| RaftReplies.EveryAnswerHasATrip | 6.5840/src/raft/raft.go:437-449 | Every answer in the network of any run was given, at a moment of the run, to an append that its leader had built from its log at an earlier moment. |
| RaftReplies.SuccessIsCopyIff | 6.5840/src/raft/raft.go:401-425 | On any such trip with success, for either setting: the follower then holds the leader's log as it stood when it was sent, if and only if the two logs were the same up to where their terms stop agreeing. |
| RaftReplies.SuccessIsCopyIffNoConflict | 6.5840/src/raft/raft.go:401-409 | With the newer term adopted, on any trip of any run with success: the follower then holds the leader's log as sent if and only if the reply names no conflicting term. |
| RaftReplies.CopiesIffAdopts | 6.5840/src/raft/raft.go:463-467 | In all runs a success without a conflicting term means such a copy, if and only if the newer term is adopted. |
| RaftReplies.AnotherEntryIsKept | 6.5840/src/raft/raft.go:411-425 | A run of the code as written in which a follower answers success without a conflicting term and keeps another entry of the same term. |
| RaftReplies.SharedStaysIff | 6.5840/src/raft/raft.go:411-424 | With the newer term adopted, when a current leader's append succeeds without a conflicting term: an entry that the follower shares with the leader is still there afterwards if and only if it lies before the end of the append, and a lost one means that the append agreed in all its entries and ended short of the log. |
| RaftConflicts.ConflictIsCounted | 6.5840/src/raft/raft.go:401-409 | A run from the start that ends with a leader that has committed an entry in no other log of the three, on the strength of a success that named a conflicting term and was no copy; neither of the other two branches is needed. |
| RaftConflicts.CommitsDisagree | 6.5840/src/raft/raft.go:401-409 | Where conflicts are answered with success, whatever else is avoided: a run in which two servers commit different entries at one index. |
| RaftConflicts.LateAppendCuts | 6.5840/src/raft/raft.go:411-424 | A run without any conflict that ends with a committed entry in the leader's log alone: a late append of the same leader has cut it from the one server that had acknowledged it. |
| RaftConflicts.CommitsDisagreeLate | 6.5840/src/raft/raft.go:422-424 | Where appends that agree may cut, whatever else is avoided: a run in which two servers commit different entries at one index. |
| RaftOutvoted.CommitsDisagreeRelapsed | 6.5840/src/raft/raft.go:463-467 | Where a leader told of a newer term stays in its own, whatever else is avoided: a run of five servers in which two commit different entries at one index, because an append of the first leader of a term overwrites what the second has committed. |
| RaftKeeping.DeliveryKeeps | 6.5840/src/raft/raft.go:411-424 | An append that fits and does not end short of an agreeing log takes nothing away that the log shares with the sender's. |
| RaftKeeping.ChosenIsFree | 6.5840/src/raft/raft.go:503-517 | An entry that a majority acknowledged in its term cannot have a majority that moved on without acknowledging it. |
| RaftKeeping.VoterPasses | 6.5840/src/raft/raft.go:299-306 | An entry that a voter has, a candidate with a log no older than the voter's has too, unless a majority has moved on without acknowledging it. |
| RaftKeeping.CrownedHas | 6.5840/src/raft/raft.go:997-1017 | A new leader has every entry of every earlier term, unless a majority has moved on without acknowledging it. |
| RaftSafety.IndicesAcked | 6.5840/src/raft/raft.go:470-500 | After any answer, success or refusal, the peer has acknowledged the entry its match index points at, or that entry is of an earlier term. |
| RaftSafety.ReplicatedIsChosen | 6.5840/src/raft/raft.go:503-517 | What the counting loops find replicated, a majority has acknowledged in the leader's term. |
| RaftSafety.StepSteady | 6.5840/src/raft/raft.go:359-517 | Every step that avoids the three branches keeps the invariant: acknowledged entries stay with who acknowledged them and with every later leader, unless blocked, and every commit index rests on an entry that a majority acknowledged. |
| RaftSafety.LeaderCompleteness | 6.5840/src/raft/raft.go:797-832 | In every run that avoids the three branches, what a server has committed at one moment is in the log of every leader of a term no earlier at every later moment. |
| RaftSafety.StateMachineSafety | 6.5840/src/raft/raft.go:503-517 | In every run that avoids the three branches, whatever is committed at an index, by any server at any moment, is the same entry. |
| RaftSafety.SafeIff | 6.5840/src/raft/raft.go:401-467 | State machine safety holds in all runs if and only if a newer term is adopted or never heard of, no conflict is answered with success, and no append that agrees ends short of the log. |
| RaftProgress.CommitFallsIff | 6.5840/src/raft/raft.go:428-432 | In any state, for any step but its crash: a server's commit index moves back exactly when an append is taken over that tells of more commits than the server has and whose last entry does not even reach those. |
| RaftProgress.CommitNeverFalls | 6.5840/src/raft/raft.go:428-432 | Over any stretch of a run without its crash or such an append a server's commit index only grows. |
| RaftProgress.CommitFollows | 6.5840/src/raft/raft.go:428-432 | On any trip of an append that is taken over: the follower's commit index is what it was if the leader had committed no more when it sent, else what the leader had committed, as far as the follower's log now reaches. |
| RaftConflicts.CommitIsTakenBack | 6.5840/src/raft/raft.go:422-432 | A run from the start, for any setting that lets agreeing appends cut, whose last step delivers an append that takes a commit index from 1 to 0. |
| RaftProgress.CommitsGoForward | 6.5840/src/raft/raft.go:428-432 | In every run that avoids the three branches a commit index never moves back while its server does not crash. |
| RaftProgress.CommitCatchesUp | 6.5840/src/raft/raft.go:428-432 | In every such run a follower that takes an append over has then committed the larger of what it had and what the leader had when it sent. |
| RaftProgress.MatchNeverFalls | 6.5840/src/raft/raft.go:474-478 | While a leader takes in no refusal of a peer, that peer's match index never moves back, whatever answers come late or twice. |
| RaftProgress.CreditCounts | 6.5840/src/raft/raft.go:474-478 | Once a leader has taken in a success that reaches an index, and no refusal since, the match index reaches it at every later moment of its reign. |
| RaftProgress.MajorityHasCommitted | 6.5840/src/raft/raft.go:503-517 | For either setting: of an entry of its own term that a leader holds throughout and for which it has taken in such successes from a majority, itself included, its commit index has gone at least as far. |
| RaftProgress.MajorityCommits | 6.5840/src/raft/raft.go:503-517 | In runs with the newer term adopted, or that are such runs all the same: whatever entry of its own term a leader has such successes for is committed at that very moment and stays so. |
| RaftProgress.RefusalNamesLength | 6.5840/src/raft/raft.go:393-397 | A refusal in the leader's own term means that the follower's log ended before the previous entry, names its length and no term. |
| RaftProgress.RefusalIsHeeded | 6.5840/src/raft/raft.go:480-483 | The leader that takes it in goes on from just where the follower's log ended. |
| RaftProgress.ConflictNamesStretch | 6.5840/src/raft/raft.go:401-409 | An answer with a conflicting term names the follower's term at the previous index and the first index of the stretch of that term around it. |
| RaftProgress.OutdatedNeverLeads | 6.5840/src/raft/raft.go:872-903 | A candidate told of a newer term is at every later moment of the run a follower in the term it stood in, or beyond that term: it never leads it and never stands in it again. |
| RaftElections.ElectionSafety | 6.5840/src/raft/raft.go:872-903 | In every reachable state, under loss, delay, reordering and crashes, with the vote resets inside a term as they are: at most one current leader per term. |
| RaftElections.StepKeeps | 6.5840/src/raft/raft.go:343-355 | Every step keeps the invariant: a server grants at most one other candidate per term, a candidate or leader has granted none, counted votes are granted votes and are counted once. |
| RaftElections.CrashForgetsNothing | 6.5840/src/raft/raft.go:530-556 | At any point of any run a crash and restart keep term, vote and log. |
| RaftMatchings.MergeIsCopy | 6.5840/src/raft/raft.go:411-424 | Laying a leader's entries over a log that agrees at the previous entry gives exactly the leader's log up to the last of them. |
| RaftMatchings.TermIsFree | 6.5840/src/raft/raft.go:1003-1007 | A candidate with a majority never takes a term that has had a leader. |
| RaftMatchings.IndicesStay | 6.5840/src/raft/raft.go:470-500 | An answer in the leader's own term leaves next and match index inside its log. |
| RaftMatchings.OneLeaderEver | 6.5840/src/raft/raft.go:463-467 | With the newer term adopted, any two servers that ever lead in one term are the same. |
| RaftMatchings.LeaderAppendsOnly | 6.5840/src/raft/raft.go:938-957 | With the newer term adopted, a leader's log only grows while it leads. |
| RaftMatchings.LogMatching | 6.5840/src/raft/raft.go:401-424 | With the newer term adopted, in every reachable state two logs with an entry of one term at one index are identical up to it, and no leader slices its log out of bounds. |
| RaftRelapses.TermsRelapse | 6.5840/src/raft/raft.go:463-467 | A run of the code as written with two leaders of term 1, one after the other, the second of which loses an entry while it leads, and logs that differ at an entry of the same index and term. |
| RaftRelapses.LogMatchingIffAdopts | 6.5840/src/raft/raft.go:463-467 | All runs keep Log Matching if and only if a leader adopts the newer term. |
| RaftRelapses.OneLeaderIffAdopts | 6.5840/src/raft/raft.go:463-467 | So it is with one leader ever per term. |
| RaftRelapses.AppendOnlyIffAdopts | 6.5840/src/raft/raft.go:463-467 | So it is with a leader's log only growing while it leads. |
| RaftRelapses.CommitsKeptIffAdopts | 6.5840/src/raft/raft.go:463-467 | So it is with what a leader has committed staying in its log while it leads. |
| RaftRelapses.InBoundsIffAdopts | 6.5840/src/raft/raft.go:1045-1056 | So it is with every leader's next index for every peer lying in its log. |
| RaftRelapses.LeaderIsOverrun | 6.5840/src/raft/raft.go:1045-1056 | A run of the code as written in which a leader commits an entry, has it cut from its own log by the append of a former leader of its term, and would then slice out of bounds. |
| RaftRelapses.QuietRunsMatch | 6.5840/src/raft/raft.go:463-467 | Every run in which no leader is told of a newer term is a run of the code as written and of the repaired code: one leader ever per term, leaders that only append and keep their commits, slices in bounds, Log Matching. |
| KvLogs.ReplayFinds | project_4/src/engines/mod.rs:34-67 | Carrying out a log in order gives a key a value exactly when its last command is a Set, and that command's value. |
| KvLogs.IndexedFinds | project_4/src/engines/mod.rs:34-67 | A key is indexed exactly when its last command is a Set, at that command's byte range. |
| KvLogs.IndexPlaces | project_3/src/engines/kvstore/kvs.rs:186-207 | Every indexed range lies in a file that is there and holds exactly the bytes of the Set of the key's current value; unindexed keys have none. |
| KvStores.LoadLogFile | project_3/src/engines/kvstore/kvs.rs:307-340 | The index after the file's commands; what is returned plus the bytes indexed afterwards is the bytes indexed before plus those of the file's Set and Remove commands. |
| KvStores.SortedGeneration | project_4/src/engines/mod.rs:73-87 | Every generation that has a file, once, in ascending order. |
| KvStores.LoadAll | project_3/src/engines/kvstore/kvs.rs:83-91 | The index of all files replayed oldest first, a reader for each, and the bytes not indexed. |
| KvStores.KvStore.Open | project_3/src/engines/kvstore/kvs.rs:70-101 | The store stands for the map its files replay to and starts a new, empty generation, the one after the newest file's, or the first; uncompacted space is all Set and Remove bytes less those indexed. |
| KvStores.StaleBytes | project_3/src/engines/kvstore/kvs.rs:307-340 | On files that hold only Set and Remove commands, as the store writes them, that is the number of bytes on disk less those indexed. |
| KvStores.KvStore.Get | project_3/src/engines/kvstore/kvs.rs:186-207 | The key's value in the map, or not found exactly when it has none. |
| KvStores.KvStore.Set | project_3/src/engines/kvstore/kvs.rs:222-241 | The map with the key set and nothing else changed. It compacts if and only if more than a mebibyte was counted before; otherwise it is one record at the end of the newest file and the count is as it was. |
| KvStores.KvStore.Remove | project_3/src/engines/kvstore/kvs.rs:254-273 | The map without the key, by one write to the disk, and an error and no write exactly when it had no value; the count stays, while the bytes not indexed grow by those of the key's last Set and of the Remove. |
| KvStores.KvStore.Append | project_3/src/engines/kvstore/kvs.rs:222-230 | One more record at the end of the log, at the writer's byte offset. |
| KvStores.CopyLive | project_3/src/engines/kvstore/kvs.rs:124-142 | Every indexed command is copied byte for byte and its index entry points at the copy; every state the disk is in on the way opens to the same map. |
| KvStores.DeleteStale | project_3/src/engines/kvstore/kvs.rs:144-157 | Exactly the generations before the compacted one are gone, in whatever order. |
| KvStores.DeleteOldestFirst | project_4/src/engines/kvstore/kv_writer.rs:147-155 | The same, and in every state the disk is in on the way those gone are the oldest. |
| KvStores.KvStore.Compact | project_3/src/engines/kvstore/kvs.rs:110-163 | The map is unchanged, index and files agree, only the compacted generation and the new one are left, and every byte on disk is indexed, as counted. |
| KvStores.KvStore.CompactOldestFirst | project_4/src/engines/kvstore/kv_writer.rs:113-161 | The same, and every state the disk is in on the way, after each file created, each record appended and each file deleted, can be opened and replays to the same map. |
| KvStores.KvStore.SetOldestFirst | project_4/src/engines/kvstore/kv_writer.rs:76-108 | The map with the key set. If the count was exact it stays exact, and the store compacts if and only if what the key's former value takes up brings it over a mebibyte. From the first write on, every state the disk is in opens to the new map, so that no crash loses it. |
| KvStores.Recover | project_4/src/engines/kvstore/kv_writer.rs:113-161 | Opening the disk as any of those states left it gives that map. |
| KvStores.Reopen | project_3/src/engines/kvstore/kvs.rs:70-101 | Opening the files of a store at any time gives the map it stood for. |
| KvCompaction.CopyingKeeps | project_4/src/engines/kvstore/kv_writer.rs:127-145 | Stopping at any record boundary of the compacted file changes nothing. |
| KvCompaction.DroppingKeeps | project_4/src/engines/kvstore/kv_writer.rs:147-155 | Stopping after any number of deletions, oldest first, changes nothing. |
| KvCompaction.GapResurrects | project_3/src/engines/kvstore/kvs.rs:144-157 | Deleting a newer generation before an older one brings a removed key back in some store that has just been written to. |
| KvCompaction.SafeIffOldestFirst | project_3/src/engines/kvstore/kvs.rs:144-157 | A set of deletions goes unnoticed in every store whose last command was a Set, which is when the code compacts, if and only if it is closed towards older generations. |
| CoordinatorRuns.MadeIsOk | 6.5840/src/mr/coordinator.go:206-238 | A coordinator as made has its books right before any call: counters that count the unfinished tasks, nothing done, no names. |
| CoordinatorRuns.DoneIffAllReported | 6.5840/src/mr/coordinator.go:192-199 | At every point of every run the job counts as done if and only if every map and every reduce task has been reported, and once done it stays done. |
| Coordinators.Coordinator.GetTask | 6.5840/src/mr/coordinator.go:67-166 | One call is one step of the specification: the report taken in, then a task chosen. |
| Coordinators.Coordinator.Report | 6.5840/src/mr/coordinator.go:80-104 | Only the first report of a task counts; a map task's hands each non-empty name to its reduce task. |
| Coordinators.Coordinator.Assign | 6.5840/src/mr/coordinator.go:113-163 | The first unfinished task that nobody has or that is overdue, maps before reduces, or sleep, or exit. |
| CoordinatorRuns.BooksAreRight | 6.5840/src/mr/coordinator.go:80-104 | At every point of every run: done means reported, the counters count the unfinished tasks, and each reduce list holds the names of the first report of each map task, in order and once. |
| CoordinatorRuns.ExitIffAllReported | 6.5840/src/mr/coordinator.go:142-163 | Exit is sent if and only if every map and every reduce task has been reported. |
| CoordinatorRuns.HandedOutWhenDue | 6.5840/src/mr/coordinator.go:117-157 | A task is handed out only while unreported, a reduce task only after every map task was reported and with all its names; every other answer carries nothing. |
| CoordinatorRuns.ToldExactly | 6.5840/src/mr/coordinator.go:113-163 | From calls and replies alone, at every call of every run: a worker is given the first map task that is neither reported nor was handed out within the last ten seconds, and sleeps exactly when there is none; once all map tasks are reported the same with reduce tasks; and it exits exactly once these are too. |
| CoordinatorRuns.ListsAreFrozen | 6.5840/src/mr/coordinator.go:86-95 | Once every map task is reported no report changes a reduce list. |
| CoordinatorRuns.ReduceInputIsFinal | 6.5840/src/mr/coordinator.go:142-157 | What a reduce worker was given is that task's list at the end of any longer run. |
| CoordinatorRuns.LeasesAreApart | 6.5840/src/mr/coordinator.go:113-157 | Two leases of one task are more than ten seconds apart, whatever the clock does in between. |

## Left out

- MakeEntries: takes the library's sort as a parameter that is promised to be stable; the sorting algorithm is not part of this model.
- CheckSingle: reads the kill flag as a function of the turn, so that every schedule is covered; it does not model the memory order of the atomic load.
- Bitset.Hash: says nothing about how well the hash spreads; correctness does not depend on it.
- Verdicts: the channel hands over answers in any order, which allows more runs than a first-in first-out channel; joining the threads and collecting the remaining partial results afterwards is not modelled.
- Raft.Make and Raft.FromSaved: encoding of the saved state, killed servers and the ticker's timers; a timeout may happen at any time.
- Raft.ElectSelf: broadcasts to all peers at once, while SendHeartBeats is one step per peer, which allows more runs.
- Raft.HeartBeatFor: excludes next indices outside the log, where slicing would panic; with the newer term adopted this cannot happen (RaftMatchings.LogMatching), and without it can (RaftRelapses.LeaderIsOverrun).
- Raft channels other than the won election signal, which may be missed; the apply loop and the service above it.
- Raft snapshots, `6.5840/src/kvraft`, `6.5840/src/shardctrler`, `6.5840/src/shardkv` and `raft/src`.
- KvStore: the serializer is a parameter promised to decode what it encoded and to read a file back as the commands written; malformed files and I/O errors are not modelled. Each generation is its own file, and a writer's position is its byte offset.
- Disk: a file operation happens at once or not at all; torn writes and what the operating system has not flushed yet are not modelled.
- KvStore.Compact: copies the indexed commands in any order, which covers the sorted one.
- KvStore.CompactOldestFirst: closes the readers of deleted files, which the code leaves open and unused; the shared index and locks of `project_4` are not modelled.
- `project_4` reads through an index snapshot, `project_5`, the sled engines, servers, clients and thread pools.
- Coordinator.GetTask: a report about a task that does not exist, at which the code would panic, is excluded by its precondition; time is a number and a task never handed out is always overdue.
- The MapReduce worker, the RPC layer and the HTML visualization.
