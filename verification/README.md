# Verification of the distributed-systems labs

This project models the four algorithmic parts of the repository in Dafny 4.11 and proves what they are for.

**The linearizability checker** (`src/porcupine`, `src/models/kv.go`). `checkSingle` is a backtracking search over a
mutable call/return list with an undo stack and a hash-bucketed cache of visited configurations. `Bitset` refines bitsets
to finite sets, `LinkedEntries` proves the list surgery on the heap, `LiveList` and `Search` hold the invariants of the
search, and `Checker` runs it: an un-killed run answers true exactly when the history is linearizable, its partial answers
are the longest possible, and it terminates. `Operations`, `Events` and `CheckHistory` carry the verdict back to
operations with times, and `KvModel` proves that checking key by key is enough, and `KvMeaning` what a legal order of gets, puts and appends is.

**Raft** (`src/raft/raft.go`). `Raft` says what every handler does to a server's fields, `RaftHandlers` what that means in
the protocol's own terms, `RaftServer` has the handlers
themselves as methods of a class that owns those fields, its disk and its apply channel, and `RaftCluster` is the step
system: each lock-held body is one atomic step, messages are lost, delayed, duplicated and reordered at will, and servers
crash and restart from disk. `RaftLogs` proves Election Safety and Log Matching, `RaftProbes` fast rollback and the commit
rule, all for any network. `RaftSafety` and `RaftCommit` prove State Machine Safety for any number of servers, when the
appends of one leader and term reach a follower in order or, if overtaken, are harmless, and prove exactly which appends
are. The median commits with half of the servers and an election needs more than half, so the two always meet.
`RaftRuns` builds concrete runs: `RaftReordered` has one that loses a committed entry because one heartbeat is late, and
`RaftEven` one where the median commits more than counting a majority would. `Compaction` covers snapshots.

**The key/value service** (`src/kvraft/server.go`). `KvStore` proves exactly-once application and that snapshot recovery
is replay, `KvServer` has the apply loop, and `KvReplicas` joins it to Raft: replicas at the same index hold the same data.

**MapReduce** (`src/mr`, `src/main/mrsequential.go`). `Master` proves the rings of tasks and the scheduler on the heap;
`MapReduce` proves that the distributed computation is a permutation of the sequential output.

`Collections` holds what several parts share.

Where a property fails, there is a lemma with a concrete input and a statement of exactly when it holds: ties between
times (`CheckHistory.TieCanBeRejected`, `Operations.ExactWithoutTies`), operations that return at the very time they are called
(`Operations.ImproperSort`, `Operations.WellFormedIffProper`), the counting rule in even clusters
(`RaftEven.MedianExceedsCountingForEven`, `Raft.MedianIsCounting`), reordered appends
(`RaftReordered.ReorderingLosesCommitted`, `RaftCommit.AcknowledgedKeptIff`, `RaftCommit.LateAppendExact`), late Gets
(`KvStore.LateGetDefeatsTable`, `KvStore.WritesRightIffRetries`, `KvStore.TableRightIffSessions`) and stale snapshot installs (`KvStore.StaleInstall`,
`KvStore.InstallConsistentIff`).

Verify with `dafny verify dfyconfig.toml`. Nothing here runs the original programs.

## Model

| member | source | states |
|---|---|---|
| `Bitset.NewBitset` | src/porcupine/bitset.go:10-17 | a new bitset of any size has one word per 64 ids, rounded up, and stands for the empty set |
| `Bitset.Clone` | src/porcupine/bitset.go:19-23 | a fresh array with the same words; the original is untouched |
| `Bitset.Set` | src/porcupine/bitset.go:29-33 | adds exactly one id to the set the words stand for |
| `Bitset.Clear` | src/porcupine/bitset.go:35-39 | removes exactly one id from the set |
| `Bitset.Popcnt` | src/porcupine/bitset.go:46-52 | the word-by-word count of ones is the cardinality of the set |
| `Bitset.Hash` | src/porcupine/bitset.go:54-60 | the loop's xor of all words, seeded with the cardinality modulo 2^64 |
| `Bitset.HashMeaning` | src/porcupine/bitset.go:54-60 | a bit of the hash is set exactly when it is set in an odd number of the words and of the cardinality |
| `Bitset.Equals` | src/porcupine/bitset.go:62-72 | true exactly when both have the same number of words and stand for the same set |
| `Bitset.ElementsInjective` | src/porcupine/bitset.go:62-72 | bitsets of one length that stand for the same set are the same words, so equal sets always land in the same bucket of the cache |
| `Bitset.UpdateElements` | src/porcupine/bitset.go:25-39 | or-ing or and-not-ing one bit of one word changes membership of that id and of no other |
| `LinkedEntries.InsertBefore` | src/porcupine/checker.go:65-76 | exactly which four links change, and none when the mark is nil |
| `LinkedEntries.Length` | src/porcupine/checker.go:78-85 | counts the nodes of a chained list |
| `LinkedEntries.MakeLinkedEntries` | src/porcupine/checker.go:116-133 | a fresh list of all entries in order, each call pointing at the node of its own return |
| `LinkedEntries.Lift` | src/porcupine/checker.go:154-162 | removes exactly a call and its return from the list, adjacent or not, last or not, and leaves both nodes able to be put back |
| `LinkedEntries.Unlift` | src/porcupine/checker.go:164-172 | restores precisely the list before the matching lift; links of other nodes are untouched |
| `LiveList.CursorEnabled` | src/porcupine/checker.go:185-190 | a call under the cursor with no return before it in the list is one that real-time order allows next |
| `LiveList.LiftLive` | src/porcupine/checker.go:184-237 | if the list holds exactly the entries of operations outside a set, then after lifting c it holds those outside the set with c |
| `Linearizability.StepwiseIsOrdered` | src/porcupine/checker.go:174-248 | orders built one enabled call at a time are exactly the orders that are downward closed and respect real time |
| `Search.ExploredPush` | src/porcupine/checker.go:192-202 | performing a new configuration keeps the search invariant: every cached configuration is fully expanded or on the stack with its expansion so far |
| `Search.ExploredPop` | src/porcupine/checker.go:230-236 | so does taking back the top of the stack at a return that cannot be passed |
| `Search.ExtendAlike` | src/porcupine/checker.go:140-147 | configurations with the same set and Equal states have the same continuations, which is why pruning loses nothing |
| `Search.ExhaustedCovers` | src/porcupine/checker.go:210-212 | when the stack is empty at a return, every partial linearization is alike to a cached configuration |
| `Search.ExploringShrinks` | src/porcupine/checker.go:185-238 | each new configuration lowers the number of unexplored ones, the first component of the termination measure |
| `Checker.CacheContains` | src/porcupine/checker.go:140-147 | looks in one bucket only, yet answers true exactly when some entry anywhere in the cache has the same set and an Equal state |
| `Checker.CacheInsert` | src/porcupine/checker.go:196-197 | adds exactly one entry and keeps every entry in the bucket of its hash |
| `Checker.Visit` | src/porcupine/checker.go:193-197 | a configuration counts as new exactly when no explored order has the same set and an Equal state |
| `Checker.PushCall` | src/porcupine/checker.go:198-202 | after the push the list is the original entries minus those of the stacked operations, and the trail remembers how to undo each |
| `Checker.PopCall` | src/porcupine/checker.go:230-236 | after the pop the list is the one before the matching push |
| `Checker.RecordLongest` | src/porcupine/checker.go:213-229 | exactly the stacked operations whose answer is missing or shorter get the current stack |
| `Checker.PassCall` | src/porcupine/checker.go:203-208 | passing a call that cannot be performed, or leads to a known configuration, keeps the loop invariant and advances |
| `Checker.PushNew` | src/porcupine/checker.go:195-202 | performing a new configuration keeps the loop invariant and lowers the number unexplored |
| `Checker.Backtrack` | src/porcupine/checker.go:209-237 | recording and undoing keeps the loop invariant and shortens the stack |
| `Checker.AtCall` | src/porcupine/checker.go:189-208 | whichever branch is taken, the loop invariant holds and the lexicographic measure decreases |
| `Checker.Prepare` | src/porcupine/checker.go:175-184 | the invariant holds at the first loop head |
| `Checker.ExhaustedOptimal` | src/porcupine/checker.go:213-229 | when the search is exhausted, every recorded answer is a longest partial linearization containing its operation, or absent because there is none |
| `Checker.CompleteOptimal` | src/porcupine/checker.go:239-246 | on success the complete linearization is the best answer for every operation |
| `Checker.CheckSingle` | src/porcupine/checker.go:174-248 | terminates; true implies linearizable; un-killed, true if and only if linearizable; every answer is a partial linearization containing its operation; un-killed with computePartial, answers are nil exactly when no partial linearization contains the operation and of maximum length otherwise |
| `Checker.ReplayNeverPanics` | src/porcupine/visualization.go:60-72 | replaying any prefix of a recorded answer through Step always succeeds |
| `Events.Renumber` | src/porcupine/checker.go:87-101 | ids become 0 to count-1, equal exactly where they were equal; everything else is kept |
| `Events.ConvertEntries` | src/porcupine/checker.go:103-114 | entry i is event i with time i |
| `Events.EventsWellFormed` | src/porcupine/checker.go:87-114 | properly paired events, with any ids, give a well-formed entry list |
| `Events.SameVerdict` | src/porcupine/checker.go:87-114 | the entry list is linearizable if and only if the events are, by the positions of their calls and returns, whatever ids they used |
| `Operations.MakeEntries` | src/porcupine/checker.go:43-55 | a time-sorted permutation of the two entries of every operation |
| `Operations.SortedWellFormed` | src/porcupine/checker.go:43-55 | however the unstable sort orders ties, the list is well formed when every call is before its return |
| `Operations.ImproperSort` | src/porcupine/checker.go:53-53 | an operation that does not return after its call has an outcome of the sort with its return first |
| `Operations.WellFormedIffProper` | src/porcupine/checker.go:43-55 | every outcome of the sort is well formed if and only if every operation returns after its call |
| `Operations.PrecedesByTime` | src/porcupine/checker.go:39-53 | list order follows times, up to ties |
| `Operations.VerdictMeaning` | src/porcupine/checker.go:43-55 | linearizability of the list implies that of the operations, and conversely without ties |
| `Operations.TieReadAsPrecedence` | src/porcupine/checker.go:53-53 | when one operation returns as another is called, some outcome of the sort reads a precedence into it |
| `Operations.ExactWithoutTies` | src/porcupine/checker.go:43-55 | every outcome of the sort enforces only the true time order if and only if there are no such ties |
| `KvModel.OneKeyLawful` | src/models/kv.go:35-54 | the per-key model meets the contract the checker needs: Equal is an equivalence that Step respects |
| `KvMeaning.KeyLegalMeansGetsRight` | src/models/kv.go:35-54 | an order of one key's operations is legal if and only if every get returns the value of the last put before it followed by the values appended since, first to last, or those alone when nothing was put |
| `KvMeaning.LegalMeansGetsRight` | src/models/kv.go:35-54 | the same for the whole store, key by key |
| `KvMeaning.LinearizableMeans` | src/models/kv.go:35-54 | so a history is linearizable on the model if and only if some order that respects the times has every get right |
| `KvModel.GroupByKey` | src/models/kv.go:19-23 | the map's keys are the keys used, each with its operations in history order |
| `KvModel.Partition` | src/models/kv.go:18-34 | one part per key in sorted key order, each the key's operations in history order |
| `KvModel.PositionsIncrease` | src/models/kv.go:20-23 | the operations of a part stand in it in the order of the history |
| `KvModel.ExecProjects` | src/models/kv.go:40-54 | an order is legal on the whole store exactly when its restriction to every key is legal on that key |
| `KvModel.PartitionLocality` | src/models/kv.go:18-53 | the whole history is linearizable from the empty store if and only if every part is linearizable from the empty string |
| `CheckHistory.CheckOperations` | src/porcupine/checker.go:269-310 | for operations that return after their calls, without which the list to search need not be well formed: Ok implies that some order respecting the times has every get return what was put and appended before it; when no operation returns as another on the same key is called, Ok if and only if there is one |
| `CheckHistory.CheckEvents` | src/porcupine/checker.go:350-358 | with events in one part, Ok if and only if they are linearizable |
| `CheckHistory.TieCanBeRejected` | src/porcupine/checker.go:53-53 | a concrete linearizable history with a tie that one outcome of the sort makes unlinearizable |
| `Raft.ScanMeaning` | src/raft/raft.go:1846-1865 | on a log with nondecreasing terms the early exit is right: -1 exactly when the term does not occur, else its last index |
| `Raft.SortedMedian` | src/raft/raft.go:1788-1803 | the element at position n/2 of any ascending arrangement is held by at least n - n/2 servers, and its successor by fewer |
| `Raft.MedianUnique` | src/raft/raft.go:1797-1803 | the median does not depend on how ties were sorted |
| `Raft.MedianIsCounting` | src/raft/raft.go:1752-1808 | with current-term match indexes, the median rule equals the counting loop if and only if the median is not above the commit index without a majority; always so for odd clusters |
| `RaftHandlers.UpToDateTotal` | src/raft/raft.go:391-404 | of any two servers at least one may vote for the other |
| `RaftHandlers.UpToDateTransitive` | src/raft/raft.go:391-404 | the up-to-date test is transitive, so together a total preorder |
| `RaftHandlers.VoteGrantedIff` | src/raft/raft.go:361-424 | a vote is given if and only if the request is not of an older term, no other candidate has the vote in its term, and (last term, last index) is lexicographically at least the voter's |
| `RaftHandlers.VoteEffect` | src/raft/raft.go:361-424 | only term, vote and role can change, and how |
| `RaftHandlers.PositionMeaning` | src/raft/raft.go:391-404 | the position compared is that of the last entry, or the snapshot's when nothing follows it |
| `RaftHandlers.CampaignEffect` | src/raft/raft.go:999-1022 | a candidate would grant its own request of the new term, and nobody else's |
| `RaftHandlers.VoteCounted` | src/raft/raft.go:1065-1073 | a vote is counted if and only if it is granted, not late, and no newer term shows; nothing else changes unless one does |
| `RaftHandlers.WinsIffMajority` | src/raft/raft.go:1096-1106 | a candidate wins if and only if it has more than half of the votes |
| `RaftHandlers.LeaderEffect` | src/raft/raft.go:1108-1127 | a new leader takes every follower to hold all but what is still to come, in absolute indexes, and to have matched nothing |
| `RaftHandlers.SentMeaning` | src/raft/raft.go:1500-1536 | a leader can send exactly when the entry before is not below its snapshot, and sends that entry's term and all entries after it, by absolute index |
| `RaftHandlers.SpliceMeaning` | src/raft/raft.go:835-898 | for any snapshot: a matching append that is held or ends within the snapshot changes nothing; any other leaves a log that ends where it ends, holds its entries above its previous index, and is as before below |
| `RaftHandlers.CommitMeaning` | src/raft/raft.go:951-967 | the commit index becomes the leader's, but no more than the last index, and never because of an older one |
| `RaftHandlers.RejectionMeaning` | src/raft/raft.go:912-941 | a refusal names the length of a log that is too short, or the conflicting term and the first index of its run, in absolute indexes |
| `RaftHandlers.AppendEffect` | src/raft/raft.go:790-978 | success if and only if the term is not older and the previous entry is covered or matches; what each answer says, and everything that changes |
| `RaftHandlers.RollBackMeaning` | src/raft/raft.go:1617-1651 | for any snapshot, the next probe is at the follower's length, or the last index the leader has of the conflicting term, or else where that term starts at the follower |
| `RaftHandlers.AnswerEffect` | src/raft/raft.go:1603-1671 | a current success moves exactly that follower's next index just past the append and raises its match index to its end; other answers move neither |
| `RaftHandlers.RestartKeepsPromises` | src/raft/raft.go:626-671 | after a crash the server answers every vote request and every append as before, and keeps the same term, vote and log |
| `RaftEven.MedianExceedsCountingForEven` | src/raft/raft.go:1788-1808 | a complete run of two servers in which an unanswered append lets the leader commit what it alone holds, where the counting loop would commit nothing |
| `RaftLogs.StepKeeps` | src/raft/raft.go:361-424 | every handler, send and restart keeps the network-independent invariant: each log entry came, with all before it, from the leader of its term; votes are given once per term; messages are pieces of leaders' logs |
| `RaftLogs.RequestVoteServer` | src/raft/raft.go:369-420 | a vote once given in a term is never changed |
| `RaftLogs.ElectsOnce` | src/raft/raft.go:1096-1113 | a candidate with a majority is the first to lead its term, since quorums intersect |
| `RaftLogs.SpliceResult` | src/raft/raft.go:835-898 | an accepted append leaves the log as it was or makes it exactly the leader's log up to the append's end |
| `RaftLogs.RollBackRange` | src/raft/raft.go:1617-1651 | a rejected probe's answer moves the next index to at least 1 and at most the probed index |
| `RaftLogs.RunInv` | src/raft/raft.go:361-424 | the invariant holds at every state of every run, whatever the network does |
| `RaftLogs.ElectionSafety` | src/raft/raft.go:1006-1113 | over a whole run with crashes and restarts, at most one server ever leads a term |
| `RaftLogs.LogMatching` | src/raft/raft.go:790-978 | with any loss, delay, duplication and reordering, logs with the same term at an index are identical up to it, even when taken at different moments |
| `RaftProbes.LogsMonotone` | src/raft/raft.go:494-501 | terms never decrease along any log of any run |
| `RaftProbes.ScanInRuns` | src/raft/raft.go:1846-1865 | so findLast means what its comment says in every run |
| `RaftProbes.RejectedProbeLowers` | src/raft/raft.go:1617-1651 | in every run, each current rejected probe strictly lowers nextIndex and keeps it at least 1 |
| `RaftProbes.AcceptedProbeCopies` | src/raft/raft.go:835-898 | in every run, accepting a non-empty probe, however late, leaves the follower with the whole log its sender had when it sent it |
| `RaftCommit.AcknowledgedKeptIff` | src/raft/raft.go:835-858 | in every safe state, an append of the current or a later term, in whatever order, keeps all its receiver has acknowledged to that leader if and only if it is refused, says nothing, reaches as far, or ends at an entry of its own term |
| `RaftCommit.CommittedKeptIff` | src/raft/raft.go:835-898 | in every safe state, an accepted append, in whatever order, keeps its receiver's committed entries if and only if it says nothing, reaches the commit index, or ends at an entry of its own term |
| `RaftCommit.LateAppendExact` | src/raft/raft.go:835-898 | the same at every state of every run that is in order or harmlessly late |
| `RaftProbes.CommitRuleIsCounting` | src/raft/raft.go:1581-1808 | in every run of any size, whenever a leader handles an answer the median commits exactly what the commented-out counting loop would if and only if it commits nothing new or a majority holds it; always for an odd number of servers |
| `RaftProbes.CommitRuleOnSilence` | src/raft/raft.go:1677-1677 | the same when an append gets no answer |
| `RaftSafety.GrantReaches` | src/raft/raft.go:386-411 | a log judged up to date holds every entry the voter holds that can still be chosen |
| `RaftSafety.WinnerHolds` | src/raft/raft.go:1096-1113 | leader completeness: a winning candidate's log holds everything of earlier terms that can still be chosen |
| `RaftSafety.TooLate` | src/raft/raft.go:494-501 | an entry appended by an outdated leader can never be chosen |
| `RaftCommit.SpliceFollows` | src/raft/raft.go:835-898 | an append delivered in order leaves a prefix of the leader's log that reaches at least its own end |
| `RaftCommit.SpliceCommits` | src/raft/raft.go:835-898 | an append delivered in order never changes a committed entry |
| `RaftCommit.MedianChosen` | src/raft/raft.go:1788-1808 | whatever the median rule commits has been accepted, in one term, by at least half of the servers |
| `RaftCommit.AnswersStayInLog` | src/raft/raft.go:1581-1677 | handling an answer never indexes outside the log |
| `RaftCommit.SilenceStaysInLog` | src/raft/raft.go:1677-1677 | nor does the commit rule when no answer comes |
| `RaftCommit.StepSafe` | src/raft/raft.go:361-424 | every step, with appends in order or harmlessly late, keeps the full safety invariant |
| `RaftCommit.StateMachineSafety` | src/raft/raft.go:790-978 | in every run of any number of servers with appends in order or harmlessly late, with loss and crash/restart, no two servers, at any two moments, hold different entries at an index both have committed |
| `RaftReordered.HeartbeatTruncates` | src/raft/raft.go:849-858 | a late empty heartbeat removes an entry of the same term that it knows nothing of |
| `RaftReordered.ReorderingLosesCommitted` | src/raft/raft.go:849-858 | a complete run of three servers, nothing lost or crashed, in which reordering makes a server replace an entry it had committed |
| `RaftServer.RaftPeer.constructor` | src/raft/raft.go:622-670 | on an empty disk the server is fresh; on a disk left by server s it is exactly s restarted |
| `RaftServer.RaftPeer.Persist` | src/raft/raft.go:165-191 | the disk holds the current term, vote and log; the snapshot is kept |
| `RaftServer.RaftPeer.TermUpdate` | src/raft/raft.go:727-736 | becomes a follower of the new term with no vote, durably |
| `RaftServer.RaftPeer.RequestVote` | src/raft/raft.go:361-424 | new state and reply are the step system's; the disk holds them before the reply leaves |
| `RaftServer.RaftPeer.StartElection` | src/raft/raft.go:999-1022 | the campaign step, durably |
| `RaftServer.RaftPeer.MakeVoteRequest` | src/raft/raft.go:1040-1054 | the request describes the log as it is when built |
| `RaftServer.RaftPeer.OnVoteReply` | src/raft/raft.go:1065-1073 | the vote-counting step |
| `RaftServer.RaftPeer.TryBecomeLeader` | src/raft/raft.go:1096-1127 | becomes leader exactly when still a candidate of the term with more than half the votes; the loop resets every next and match index |
| `RaftServer.RaftPeer.Start` | src/raft/raft.go:475-512 | a leader's log grows by exactly the command at the returned index and term; others refuse and change nothing |
| `RaftServer.RaftPeer.PrepareAppend` | src/raft/raft.go:1500-1536 | sends the whole log from the next index, or nothing when not leader or the entries are gone |
| `RaftServer.RaftPeer.FindEntry` | src/raft/raft.go:1829-1844 | the first index of the run of equal terms that ends at p |
| `RaftServer.RaftPeer.FindLast` | src/raft/raft.go:1846-1865 | the scanning loop is the scan whose meaning ScanMeaning gives |
| `RaftServer.RaftPeer.Splice` | src/raft/raft.go:835-898 | the log part of AppendEntries over all eight branches, durable on return |
| `RaftServer.RaftPeer.DeliverTwice` | src/raft/raft.go:969-976 | every newly committed entry goes to the service in order, twice |
| `RaftServer.RaftPeer.AppendEntries` | src/raft/raft.go:790-978 | new state and reply are the step system's, durable, and exactly the newly committed entries are delivered, each twice |
| `RaftServer.RaftPeer.SortByMatch` | src/raft/raft.go:1788-1801 | a permutation of the peers in ascending order of match index |
| `RaftServer.RaftPeer.UpdateCommit` | src/raft/raft.go:1783-1822 | the commit index rises to the median and never falls; exactly the newly committed entries are delivered, each once |
| `RaftServer.RaftPeer.OnAppendReply` | src/raft/raft.go:1570-1677 | the answer-handling step, with its deliveries |
| `RaftServer.RaftPeer.OnAppendFailure` | src/raft/raft.go:1581-1677 | a failed send books nothing, yet runs the commit rule, with its deliveries |
| `RaftServer.RaftPeer.PersistV2` | src/raft/raft.go:194-262 | the compaction step; disk and snapshot are saved together, with the term of the last covered entry |
| `RaftServer.RaftPeer.MakeSnapArgs` | src/raft/raft.go:1405-1412 | what is sent names the position of the snapshot it carries |
| `RaftServer.RaftPeer.InstallSnapshot` | src/raft/raft.go:1890-1985 | the installation step; the service receives the snapshot exactly when it is installed |
| `Compaction.CompactInvisible` | src/raft/raft.go:213-241 | persistV2 keeps every entry above the snapshot, the last index and term, the outcome of every up-to-date test, every vote request, and each absolute next index |
| `Compaction.CompactEffect` | src/raft/raft.go:200-243 | it happens exactly when the last covered entry is in the log, remembers its index and term, and leaves role, term, vote, votes, commit index, match indexes and append gate alone |
| `Compaction.CompactVotesSame` | src/raft/raft.go:213-255 | every vote request meets the same answer and leaves the same vote before and after compaction |
| `Compaction.CompactStepsSame` | src/raft/raft.go:213-255 | campaigns, counted votes and submitted commands commute with compaction |
| `Compaction.CompactSendsSame` | src/raft/raft.go:213-241 | a compacted leader that can still send to a follower sends what it would have sent |
| `Compaction.CompactCommutes` | src/raft/raft.go:213-241 | appends above the snapshot are accepted as before, and compacting before or after them gives the same log |
| `Compaction.CompactCommutesBelow` | src/raft/raft.go:862-898 | so they do when the append starts within the new snapshot and reaches beyond it |
| `Compaction.InstallInvisible` | src/raft/raft.go:1950-1980 | installing a snapshot whose last entry is in the log keeps everything above it and the last index and term |
| `Compaction.InstallReplaces` | src/raft/raft.go:1950-1980 | otherwise the log ends exactly where the snapshot does |
| `Compaction.InstallEffect` | src/raft/raft.go:1888-1985 | exactly when a snapshot is installed, and everything it changes; the vote only with a newer term |
| `KvStore.FirstsMeaning` | src/kvraft/server.go:648-684 | the de-duplicated log has every request of the log, each once, and nothing else |
| `KvStore.PlainMeaning` | src/kvraft/server.go:648-684 | plain puts and appends leave a key in the database if and only if one writes it, with the value of its last Put followed by those appended since, in log order |
| `KvStore.ExactlyOnce` | src/kvraft/server.go:598-687 | when a write repeats exactly if the latest number of its client, among Gets and writes not logged before, has reached its own, the database after any part of the log has the keys that part without repeated requests writes, each with its last Put followed by what was appended since |
| `KvStore.WritesRightIffRetries` | src/kvraft/server.go:650-684 | that condition on the log holds if and only if every write is skipped exactly when it repeats |
| `KvStore.SessionsAreRetries` | src/kvraft/server.go:625-684 | it holds when every Get and every new write is numbered at least as high as all before it of its client; retried writes may come late |
| `KvStore.TableRightIffSessions` | src/kvraft/server.go:625-684 | requests are so numbered if and only if, at every point of the log, the client table counts every logged request as executed and no new write |
| `KvStore.LateGetAlone` | src/kvraft/server.go:633-646 | a late Get that no retried write follows: the table is wrong and every write still right |
| `KvStore.LateGetDefeatsTable` | src/kvraft/server.go:633-646 | a log where a Get lowers the client's number and a retried append runs twice |
| `KvStore.ApplyTwice` | src/kvraft/server.go:625-684 | delivering any command again at once changes neither database nor client table |
| `KvStore.DeliveriesReplay` | src/kvraft/server.go:530-687 | any mixture of single, repeated and snapshot deliveries that are not behind ends with what the log up to that index makes of the empty store |
| `KvStore.DeliveriesExactlyOnce` | src/kvraft/server.go:530-687 | and when writes are right in that log, the database then holds what each request, taken once, put and appended |
| `KvStore.StaleInstall` | src/kvraft/server.go:559-566 | a snapshot behind the service leaves its store and its index apart |
| `KvStore.InstallConsistentIff` | src/kvraft/server.go:559-566 | in a log whose requests are so numbered, installing a snapshot keeps the service consistent if and only if every command it had applied beyond the snapshot is a no-op or repeats a request the snapshot covers |
| `KvStore.RecoveryIsReplay` | src/kvraft/server.go:743-767 | a restored snapshot is the service after its part of the log, and applying the later commands gives the same database and client table as the whole log |
| `KvServer.KVServer.constructor` | src/kvraft/server.go:743-767 | starts with the persisted snapshot, or empty |
| `KvServer.KVServer.InstallSnapshot` | src/kvraft/server.go:543-566 | takes over both maps; the applied index only rises |
| `KvServer.KVServer.ApplyOne` | src/kvraft/server.go:598-687 | one step of the fold; a Get yields the value it read |
| `KvServer.KVServer.Applier` | src/kvraft/server.go:530-690 | the loop over the channel is the fold over its messages |
| `KvServer.KVServer.TakeSnapshot` | src/kvraft/server.go:464-498 | a copy of both maps at the applied index, a snapshot of whatever log led there |
| `KvReplicas.DeliveriesLegal` | src/raft/raft.go:969-976 | what a peer sends for its committed entries, once or twice each, is a legal delivery of the log |
| `KvReplicas.DeliveriesCount` | src/raft/raft.go:969-976 | and each entry is in it once or twice, as it was sent |
| `KvReplicas.CommittedPrefixes` | src/raft/raft.go:790-978 | one server's committed commands are a prefix of another's, at any moments |
| `KvReplicas.ReplicasAgree` | src/kvraft/server.go:530-687 | services of any two servers that stand at the same index hold the same database and client table |
| `MapReduce.MapTask` | src/mr/worker.go:113-145 | file i holds exactly the pairs whose key hashes to bucket i, in order |
| `MapReduce.ReadInterFiles` | src/mr/worker.go:195-226 | reads every pair of every file in order, and drops the empty pair read at each end of file |
| `MapReduce.ConcatInOrder` | src/mr/worker.go:195-226 | files follow one another in order |
| `MapReduce.SortByKey` | src/mr/worker.go:158-158 | a permutation in key order |
| `Strings.LessMeaning` | src/mr/worker.go:21-21 | the order of keys, by the first position where they differ |
| `MapReduce.GroupAndReduce` | src/main/mrsequential.go:65-90 | one line per key, in strictly increasing key order, with the reduction of all the key's values |
| `MapReduce.ValuesInOrder` | src/main/mrsequential.go:76-85 | a key's values are those of its pairs, in the order of their positions |
| `MapReduce.InputValues` | src/mr/worker.go:113-145 | a reduce task reads all values of the keys of its bucket, in order, and none of other keys |
| `MapReduce.SortKeepsValues` | src/mr/worker.go:158-158 | sorting keeps each key's multiset of values |
| `MapReduce.KeyInOneBucket` | src/mr/worker.go:113-180 | each key is printed by exactly the reduce task its hash names |
| `MapReduce.DistributedIsSequential` | src/mr/worker.go:113-226 | for any order-blind reduce function, any hash, any number of buckets and any outcome of the sorts, all reduce outputs together are a permutation of the sequential output |
| `MapReduce.SequentialProgram` | src/main/mrsequential.go:38-90 | the sequential program produces a sequential output |
| `MapReduce.ReduceTask` | src/mr/worker.go:154-190 | reads, sorts and groups one bucket |
| `MapReduce.DistributedProgram` | src/mr/worker.go:91-190 | all map tasks, then all reduce tasks: together a permutation of any sequential output |
| `Master.InitHead` | src/mr/master.go:238-244 | a ring with only its head |
| `Master.AddNode` | src/mr/master.go:227-236 | adds exactly one node before the head |
| `Master.DeleteNode` | src/mr/master.go:220-226 | joins the node's two neighbours and changes no other link |
| `Master.UnlinkKeeps` | src/mr/master.go:220-226 | deleting a finished task, even one already deleted, keeps every link of every node skipping only finished tasks |
| `Master.FinishKeeps` | src/mr/master.go:63-74 | so does finishing a task |
| `Master.Scan` | src/mr/master.go:109-121 | terminates when a task is left, and returns the first unfinished one going around from the start |
| `Master.UnfinishedFinish` | src/mr/master.go:63-74 | finishing an unfinished task lowers the number unfinished by exactly one |
| `Master.Coordinator.constructor` | src/mr/master.go:246-285 | two full rings, nothing finished, counters at the number of tasks |
| `Master.Coordinator.ReportMap` | src/mr/master.go:63-69 | finishes that map task; the first reporter is remembered as the source of its output |
| `Master.Coordinator.ReportReduce` | src/mr/master.go:71-78 | finishes that reduce task, once |
| `Master.Coordinator.AssignMap` | src/mr/master.go:103-126 | assigns the next unfinished map task going around from the pointer |
| `Master.Coordinator.AssignReduce` | src/mr/master.go:128-156 | with all maps finished, assigns the lowest unfinished reduce task, with inputs that each name a worker that reported that map |
| `Master.Coordinator.RequestHandler` | src/mr/master.go:56-97 | in every reachable state: counters equal the number unfinished, an unfinished task is assigned, none of reduce before all maps are finished, and nothing exactly when all is done |
| `Master.Coordinator.Done` | src/mr/master.go:196-212 | true exactly when all tasks are finished |

## Left out

- `src/labrpc` and `src/labgob`: the network is a set of messages, and persisted state is a value.
- Goroutine timing, timers, sleeps, condition variables, channel capacities and deadlock, `killed()` paths and unlocked reads: each lock-held body is one atomic step. A leader may start an election in the step system although the source's timer stops for leaders, which only adds runs.
- Answers a leader drops because a later probe to the same follower has been sent (src/raft/raft.go:1565): the step system may deliver any answer, at any time and repeatedly, which only adds runs. Each vote of an election is counted once, as the source asks each peer once.
- Becoming leader: the guard at src/raft/raft.go:1096, read without the lock, and the body up to line 1154 are one atomic step.
- Crashes between the two saves of one handler (src/raft/raft.go:1963 and 1976): servers crash between handlers only.
- Snapshots inside the cluster proof: safety is proved without them; compaction is proved invisible for one server at a time. Lost and repeated InstallSnapshot exchanges and the leader's reaction to their replies are not modelled.
- State machine safety when an overtaken append is not harmless: false of the code, as the lemmas named above show.
- Sharing of slices: Go's `append` on a prefix of `rf.log` may overwrite entries another slice still sees; logs here are values, as they are after encoding for a message. Cached bitsets are stored by value, which is what `clone` is for.
- Indexing past the log: where `findLast` would be called with a start beyond the log, the source panics; the step system then uses the answer's own term start. In safe states this does not happen (`RaftCommit.AnswersStayInLog`), and the class methods require it.
- Sorting: `sort.Sort`, `sort.Strings` and `sort.SliceStable` are insertion sorts with the library's promises as contracts; results about them hold for every outcome those promises allow.
- What the search does with a list that is not well formed: an operation that returns at the very time it is called may give one (`Operations.ImproperSort`), so `CheckHistory.CheckOperations` asks for `Operations.Proper`, which is exactly what rules it out.
- `checkParallel`'s goroutines, timeout and early exit, and its behaviour on an empty list of partitions, where it waits forever: `CheckHistory.CheckOperations` checks the parts one after another and asks for a non-empty history.
- `PartitionEvent` functions: `CheckHistory.CheckEvents` checks events as one part, which is what models without one get.
- Map iteration, where the source ranges over Go maps: any order.
- The visualization, apart from the replay fact.
- Old Raft senders `Append` and `heartbeat`, byte-size snapshot triggers, reply channels, the blocking Get and PutAppend handlers and the Clerk: only the session discipline they give rise to is used, as the hypotheses `KvStore.Retries`, exactly what right writes need, and `KvStore.Sessions`, exactly what a right client table needs. Nothing is said about the Get reply for a missing key.
- File and socket I/O, plugins and renames in MapReduce; intermediate files are sequences of pairs, so keys and values that the text format could not carry (empty, or with white space) are outside what the files mean.
- `ihash`: any function from keys to naturals.
- `src/shardmaster`, `src/shardkv`, test configurations and archived variants.
- Bitset.Hash: does not claim that different sets hash differently, because they may not; the cache does not need it.
