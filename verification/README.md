# Raft key-value store and game server: a verified model

The repository holds a replicated key-value store on a Raft implementation
(`raft_KV`) and an HTTP/WebSocket server with a Gomoku game on top of it
(`HTTPServer`).  This project models their logic in Dafny and proves what they
are for.  `dafny verify dfyconfig.toml` checks all of it.

**Raft.**  `RaftHandlers` gives every handler that runs under the node's lock as
a function on the node's state; a failed `myAssert` is the outcome `Halted`.
`RaftHandlerLaws` says outcome by outcome what each of them does, on terms,
indices and entries alone.
`RaftObject.Raft` is the node as an object: the same handlers with the loops of
the program, each proved to compute its function.  `RaftCluster` runs any number
of nodes (at least two) as a step relation with thirteen kinds of step.  Each RPC
is a detached thread that holds its request and later its answer; requests and
answers may be delayed, reordered and lost, timers fire at any moment, a halted
node stays halted, and snapshots of the log are taken and installed.  History
that no handler reads records, per term, who led, who voted and which log ends
were acknowledged, and per node the log including its compacted part.

Two layers of theorems follow.  `RaftInvariant`, `RaftElection` and
`RaftReplication` prove an inductive invariant of the code as written, for every
run: Election Safety, Leader Append-Only, entry identity, commit quorums, bounds
of `nextIndex`, and that the only assertion that can ever fail is the one in
`matchLog`, with the exact condition and a run that meets it.  `RaftSafety`,
`RaftSafeSteps`, `RaftSafeSnapshots`, `RaftSafeRuns` and `RaftAgreement` prove Log
Matching, Leader Completeness and State Machine Safety (Figure 3 of Ongaro and
Ousterhout, "In Search of an Understandable Consensus Algorithm") for every clean
run.  A run is clean when two kinds of delivery leave no stale tail: an
AppendEntries that is accepted and overwrites a conflicting entry reaches at least
the receiver's last index, and a snapshot that is installed reaches the receiver's
last index or meets, at its boundary, a stored entry of its own term.  Deliveries
that are refused, outdated or in agreement with the receiver's log are always clean.

The condition is needed and exact.  The code overwrites a conflicting entry in
place and keeps what lies behind it (`raft_KV/src/raftCore/raft.cpp:91-94`), where
Figure 2 of the paper truncates, and an installed snapshot keeps the suffix without
comparing the boundary term (`raft_KV/src/raftCore/raft.cpp:452-456`).
`RaftNodeLaws.MergeRefinesPaper` says exactly when one merge yields the log of the
paper, and `RaftAgreement.CleanIsExact` that after a clean run a delivery leaves its
receiver a matching log if and only if it is clean.  `RaftTailKeptRun` plays a run of
five nodes, without snapshots, in which two logs share an entry and differ before it,
and later two nodes hand out different commands for index 1; `RaftStaleRuns` plays one
in which an installed snapshot breaks Log Matching.

**Key-value store.**  `SkipListModel.SkipList` is the linked structure with its
forward arrays; for every choice of random levels it acts as a map.  `KvStore` is
the apply path with its duplicate filter, and `KvReplicas` puts it on top of the
cluster: replicas that have applied the same number of commands hold equal maps.

**PVP games.**  `Gomoku` and `GomokuRoom` model one game for any board size,
`PvpStore` the two stores, `PvpService` and `PvpObject` the service whose writes
may fail or land without an answer.  `GomokuLaws` writes out the rules of the game
and `PvpLaws` what every call answers and writes.

**Wire parsers.**  `WebSocketFrame`, `WebSocketStream` and `WebSocketObject` model
the framing of sections 5.2 and 5.3 of RFC 6455 and the dispatch loop;
`HttpRequest`, `HttpParser`, `HttpRoundTrip` and `HttpObject` the request parser
(sections 2, 3, 5 and 6.2 of RFC 9112).  `WebSocketLaws` and `HttpText` tie both to
their texts: frames to bits and bytes, requests to lines, words, pairs and decimal
numbers.  The WebSocket loop gives the same result
however the bytes arrive.  The HTTP parser does so for every byte string that is not
refused in one piece; the context keeps no verdict between calls, so a connection that
goes on after a refusal can end otherwise, and the project says exactly when.

Where the code and its comments differ, the code is followed: an "Append"
overwrites like a "Put"; an AppendEntries that starts below the snapshot point
does not return early but meets the `matchLog` assertion; an outdated snapshot is
answered with the default term 0; a vote reply is counted whatever the node's
status, the only guard being the reply's term.

## Model

| member | source | states |
|---|---|---|
| RaftObject.Raft.constructor | raft_KV/src/raftCore/raft.cpp:988-1024 | a node with nothing persisted starts valid, as follower of term 0 with an empty log |
| RaftObject.Raft.GetSlicesIndex | raft_KV/src/raftCore/raft.cpp:750-759 | the slot found holds the entry of that log index, and both assertions hold for stored indices |
| RaftObject.Raft.GetLogTerm | raft_KV/src/raftCore/raft.cpp:729-744 | the term of any index from the snapshot point to the last one |
| RaftObject.Raft.RequestVote | raft_KV/src/raftCore/raft.cpp:611-683 | computes the vote handler, keeps the node valid and lowers none of its indices |
| RaftObject.Raft.DoElection | raft_KV/src/raftCore/raft.cpp:202-245 | one identical request per other peer and a tally of one; a leader does nothing |
| RaftObject.Raft.VoteReplied | raft_KV/src/raftCore/raft.cpp:783-824 | computes the vote reply handler on node and shared tally, and halts exactly when it does |
| RaftObject.Raft.Merge | raft_KV/src/raftCore/raft.cpp:65-96 | the entry-by-entry loop overwrites exactly the sent positions, or reports a same-term clash exactly when there is one |
| RaftObject.Raft.FastBackUp | raft_KV/src/raftCore/raft.cpp:126-139 | the back-up loop computes the hint of `RaftReplication.BackUpHint` |
| RaftObject.Raft.AppendEntries | raft_KV/src/raftCore/raft.cpp:8-153 | computes the AppendEntries handler, halts exactly when it does, keeps the node valid and lowers none of its indices |
| RaftObject.Raft.DoHeartBeat | raft_KV/src/raftCore/raft.cpp:247-311 | what each peer is sent: a snapshot thread or all entries behind its nextIndex; it halts exactly when a nextIndex is out of range |
| RaftObject.Raft.AppendReplied | raft_KV/src/raftCore/raft.cpp:846-921 | computes the append reply handler on node and shared round counter, and halts exactly when it does |
| RaftObject.Raft.Start | raft_KV/src/raftCore/raft.cpp:947-976 | a leader appends one entry of its term at the next index and answers with both; others refuse and change nothing |
| RaftObject.Raft.GetApplyLogs | raft_KV/src/raftCore/raft.cpp:361-382 | hands out exactly the committed entries not yet applied |
| RaftObject.Raft.Snapshot | raft_KV/src/raftCore/raft.cpp:1087-1122 | computes the compaction; last index and term of every kept index are unchanged |
| RaftObject.Raft.InstallSnapshot | raft_KV/src/raftCore/raft.cpp:420-476 | computes the installation and its answer, keeps the node valid and lowers none of its indices |
| RaftObject.Raft.SnapshotReplied | raft_KV/src/raftCore/raft.cpp:540-559 | computes the reply half of leaderSendSnapShot |
| RaftNodeLaws.RequestVoteAdvances | raft_KV/src/raftCore/raft.cpp:611-683 | the vote handler never halts, keeps stored entries contiguous and snapshot <= applied <= commit <= last, and lowers nothing |
| RaftNodeLaws.AppendEntriesAdvances | raft_KV/src/raftCore/raft.cpp:8-125 | the same for AppendEntries |
| RaftNodeLaws.SnapshotAdvances | raft_KV/src/raftCore/raft.cpp:420-476 | the same for InstallSnapshot and its reply handler |
| RaftHandlerLaws.VoteGranted | raft_KV/src/raftCore/raft.cpp:611-692 | a vote is granted if and only if the term is not over, the vote is free or already the candidate's, and the candidate's last term is larger, or equal with a last index at least as large |
| RaftHandlerLaws.VoteAnswered | raft_KV/src/raftCore/raft.cpp:611-683 | the answer carries the larger of both terms, which is the node's new term; a larger term makes it a follower with a free vote; a granted vote is remembered; nothing else moves |
| RaftHandlerLaws.ElectionStarts | raft_KV/src/raftCore/raft.cpp:202-245 | a node that does not lead becomes candidate of the next term, votes for itself and sends its last index and the term stored there |
| RaftHandlerLaws.VoteReplyCounts | raft_KV/src/raftCore/raft.cpp:783-824 | a larger term makes the node step down, a grant of its term is counted, the majority makes it leader with fresh peer indices, all other replies change nothing |
| RaftHandlerLaws.AppendOutcome | raft_KV/src/raftCore/raft.cpp:14-90 | a message is taken over if and only if its term is not over, the previous entry is stored with its term and no entry differs from one of its term; the process ends exactly below the snapshot point or on such a difference |
| RaftHandlerLaws.LogFollows | raft_KV/src/raftCore/raft.cpp:71-96 | whenever a message is taken over the sent entries stand at their indices and all others stay; otherwise the log stays |
| RaftHandlerLaws.CommitFollows | raft_KV/src/raftCore/raft.cpp:105-107 | whenever a message is taken over, empty ones included, commitIndex becomes the larger of its old value and the leader's, as far as the new log goes; otherwise it stays |
| RaftHandlerLaws.AppendRest | raft_KV/src/raftCore/raft.cpp:14-43 | a message of an older term changes nothing, any other makes the receiver a follower of its term, and the answer carries the receiver's term |
| RaftHandlerLaws.RefusalHint | raft_KV/src/raftCore/raft.cpp:50-139 | the hint of a refusal: none to an older term, one past the last index to a message beyond it, else where the run of entries of the term at prev starts |
| RaftHandlerLaws.BeatCarriesAll | raft_KV/src/raftCore/raft.cpp:247-298 | a peer is sent everything from its nextIndex on, with the entry before and its term |
| RaftHandlerLaws.AppendReplyMoves | raft_KV/src/raftCore/raft.cpp:846-893 | a larger term makes the leader step down, a refusal sets nextIndex to the hint, an acknowledgement raises matchIndex and sets nextIndex behind it |
| RaftHandlerLaws.LeaderCommits | raft_KV/src/raftCore/raft.cpp:894-914 | commitIndex rises exactly when a majority of the round has answered and the last entry acknowledged is of the current term |
| RaftHandlerLaws.StartAppends | raft_KV/src/raftCore/raft.cpp:947-965 | a leader's log grows by the command under its term and the next index |
| RaftHandlerLaws.ApplyHandsAll | raft_KV/src/raftCore/raft.cpp:361-382 | the commands handed out are those behind lastApplied up to commitIndex, each with its index |
| RaftHandlerLaws.SnapshotTaken | raft_KV/src/raftCore/raft.cpp:1087-1112 | which entries a compaction keeps and what it does to the indices |
| RaftHandlerLaws.SnapshotInstalled | raft_KV/src/raftCore/raft.cpp:420-463 | when a snapshot is installed, what it keeps of the log, where the indices go, and what the answer carries |
| RaftHandlerLaws.SnapshotReplyMoves | raft_KV/src/raftCore/raft.cpp:540-559 | the leader of the request's term takes the snapshot's index as matchIndex, or steps down to a larger term; others ignore the reply |
| RaftNodeLaws.MergeRefinesPaper | raft_KV/src/raftCore/raft.cpp:65-104 | the merge yields the truncate-and-append log of Figure 2 if and only if nothing conflicts or the message reaches the last index |
| RaftNodeLaws.MergeIsLocal | raft_KV/src/raftCore/raft.cpp:71-96 | in all cases the segment after prev becomes the sent entries and the rest of the log is untouched |
| RaftReplication.BackUpHint | raft_KV/src/raftCore/raft.cpp:132-139 | the hint skips only entries of the one term found at prev, and stops right behind an entry of another term |
| RaftNodeLaws.SnapshotCompacts | raft_KV/src/raftCore/raft.cpp:1087-1122 | an accepted Snapshot(index) drops exactly the entries up to index and remembers the term there |
| RaftNodeLaws.CompactionLast | raft_KV/src/raftCore/raft.cpp:694-704 | compaction leaves last index and last term unchanged |
| RaftNodeLaws.CompactionTerm | raft_KV/src/raftCore/raft.cpp:729-744 | compaction leaves the term of every index from the new snapshot point on unchanged |
| RaftNodeLaws.CompactedVote | raft_KV/src/raftCore/raft.cpp:611-692 | a compacted node answers every vote request as the uncompacted one, and stays its compaction |
| RaftNodeLaws.CompactedAppend | raft_KV/src/raftCore/raft.cpp:50-153 | a compacted node matches, merges and commits every AppendEntries at or above the snapshot point as the uncompacted one |
| RaftNodeLaws.CompactedBeat | raft_KV/src/raftCore/raft.cpp:269-298 | a compacted leader sends peers above the snapshot point the same previous entry and entries |
| RaftReplication.NextKeepsInv | raft_KV/src/raftCore/raft.cpp:8-985 | every step of the cluster keeps the invariant, touches one server only and lets history only grow |
| RaftTheorems.RunInv | raft_KV/src/raftCore/raft.cpp:8-985 | every state of every run satisfies the invariant |
| RaftTheorems.EnabledStepsHappen | raft_KV/src/raftCore/raft.cpp:8-985 | no step a handler allows is shut out by a typing condition of the model |
| RaftTheorems.ElectionSafety | raft_KV/src/raftCore/raft.cpp:202-245 | in any run, at any two moments, two leaders of one term are the same server |
| RaftElection.MajorityIsFirst | raft_KV/src/raftCore/raft.cpp:800-812 | when a tally reaches a majority the term has no leader yet: the reset tally never does so twice |
| RaftTheorems.LeaderAppendOnly | raft_KV/src/raftCore/raft.cpp:947-965 | while a server leads a term its full log only extends |
| RaftTheorems.EntryIdentity | raft_KV/src/raftCore/raft.cpp:71-90 | over a whole run index and term fix the command, in every log and every message under way |
| RaftReplication.NoClash | raft_KV/src/raftCore/raft.cpp:81-90 | the same-term-different-command assertion never fires |
| RaftTheorems.HaltsOnlyOnStaleMessage | raft_KV/src/raftCore/raft.cpp:53-65 | a process ends if and only if it takes a message of its or a later term that starts below its snapshot point; all other assertions hold in every run |
| RaftStaleRuns.StaleMessageHalts | raft_KV/src/raftCore/raft.cpp:591-594 | a run of five nodes in which a process ends so: a message of the current leader is delayed until its receiver has applied and compacted what it starts with |
| RaftProgress.NodesAdvance | raft_KV/src/raftCore/raft.cpp:8-125 | over any run term, commitIndex, lastApplied and last index never fall and entries stay contiguous |
| RaftProgress.CommitQuorum | raft_KV/src/raftCore/raft.cpp:846-921 | whenever a leader raises commitIndex to L, a majority including it has acknowledged L in its current term and entry L carries that term |
| RaftProgress.AckWasAccepted | raft_KV/src/raftCore/raft.cpp:98-117 | every acknowledgement was at some earlier step the leader's own heartbeat, or the delivery of a message of that term that ends at that index, after which the receiver holds the message's segment of the leader's log |
| RaftAgreement.AckHeldWhole | raft_KV/src/raftCore/raft.cpp:98-117 | in clean runs it was the possession of the whole leader log up to that index |
| RaftProgress.NextIndexBounds | raft_KV/src/raftCore/raft.cpp:257-299 | while a server leads, 1 <= nextIndex <= last + 1 for every peer, despite stale replies |
| RaftProgress.RefusalLowersNextIndex | raft_KV/src/raftCore/raft.cpp:869-893 | a refusal of the current probe strictly lowers nextIndex and never below 1, so probing ends |
| RaftProgress.StepHandsOut | raft_KV/src/raftCore/raft.cpp:361-382 | a step hands out consecutive committed commands as the log has them, and lastApplied moves without handing out only where a snapshot is installed or compaction goes beyond it |
| RaftProgress.ApplyStream | raft_KV/src/raftCore/raft.cpp:361-382 | over any run handed-out commands are never taken back, their indices strictly rise and stay at or below commitIndex |
| RaftProgress.GaplessApply | raft_KV/src/raftCore/raft.cpp:1087-1112 | without installation, and with compaction of applied indices only, exactly the indices 1..lastApplied have been handed out |
| RaftSafeRuns.NextKeepsSafe | raft_KV/src/raftCore/raft.cpp:65-112 | every clean step, installed snapshots included, keeps the matching and completeness invariant |
| RaftSafeSnapshots.CleanInstall | raft_KV/src/raftCore/raft.cpp:450-460 | a clean installation replaces a log no longer than the snapshot, or changes no entry |
| RaftSafety.LeaderCompleteness | raft_KV/src/raftCore/raft.cpp:643-692 | in every state that satisfies both invariants, what a majority acknowledged in a term is in the log of every later leader from its election on, also when a snapshot was installed over a candidate's log |
| RaftAgreement.LogMatching | raft_KV/src/raftCore/raft.cpp:65-96 | in clean runs, logs that share an entry of equal index and term, at any two moments, agree on it and all earlier entries |
| RaftAgreement.CleanIsExact | raft_KV/src/raftCore/raft.cpp:91-94 | after any clean run, the delivery of an AppendEntries or of a snapshot, accepted or not, leaves its receiver a log that matches the logs of its entries' leaders if and only if the delivery is clean |
| RaftAgreement.LeadersHoldCommitted | raft_KV/src/raftCore/raft.cpp:894-914 | in clean runs every leader's log begins with all that was committed in its or an earlier term |
| RaftAgreement.CommittedForever | raft_KV/src/raftCore/raft.cpp:105-112 | in clean runs two servers agree on every entry both have committed, whenever they did |
| RaftAgreement.RunKeepsCommitted | raft_KV/src/raftCore/raft.cpp:65-104 | over a clean run what a server has committed stays in its log |
| RaftAgreement.StepKeepsCommitted | raft_KV/src/raftCore/raft.cpp:65-104 | a clean step changes no committed entry |
| RaftAgreement.StateMachineSafety | raft_KV/src/raftCore/raft.cpp:361-382 | in clean runs no two servers ever hand out different commands for one index |
| RaftTailKeptRun.LogMatchingCanFail | raft_KV/src/raftCore/raft.cpp:91-94 | a run of five nodes without snapshots in which Log Matching fails because a tail was kept |
| RaftTailKeptRun.StateMachineSafetyCanFail | raft_KV/src/raftCore/raft.cpp:91-94 | its continuation, in which two nodes hand out different commands for index 1 |
| RaftStaleRuns.SnapshotCanBreakMatching | raft_KV/src/raftCore/raft.cpp:452-456 | a run of five nodes whose last step installs a snapshot below a suffix of an older term, after which Log Matching fails |
| SkipOrder.LessTotal | raft_KV/src/skipList/include/skipList.h:185 | the string order of the keys is total (with LessTransitive and LessStrict: a strict total order) |
| SkipOrder.LessIsLexicographic | raft_KV/src/skipList/include/skipList.h:185 | a key is less if and only if it is a proper prefix or has the smaller character at the first place where they differ |
| SkipOrder.InsertedLink | raft_KV/src/skipList/include/skipList.h:219-222 | inserting a node changes exactly the links that cross it on its levels |
| SkipOrder.SubChain | raft_KV/src/skipList/include/skipList.h:153-171 | each level is the sub-chain of the level below made of the nodes that reach it |
| SkipListModel.SkipList.constructor | raft_KV/src/skipList/include/skipList.h:434-444 | an empty list stands for the empty map |
| SkipListModel.SkipList.Size | raft_KV/src/skipList/include/skipList.h:304-307 | the element count is the size of the map |
| SkipListModel.SkipList.GetRandomLevel | raft_KV/src/skipList/include/skipList.h:469-477 | the level drawn never exceeds the maximum, so header and update accesses stay in bounds |
| SkipListModel.SkipList.SearchElement | raft_KV/src/skipList/include/skipList.h:401-425 | finds a key exactly when the map has it, with the map's value |
| SkipListModel.SkipList.InsertElement | raft_KV/src/skipList/include/skipList.h:173-228 | adds the pair unless the key is there, for every random level; all levels stay sorted chains |
| SkipListModel.SkipList.DeleteElement | raft_KV/src/skipList/include/skipList.h:330-366 | removes exactly the key and trims levels that fall empty |
| SkipListModel.SkipList.InsertSetElement | raft_KV/src/skipList/include/skipList.h:373-380 | acts as an update of the map |
| SkipListModel.SkipList.DisplayLevel | raft_KV/src/skipList/include/skipList.h:231-244 | the nodes on a level are those that reach it, in strictly rising key order |
| SkipListModel.SkipList.DumpFile | raft_KV/src/skipList/include/skipList.h:249-268 | level 0 lists every pair of the map once, in key order |
| KvStore.StepExactly | raft_KV/src/raftCore/kvServer.cpp:166-198 | a "Put" or "Append" whose id exceeds the one recorded for its client sets its key and records the id; every other command changes nothing |
| KvStore.ExecutedExactly | raft_KV/src/raftCore/kvServer.cpp:180-189 | a command is executed if and only if it is a "Put" or "Append" whose id exceeds those of all earlier ones of its client |
| KvStore.FoldExactly | raft_KV/src/raftCore/kvServer.cpp:166-198 | after a sequence of commands the next one changes the store exactly when it is such a command |
| KvStore.AtMostOnce | raft_KV/src/raftCore/kvServer.cpp:166-207 | the ids of a client's executed writes strictly rise, so no request changes the map twice |
| KvStore.StoredIsLast | raft_KV/src/raftCore/kvServer.cpp:20-34 | the map holds for each key the value of its last executed write and no other keys |
| KvStore.KvServer.GetCommandFromRaft | raft_KV/src/raftCore/kvServer.cpp:166-198 | the apply path on the skip list is one step of the map model, for every random level |
| KvStore.KvServer.ExecuteGet | raft_KV/src/raftCore/kvServer.cpp:41-64 | reads the map and records the request id |
| KvStore.KvServer.ApplyAll | raft_KV/src/raftCore/kvServer.cpp:281-297 | the map after a sequence of commands is the fold of the commands, whatever the levels |
| KvReplicas.ReplicasAgree | raft_KV/src/raftCore/kvServer.cpp:166-207 | in clean runs, replicas that have applied the same number of commands hold equal maps and request ids, whenever they got there |
| KvReplicas.EqualApplied | raft_KV/src/raftCore/kvServer.cpp:166-207 | two servers of one state with equal lastApplied have equal stores |
| Gomoku.WinIsFullScan | HTTPServer/WebApps/GomokuServer/src/GameRoom.cpp:18-58 | an accepted move ends the game with five_in_row if and only if the new board holds five aligned stones of either colour anywhere |
| Gomoku.MoveFair | HTTPServer/WebApps/GomokuServer/src/GameRoom.cpp:18-58 | moves keep: moveCount counts the stones, their difference tells whose turn it is, an unfinished game has no five, a draw is a full board without five |
| Gomoku.PlayFair | HTTPServer/WebApps/GomokuServer/src/GameRoom.cpp:18-67 | every room reached from a new one with distinct players by moves and forfeits satisfies this |
| Gomoku.MoveChanges | HTTPServer/WebApps/GomokuServer/src/GameRoom.cpp:22-35 | an accepted move changes one empty place to the mover's colour; a refused one changes nothing |
| GomokuLaws.FiveMeans | HTTPServer/WebApps/GomokuServer/src/GameRoom.cpp:70-100 | five aligned stones are five places in a line along a side or a diagonal, each on the board and of the colour |
| GomokuLaws.MoveCodes | HTTPServer/WebApps/GomokuServer/src/GameRoom.cpp:22-29 | each of the codes 0, -1, -2 and -3 is given exactly when the place, the turn or the end of the game calls for it |
| GomokuLaws.MovePlaces | HTTPServer/WebApps/GomokuServer/src/GameRoom.cpp:31-35 | the first player plays black, the second white; the move is counted and remembered |
| GomokuLaws.MoveEnds | HTTPServer/WebApps/GomokuServer/src/GameRoom.cpp:38-58 | after an accepted move the game is won by the mover exactly with five aligned stones, drawn exactly with a full board without them, and otherwise goes on with the other's turn |
| GomokuLaws.ForfeitEnds | HTTPServer/WebApps/GomokuServer/src/GameRoom.cpp:61-67 | a forfeit ends the game for the given winner and touches nothing else |
| GomokuLaws.SnapshotFields | HTTPServer/WebApps/GomokuServer/src/GameRoom.cpp:121-138 | a snapshot document holds every field of the room under its name |
| GomokuLaws.SnapshotPlaces | HTTPServer/WebApps/GomokuServer/src/GameRoom.cpp:121-138 | its board names every place by its stone: empty, black or white |
| GomokuRoom.RunsDecide | HTTPServer/WebApps/GomokuServer/src/GameRoom.cpp:77-97 | two runs of at most four make five exactly when five aligned stones go through the place |
| GomokuRoom.GameRoom.CheckWin | HTTPServer/WebApps/GomokuServer/src/GameRoom.cpp:70-100 | the counting loops decide whether five aligned stones go through the place |
| GomokuRoom.GameRoom.MakeMove | HTTPServer/WebApps/GomokuServer/src/GameRoom.cpp:18-58 | computes the move and its code |
| GomokuRoom.SnapshotReadsBack | HTTPServer/WebApps/GomokuServer/src/GameRoom.cpp:121-156 | a room restored from its snapshot is the room |
| PvpStore.KeysDistinct | HTTPServer/WebApps/GomokuServer/src/PvpGameService.cpp:139-154 | records of different rooms, the active list and the next id never share a key |
| PvpStore.MemoryGameStateStore.Replace | HTTPServer/WebApps/GomokuServer/include/GameStateStore.h:47-62 | writes all records or none, and when it fails |
| PvpLaws.PutAllWrites | HTTPServer/WebApps/GomokuServer/include/GameStateStore.h:57-60 | the value written under a key is that of the last record with the key |
| PvpLaws.PutAllKeeps | HTTPServer/WebApps/GomokuServer/include/GameStateStore.h:57-60 | keys without a record keep what they hold |
| PvpStore.RaftGameStateStore.LoadKey | HTTPServer/WebApps/GomokuServer/src/RaftGameStateStore.cpp:27-45 | loads as the map store of the envelope's fields does; a broken envelope is unavailable |
| PvpStore.RaftGameStateStore.Replace | HTTPServer/WebApps/GomokuServer/src/RaftGameStateStore.cpp:47-79 | one read and one write of the envelope make the atomic replace of the map store, including failed and unseen writes |
| PvpService.CreateRoomKeeps | HTTPServer/WebApps/GomokuServer/src/PvpGameService.cpp:12-36 | createRoom keeps the indexes consistent; a room it writes is new and gets the next id; an Ok answer is what is stored |
| PvpService.MoveRoomKeeps | HTTPServer/WebApps/GomokuServer/src/PvpGameService.cpp:44-83 | move keeps the indexes consistent, touches no other room, and an Ok answer is what is stored |
| PvpService.FinishRoomKeeps | HTTPServer/WebApps/GomokuServer/src/PvpGameService.cpp:85-114 | the same for finish |
| PvpService.AlwaysConsistent | HTTPServer/WebApps/GomokuServer/src/PvpGameService.cpp:12-114 | in every run with any faults the active list holds exactly the stored rooms that are not over, each once, and every stored id is below the next |
| PvpService.IdsNeverReused | HTTPServer/WebApps/GomokuServer/src/PvpGameService.cpp:16-32 | rooms created later, answered or not, get larger ids that were never stored before |
| PvpService.RecoveryIsExact | HTTPServer/WebApps/GomokuServer/src/PvpGameService.cpp:116-137 | recovery with successful reads returns exactly the unfinished rooms, each once |
| PvpLaws.CreateRoomIs | HTTPServer/WebApps/GomokuServer/src/PvpGameService.cpp:12-36 | createRoom answers Ok with the new room exactly when its reads succeed and its write is seen, else Unavailable, and writes the room, the active list and the next id exactly when the write lands |
| PvpLaws.LoadRoomIs | HTTPServer/WebApps/GomokuServer/src/PvpGameService.cpp:156-162 | a room is Ok, not found or unavailable exactly when it is stored, is not, or cannot be read |
| PvpLaws.UnreadRoom | HTTPServer/WebApps/GomokuServer/src/PvpGameService.cpp:44-58 | move and finish of a room that cannot be read, is not stored or is no room answer so and write nothing |
| PvpLaws.MoveRoomIs | HTTPServer/WebApps/GomokuServer/src/PvpGameService.cpp:60-63 | move is refused with each reason exactly when the room refuses it so, and then writes nothing |
| PvpLaws.MoveRoomWrites | HTTPServer/WebApps/GomokuServer/src/PvpGameService.cpp:65-82 | an accepted move answers Ok exactly when its write is seen, and writes the new room, with the active list when the game is over, exactly when it lands |
| PvpLaws.FinishRoomIs | HTTPServer/WebApps/GomokuServer/src/PvpGameService.cpp:85-114 | finish ends a running game for the given winner, leaves the result of a finished one, and answers Ok exactly when the active list is read and its write is seen |
| PvpLaws.KeysAre | HTTPServer/WebApps/GomokuServer/src/PvpGameService.cpp:139-154 | the text of the keys |
| PvpObject.PvpGameService.CreateRoom | HTTPServer/WebApps/GomokuServer/src/PvpGameService.cpp:12-36 | the step-by-step service over the envelope store computes createRoom and keeps it consistent |
| PvpObject.PvpGameService.Move | HTTPServer/WebApps/GomokuServer/src/PvpGameService.cpp:44-83 | the same for move, through a restored room object |
| PvpObject.PvpGameService.Finish | HTTPServer/WebApps/GomokuServer/src/PvpGameService.cpp:85-114 | the same for finish |
| PvpObject.PvpGameService.EraseId | HTTPServer/WebApps/GomokuServer/src/PvpGameService.cpp:77-78 | the erase-remove scan drops exactly the entries equal to the id (see WithoutIs) |
| PvpObject.PvpGameService.RecoverActiveRooms | HTTPServer/WebApps/GomokuServer/src/PvpGameService.cpp:116-137 | the recovery loop skips rooms whose reads fail and returns nothing when the list cannot be read |
| WebSocketFrame.CreatedFrameArrives | HTTPServer/HttpServer/src/websocket/WebSocketFrame.cpp:86-163 | parsing an encoded created frame, masked or not, in all three length forms and with any bytes behind it, recovers fin, opcode and payload and takes exactly its bytes |
| WebSocketFrame.EncodeParses | HTTPServer/HttpServer/src/websocket/WebSocketFrame.cpp:15-83 | the same for every frame, fin set or not |
| WebSocketFrame.MaskedTwice | HTTPServer/HttpServer/src/websocket/WebSocketFrame.cpp:70-77 | masking twice with one key is the identity |
| WebSocketFrame.ReadsBackBE | HTTPServer/HttpServer/src/websocket/WebSocketFrame.cpp:142-151 | extended lengths in network byte order read back |
| WebSocketFrame.ParseStable | HTTPServer/HttpServer/src/websocket/WebSocketFrame.cpp:15-83 | bytes behind a complete frame do not change it |
| WebSocketLaws.XorBits | HTTPServer/HttpServer/src/websocket/WebSocketFrame.cpp:70-77 | a bit of the combined number is set if and only if it differs in the two |
| WebSocketLaws.MaskedBits | HTTPServer/HttpServer/src/websocket/WebSocketFrame.cpp:70-77 | so it is with every bit of every masked byte and byte i mod 4 of the key |
| WebSocketLaws.MaskedHello | HTTPServer/HttpServer/src/websocket/WebSocketFrame.cpp:15-83 | the masked frame 81 85 37 fa 21 3d 7f 9f 4d 51 58 parses to the text "Hello" |
| WebSocketLaws.ParsesWhenWhole | HTTPServer/HttpServer/src/websocket/WebSocketFrame.cpp:15-68 | a frame parses if and only if its two bytes, its extended length, its key and its payload are there |
| WebSocketLaws.ParsedMeans | HTTPServer/HttpServer/src/websocket/WebSocketFrame.cpp:15-83 | what the bits of the first two bytes, the length, the key and the payload of a parsed frame are |
| WebSocketLaws.LongFrame | HTTPServer/HttpServer/src/websocket/WebSocketFrame.cpp:33-40 | a frame of 256 bytes announces its length in two bytes |
| WebSocketLaws.EncodedMeans | HTTPServer/HttpServer/src/websocket/WebSocketFrame.cpp:122-163 | the bytes of an encoded frame: the shortest of the three length forms in network byte order, the key when there is one, the payload |
| WebSocketStream.SplitIsIrrelevant | HTTPServer/HttpServer/src/websocket/WebSocketServer.cpp:117-167 | for every byte string and every split into arrivals the same frames are dispatched and the same bytes are left |
| WebSocketStream.Streaming | HTTPServer/HttpServer/src/websocket/WebSocketServer.cpp:117-167 | for every list of frames and every split of their bytes, the frames up to the first Close are dispatched in order and exactly their bytes are taken |
| WebSocketStream.PingIsAnswered | HTTPServer/HttpServer/src/websocket/WebSocketServer.cpp:139-147 | the pong sent for a ping parses to its payload |
| WebSocketLaws.DispatchIs | HTTPServer/HttpServer/src/websocket/WebSocketServer.cpp:128-167 | what each opcode makes the server call and send, byte by byte |
| WebSocketObject.ApplyMask | HTTPServer/HttpServer/src/websocket/WebSocketFrame.cpp:105-110 | the in-place loop computes the masked payload |
| WebSocketObject.Parse | HTTPServer/HttpServer/src/websocket/WebSocketFrame.cpp:15-83 | the offset-stepping parser computes the frame, or reports that bytes are missing exactly when they are |
| WebSocketObject.EncodeToString | HTTPServer/HttpServer/src/websocket/WebSocketFrame.cpp:122-163 | computes the wire form |
| WebSocketObject.WebSocketContext.ParseFrom | HTTPServer/HttpServer/src/websocket/WebSocketContext.cpp:15-58 | the byte count worked out again from the header is what the frame takes; Close moves the state to Closing |
| WebSocketObject.WebSocketServer.ProcessFrame | HTTPServer/HttpServer/src/websocket/WebSocketServer.cpp:100-168 | the loop drains the buffer as the stream model does and touches no other connection |
| HttpParser.TurnStable | HTTPServer/HttpServer/src/http/HttpContext.cpp:14-113 | a turn that has its bytes does the same when more are queued behind |
| HttpParser.SplitIsExact | HTTPServer/HttpServer/src/http/HttpContext.cpp:10-116 | from a fresh context, a split of a byte string into calls gives the verdict, request and unread bytes of one call if and only if no call but the last refused a header line, or refused a request line after reading its method |
| HttpParser.SplitIsIrrelevant | HTTPServer/HttpServer/src/http/HttpContext.cpp:10-116 | every byte string that one call does not refuse is read alike however it is split |
| HttpParser.AbortsExactly | HTTPServer/HttpServer/src/http/HttpRequest.cpp:11-13 | the assertion of setMethod fails if and only if a request line was refused after its method had been read and another call follows |
| HttpRoundTrip.RefusedRequestCompletes | HTTPServer/HttpServer/src/http/HttpContext.cpp:83-88 | a request refused for a bad header line is completed by the call that brings the empty line, while one call refuses it |
| HttpRoundTrip.BadHeaderExample | HTTPServer/HttpServer/src/http/HttpContext.cpp:83-88 | the smallest such input |
| HttpRoundTrip.RefusedVersionAborts | HTTPServer/HttpServer/src/http/HttpContext.cpp:119-162 | after a request line refused for its version, the next call fails the assertion of setMethod whatever it brings |
| HttpRoundTrip.WrongVersionExample | HTTPServer/HttpServer/src/http/HttpContext.cpp:119-162 | the smallest such input |
| HttpRoundTrip.MessageReads | HTTPServer/HttpServer/src/http/HttpContext.cpp:10-162 | every well-formed request text, its parameters and header fields given as pairs, is read as it was meant and not a byte more is taken |
| HttpRoundTrip.MessageArrives | HTTPServer/HttpServer/src/http/HttpContext.cpp:10-162 | the same however its bytes arrive |
| HttpRequest.CrlfStable | HTTPServer/HttpServer/src/http/HttpContext.cpp:18-40 | bytes that arrive behind a CRLF do not move the first one |
| HttpText.LineEndsAt | HTTPServer/HttpServer/src/http/HttpContext.cpp:18-40 | a line without CRLF ends at the CRLF behind it |
| HttpText.MethodsAreFive | HTTPServer/HttpServer/src/http/HttpRequest.cpp:11-41 | five methods are known, by their names |
| HttpText.RequestLineExactly | HTTPServer/HttpServer/src/http/HttpContext.cpp:119-162 | a request line is accepted if and only if it is a known method, a target and HTTP/1.0 or HTTP/1.1 with single spaces between |
| HttpText.TargetReads | HTTPServer/HttpServer/src/http/HttpContext.cpp:130-139 | the part before the first question mark is the path, the part behind it the query |
| HttpText.QueryReads | HTTPServer/HttpServer/src/http/HttpRequest.cpp:74-106 | the text of a list of parameters is read as its pairs, later ones winning; parameters without an equals sign are dropped |
| HttpText.FieldReads | HTTPServer/HttpServer/src/http/HttpRequest.cpp:108-122 | a header line is read as its name and its value without surrounding white space |
| HttpText.StoiReads | HTTPServer/HttpServer/src/http/HttpContext.cpp:55-58 | white space, a sign and the decimal text of a number are read as that number, and throw beyond 32 bits |
| HttpText.StoiThrows | HTTPServer/HttpServer/src/http/HttpContext.cpp:55-58 | without a digit there it throws |
| HttpRoundTrip.HeaderLineIs | HTTPServer/HttpServer/src/http/HttpContext.cpp:38-94 | a line with a colon is a header, an empty one ends them, any other is refused and taken |
| HttpRoundTrip.HeadersEnd | HTTPServer/HttpServer/src/http/HttpContext.cpp:48-82 | whether a body follows, is missing its length, or is not read, by method and Content-Length |
| HttpObject.HttpRequest.SetQueryParameters | HTTPServer/HttpServer/src/http/HttpRequest.cpp:74-106 | the splitting loop computes the query map |
| HttpObject.HttpRequest.SetHeader | HTTPServer/HttpServer/src/http/HttpRequest.cpp:108-122 | the trimming loops store the field value without surrounding white space |
| HttpObject.HttpContext.ProcessRequestLine | HTTPServer/HttpServer/src/http/HttpContext.cpp:119-162 | computes the request line, keeping what was read before a failure, and aborts exactly when a method had been read before |
| HttpObject.HttpContext.ParseRequest | HTTPServer/HttpServer/src/http/HttpContext.cpp:10-116 | from every context that has not got all yet, refused ones included, the loop ends and computes one call of the parser |

## Left out

- The RPC channel, provider, sockets, fibers, threads and protobuf code: calls become the request and answer threads of the cluster; a request is delivered at most once.
- Election and heartbeat timers: elections and heartbeats fire at any moment.
- Persistence and restart: the persister wipes its files, so crashes are for good.
- A cluster of one node: no reply ever triggers election or commit there.
- The moments before `Raft::init` has run.
- 32-bit overflow of terms, indices, counters, request ids and room ids.
- The VoteState and AppState fields of replies, which no handler decision on a delivered reply depends on.
- `leaderUpdateCommitIndex`, which is never called, and `CondInstallSnapshot`, which is constant.
- RaftObject.Raft.AppendEntries: is stated for messages whose entries are numbered consecutively after prevlogindex, as every leader builds them (an invariant of the cluster).
- RaftAgreement.StateMachineSafety: is claimed for clean runs only, because RaftTailKeptRun shows it false otherwise; runs with an unclean installation are outside it, for Log Matching fails in them (RaftStaleRuns.SnapshotCanBreakMatching).
- RaftAgreement.LogMatching: is claimed for clean runs only, because RaftTailKeptRun and RaftStaleRuns show it false otherwise.
- KvReplicas.ReplicasAgree: is stated for runs that install no snapshot, where replicas get their state from commands alone.
- KvStore.AtMostOnce: speaks of the apply path; the Get RPC also writes the last request id, so it is not part of a command sequence.
- The wait channels and deadlines of Get and PutAppend, and the Clerk.
- Snapshots of the key-value server: messages that install one race with commands in the channel.
- Loading a skip-list dump, which puts keys in the place of values.
- Freeing nodes: a deleted skip-list node is unlinked, its memory is not modelled.
- Snapshot documents that name other cells than the three of a board are refused here; the code would keep the names.
- The text of JSON documents: writing and parsing are taken to be inverse.
- PvpService.CreateRoomKeeps: covers stores that this service wrote; foreign records under its keys are not considered.
- WebSocket payload lengths whose sum with the header wraps 64 bits; handlers that call back into the server while a frame is dispatched.
- The handshake of WebSocket connections and its key.
- HttpContext after reset, where body and content length are not exchanged: the parser theorems speak of a fresh context, and bytes behind a complete request only queue up.
- A build that disables assertions, in which setMethod reads the method of a refused line anew.
- The receive time of a request, and white space beyond the six ASCII characters of isspace.
- Sessions, CORS, TLS, the database, the router, chat, matchmaking, the computer player and the pages.
