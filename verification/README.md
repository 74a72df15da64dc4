# CQUPT_Raft: a verified model

CQUPT_Raft is a replicated key-value store: a Raft implementation with static membership, log compaction,
InstallSnapshot, a segmented on-disk log and a text command format. This project models its consensus protocol, its
compacted log and apply loop, its storage and its codecs, and proves what they guarantee over every input and every run.
`dafny verify dfyconfig.toml` checks everything.

## How the model is built

- **Protocol** (`RaftLog`, `Protocol`, `Cluster`). A node is a value, each handler (which runs under the node's mutex) is a
  function from the old node to the new node and the reply, and the cluster is a state machine of 18 kinds of step:
  timeouts, every message delivery, wins, proposals, sends, commit advances, the three sections of an incoming snapshot, local
  snapshots and compaction, and crashes. The network is a set of messages that only grows, so messages may be
  lost, delayed, duplicated and reordered. Every persist has an outcome: it succeeds, it fails with the disk unchanged, or it fails
  although the new state did reach the disk; the code's rollbacks follow. The log here is uncompacted.
- **Safety** (`Invariant`, `Frame`, the `Step*` modules, `Safety`, `MatchIndex`, `AllRuns`), and where it ends (`Script`,
  `Counterexample`, `MatchRun`, `Exactness`, `MetaLoss`, `LateSend`, `LateRun`): concrete runs, and the equivalences they decide.
- **Reactions** (`Reactions`, `Elections`, `Restarts`): what a node does with every message, what failed persists and restarts leave, and who can be
  elected, stated on the cluster's steps. `Progress`: a majority can always commit.
- **Replication** (`Backtracking`, `Exchange`, `CatchUp`, `StuckRun`): how a leader finds the point where a follower's log leaves its
  own, and when rounds of requests and replies bring the follower up to date.
- **The node object** (`CompactLog`, `RaftServer`). A class with the source's fields, its compacted `log_` and its loops. A ghost
  field holds the uncompacted log, and the handlers for votes, appends and snapshots, their replies, and the restart are proved
  to act on the object's abstract value exactly as the Protocol functions do, so the theorems about the cluster speak about this
  object. Publishing a snapshot file is the part of `SnapshotCatalog`. `Recovery` says when a restart is right.
- **The maps** (`Command`, `Validation`, `KvStore`, `Replica`, `KvRuns`). The state machine object, its snapshot file, and the maps of
  the whole cluster running beside the protocol. The theorems of `Replica` hold for any deterministic state machine.
- **The disk** (`Bytes`, `SegmentCodec`, `Segments`, `SegmentTree`, `RaftStorage`, `SnapshotCatalog`). Files are byte
  strings (a char stands for a byte), directories are maps, and a save is the sequence of directory states after each operation.
  Checksums are arbitrary functions.

## What is true, and what is not

- Election safety and log matching hold in every run, whichever persists fail (`AllRuns`), as long as a restart finds the last
  complete or the attempted state. A crash between the removal of meta.bin and the publication of the new one leaves no state:
  the node forgets its vote and can give it twice. With that crash both properties fail, without it they hold
  (`MetaLoss.ElectionSafetyIff`, `MetaLoss.LogMatchingIff`).
- State machine safety, leader completeness and the rest of `Safety` hold in every run in which no raised term is lost: the persist
  inside `BecomeFollowerLocked` may report a failure, but the raised term must have reached the disk. All other persists may fail
  in either way. The condition is exact for each of the five properties (`Exactness`): when the write is lost, the raised term stays in
  memory only (raft_node.cpp:880-888), the rejection the node sends lowers the leader's next index, and after a crash the node can accept a
  record of an older leader below that index. The follower's commit rule (`min(leader_commit, LastLogIndex)`) then commits that
  record, and the next append cuts it again. `Counterexample.Violation` and `Counterexample.Cut` are such a run of five nodes
  with commands inside the default limits; `MatchRun.Mismatch` breaks the match index with a snapshot.
- The cluster never gets stuck for good in these runs: whatever has happened, any majority can elect one of its nodes and commit a command on all
  of its nodes (`Progress.CanCommit`). The run begins with a restart if the node to be elected already leads, and no persist fails in it.
- A refused snapshot can stall replication. The leader sets its next index behind the follower's last record without comparing it
  with its own log (raft_node.cpp:1260-1270). If that is past the end of its log, it has no previous record to send and
  turns to snapshots again, and a successful one does not lower the index. In every reachable state, rounds with nothing else happening bring a
  peer up to date if and only if the next index is not past the end of the log, or the log ends at the marker
  (`CatchUp.CatchUpIff`); `StuckRun.NeverCatchesUp` is a reachable state, every persist having succeeded, from which they never do. A leader whose log
  grows far enough leaves it.
- `SendInstallSnapshotToPeer` reads term and marker under the lock and the catalog later without it. A node that has moved to a newer
  term in between can send a newer snapshot under its old term, and the receiver then commits records its own term's leader never had.
  The two properties stated in terms of a node's own term hold if and only if that does not happen (`LateRun.FollowerCommitsIff`,
  `LateRun.LeaderCompletenessIff`). Election safety and log matching hold all the same (`LateSend.LateStillMatches`).
- A `Set` with an empty value passes validation but its text is refused by every replica, and it is the only such command. Once
  one is committed no node applies anything from that index on, and a restart fails (`Validation.EmptyValueBlocks`,
  `Replica.RefusedBlocksEveryone`, `Replica.RecoveryIsReplay`).
- `OnInstallSnapshot` compares the snapshot with the marker and not with `last_applied_`, and loads the map before it checks the
  term. In a run without lost terms the maps are right all the time if and only if every installed snapshot is not behind `last_applied_` or
  holds the same map, and every snapshot that is loaded and then refused holds the same map (`Replica.MapsRightIff`). Runs that
  break it are reachable with every persist succeeding (`KvRuns.OldInstall`, `KvRuns.RefusedLoad`), so none of the three conditions of
  `Replica`'s theorems can be dropped (`KvRuns.MapIsReplayIff`, `KvRuns.ReplicasAgreeIff`, `KvRuns.RecoveryIff`).
- A start whose newest loadable snapshot is older than the log's marker jumps `last_applied_` to the marker and leaves the records in
  between unapplied. `RaftServer.RaftNode.Recover` says exactly what every start leaves, and `Recovery.RecoveryRightIff` that it is
  right for every stored state if and only if the snapshot is not behind the marker.
- The writer accepts commands up to 4 GiB, the reader refuses more than 64 MiB (`RaftStorage.SaveLoadRoundTrip`, an equivalence).
- A crash after the old meta.bin was removed loses the state; a crash between the two publications of a save that compacted the log
  leaves a directory that does not load (`RaftStorage.CrashPoints`, `RaftStorage.CompactionCrash`). The same over any sequence of cut-short saves from an empty
  directory: what loads is the last completed save's meta over the log of that save or of one later attempt (`RaftStorage.AnySaves`).
- Damage in the last segment costs the records from there on; damage in an earlier segment makes the whole state unreadable, since the
  segments after it are dropped and meta.bin still announces them (`RaftStorage.DamageAnywhere`).
- After a torn tail was truncated, a second load with the same meta is refused (`RaftStorage.SecondLoadRefused`).
- The comment at raft_storage.cpp:880-882 names two layouts a crash during the publication can leave. There are two more, a
  missing log directory and a missing meta.bin; the model follows the code (`RaftStorage.AfterCrash`).

## Model

| member | source | states |
|---|---|---|
| `AllRuns.ElectionSafety` | modules/raft/node/raft_node.cpp:663-796 | in every run, with any persist failures and restarts, two leaders of one term, at any two times, are the same node |
| `AllRuns.LogMatching` | modules/raft/node/raft_node.cpp:1363-1448 | in every run, two logs with the same term at an index are equal up to that index, and terms never decrease |
| `AllRuns.AnyStep` | modules/raft/node/raft_node.cpp:1281-1491 | every step, with any persist outcome, keeps votes remembered on disk, logs built by term leaders, and requests that are slices of a leader's log |
| `AllRuns.FirstWinner` | modules/raft/node/raft_node.cpp:723-796 | a candidate with a majority of votes is the first winner of its term and has no record of that term or a later one |
| `Elections.VoteRuleTotal` | modules/raft/node/raft_node.cpp:924-933 | of any two logs one may be voted for by the holder of the other, and both may only if they end alike |
| `Elections.GrantIff` | modules/raft/node/raft_node.cpp:1281-1327 | a vote is granted if and only if the request is not of an old term, the vote of that term is free or this candidate's, (last term, last index) is no smaller, and every persist succeeds; it is then on disk |
| `Elections.Electable` | modules/raft/node/raft_node.cpp:663-796 | in every state a node whose (last term, last index) is greatest in a majority it belongs to has a run of timeouts, votes and a win that makes it leader |
| `Progress.CanCommit` | modules/raft/node/raft_node.cpp:2141-2190 | from every reachable state and for every majority there is a run, no persist failing, in which one of the majority appends a given command and all of the majority commit it |
| `Reactions.NewerTermObeyed` | modules/raft/node/raft_node.cpp:853-898 | any message of a newer term, in any state and with any persist outcome, makes its receiver a follower of that term with a free vote, unless this message got the vote; unless the raise is lost, the disk has the term |
| `Reactions.TermIsTheNewest` | modules/raft/node/raft_node.cpp:853-898 | a receiver's term is afterwards the greater of the two, and no other node is touched |
| `Reactions.OldRequestRefused` | modules/raft/node/raft_node.cpp:1329-1345 | a vote request, append or snapshot of an old term changes nothing and is refused with the receiver's term |
| `Reactions.LeaderFollowed` | modules/raft/node/raft_node.cpp:1346-1362 | an append or snapshot of the node's own term makes it a follower of the sender and leaves its vote |
| `Reactions.OldReplyHarmless` | modules/raft/replication/replicator.cpp:251-262 | a reply of no newer term costs no node its role, vote or records, and does nothing if the request was of another term |
| `Reactions.AppendAnswer` | modules/raft/node/raft_node.cpp:1329-1480 | an append, a heartbeat too, is confirmed if and only if term, previous record and the persists it takes are in order; the commit index is then max(own, min(leader's, own last index)) |
| `Reactions.FailedElectionUndone` | modules/raft/node/raft_node.cpp:663-714 | an election whose persist fails leaves memory as it was and asks nobody |
| `Reactions.FailedVoteUndone` | modules/raft/node/raft_node.cpp:1281-1327 | a vote whose persist fails is not given |
| `Reactions.FailedProposalUndone` | modules/raft/node/raft_node.cpp:1998-2021 | a proposal whose persist fails leaves the log, and the leader's own progress is always the end of its log |
| `Reactions.FailedAppendUndone` | modules/raft/node/raft_node.cpp:1430-1472 | a failed persist takes back the records, and a failed second one the commit index |
| `Reactions.KeptAnyway` | modules/raft/node/raft_node.cpp:2141-2190 | a commit index the leader found, an installed snapshot and a compaction are the same in memory whatever the persist does |
| `Reactions.LogsMove` | modules/raft/node/raft_node.cpp:1329-1480 | only proposals, appends, installs and restarts write a log, only those and the leader's advance raise a commit index, and only a restart can lower it |
| `Reactions.SnapshotsMove` | modules/raft/node/raft_node.cpp:2440-2465 | how marker and newest snapshot of every node move in every step other than a restart; neither goes back |
| `Reactions.LeaderCommits` | modules/raft/node/raft_node.cpp:2141-2190 | a confirmation raises that peer's match index only, and the commit index becomes the greatest one of the leader's term that a majority holds, if that is above it |
| `Reactions.QuorumIsMajority` | modules/raft/node/raft_node.cpp:703-708 | a quorum is a smallest majority |
| `Restarts.StaysCurrent` | modules/raft/node/raft_node.cpp:2504-2531 | after a step whose persists succeed every node's disk holds its term, vote, log and commit index if it did before |
| `Restarts.RestartRestores` | modules/raft/node/raft_node.cpp:130-208 | in every run a restart finds the disk's term, vote and log, or the newest snapshot where the log does not contain it, and where the commit index ends |
| `Restarts.RestartLosesNothing` | modules/raft/node/raft_node.cpp:130-208 | if every persist succeeded, a crash at any point costs neither term nor vote, nor a record the newest snapshot does not replace |
| `Restarts.InstallKeepsLonger` | modules/raft/node/raft_node.cpp:1001-1049 | in every run an install leaves the longer of log and snapshot, or the snapshot where they differ, and reports success if and only if it was persisted |
| `MetaLoss.ElectionSafetyIff` | modules/raft/storage/raft_storage.cpp:402-440 | there is one leader per term in all runs if and only if no node can lose meta.bin between its removal and the rename of the new one |
| `MetaLoss.LogMatchingIff` | modules/raft/storage/raft_storage.cpp:402-440 | the same for log matching |
| `MetaLoss.VoteTwice` | modules/raft/node/raft_node.cpp:1281-1327 | a run of five nodes in which a node that lost its meta votes twice, two nodes lead term 1 and write different records at one index |
| `Safety.StateMachineSafety` | modules/raft/node/raft_node.cpp:1450-1472 | whatever two nodes have committed at an index, at any two times of a run, is the same record |
| `Safety.LeaderCompleteness` | modules/raft/node/raft_node.cpp:2141-2190 | every record a node has committed is in the log of every leader of a newer term, also of one that led before the commit, and of every later leader of its own term |
| `Safety.CommittedNeverCut` | modules/raft/node/raft_node.cpp:1404-1430 | no step, a conflict truncation, snapshot install or restart included, removes or changes a committed record |
| `Safety.FollowerCommitsLeaderLog` | modules/raft/node/raft_node.cpp:1450-1472 | although the clamp is to the follower's own last index, every committed record lies in the part that agrees with the leader of its term |
| `MatchIndex.MatchIndexSound` | modules/raft/replication/replicator.cpp:263-277 | a peer that is not in a newer term holds, in memory and on disk, the leader's log up to its match index, whatever the terms of those records |
| `MatchIndex.StepAcks` | modules/raft/node/raft_node.cpp:1450-1480 | every step keeps: while a node stays in a term, its log is the leader's up to the highest index it confirmed in it |
| `Safety.MatchIndexMonotone` | modules/raft/replication/replicator.cpp:263-277 | while a node stays leader of a term no match index goes down, whatever the step |
| `Safety.StepInv` | modules/raft/node/raft_node.cpp:1329-1491 | the invariant behind these theorems is kept by all 18 kinds of step, with any persist outcome but a lost raised term |
| `StepRaise.AppendReqAny` | modules/raft/node/raft_node.cpp:880-898 | an append whose term raise is reported as failed although it was written keeps the invariant |
| `StepRaise.VoteReqAny` | modules/raft/node/raft_node.cpp:1281-1327 | the same for a vote request |
| `StepRaise.SnapBeginAny` | modules/raft/node/raft_node.cpp:1510-1545 | the same for an incoming snapshot |
| `StepFollow.FollowerCommitSound` | modules/raft/node/raft_node.cpp:1450-1472 | the index a follower commits after an accepted append lies where its log and the leader's agree |
| `StepLeader.HintDiverges` | modules/raft/replication/replicator.cpp:280-325 | the next index derived from a rejection is never past the point where the follower's log leaves the leader's |
| `StepLeader.CountedIsChosen` | modules/raft/node/raft_node.cpp:2169-2179 | a majority of match indexes means a majority of nodes confirmed the record |
| `Counterexample.Violation` | modules/raft/node/raft_node.cpp:853-898 | a run of five nodes with one lost term raise, and commands inside the default limits, after which two nodes have committed different records at index 10, and the leader lacks one of them |
| `Counterexample.Cut` | modules/raft/node/raft_node.cpp:1404-1430 | one round later the append cuts that committed record, in memory and on disk |
| `MatchRun.Mismatch` | modules/raft/node/raft_node.cpp:1510-1545 | a run with one lost term raise after which a follower of the leader's term does not hold the record its match index covers |
| `Exactness.StateMachineSafetyIff` | modules/raft/node/raft_node.cpp:853-898 | no two nodes, at any two times, commit different records, in all runs, if and only if no raised term is lost |
| `Exactness.LeaderCompletenessIff` | modules/raft/node/raft_node.cpp:853-898 | leader completeness, between any two times of a run, holds in all runs if and only if no raised term is lost |
| `Exactness.FollowerCommitsIff` | modules/raft/node/raft_node.cpp:1450-1472 | what followers commit agrees with the leader of their term in all runs if and only if no raised term is lost |
| `Exactness.MatchIndexIff` | modules/raft/replication/replicator.cpp:263-277 | match indexes are sound in all runs if and only if no raised term is lost |
| `Exactness.CommittedNeverCutIff` | modules/raft/node/raft_node.cpp:1404-1430 | no step of any run removes a committed record if and only if no raised term is lost |
| `LateRun.FollowerCommitsIff` | modules/raft/node/raft_node.cpp:1179-1224 | with the send of a snapshot split into capture and send, what nodes commit agrees with the leader of their term in all runs if and only if no node sends the newest snapshot after it stopped leading the captured term |
| `LateRun.LeaderCompletenessIff` | modules/raft/node/raft_node.cpp:1179-1224 | the same for leader completeness between any two times |
| `LateRun.SentLate` | modules/raft/node/raft_node.cpp:1179-1224 | a run, no raised term lost, in which a deposed leader's late snapshot makes a node of the old term commit a record of the newer one |
| `LateSend.LateStillMatches` | modules/raft/node/raft_node.cpp:1179-1224 | late sends or not, and whatever persists fail, there is one leader per term and logs match |
| `LateSend.InTimeConsistent` | modules/raft/node/raft_node.cpp:1179-1224 | with split sends and none of them late, state machine safety holds between any two times of every run |
| `Backtracking.FindDivergence` | modules/raft/replication/replicator.cpp:280-325 | probing with the hinted index ends exactly at the divergence point, after at most one rejection for each different term among the follower's records past it, one more if the first probe lies behind the follower's end, and at most as many as indexes skipped |
| `Backtracking.RejectedProbe` | modules/raft/node/raft_node.cpp:1051-1078 | every rejected probe strictly lowers the next index and never takes it below the agreement point |
| `Backtracking.RejectionRulesOut` | modules/raft/node/raft_node.cpp:1051-1078 | a rejection of a probe inside the follower's log rules out one whole term of the follower's records |
| `Backtracking.ReachableLogsMatched` | modules/raft/node/raft_node.cpp:983-993 | any two logs of any reachable state satisfy what the probing argument needs |
| `Exchange.RoundOutcome` | modules/raft/replication/replicator.cpp:165-331 | what one round of request, handling and reply does to both nodes, to the next index and to the follower's commit index, for every compaction of either log, in steps of the cluster; no other node and no other peer's progress changes |
| `Exchange.SendIs` | modules/raft/replication/replicator.cpp:165-238 | in every state that satisfies the invariant of `Safety.StepInv` a leader sends the largest batch within 256 entries and 512 KiB from the peer's next index on, with the record before it and its commit index, or a snapshot, or nothing, and exactly when |
| `CatchUp.CatchUpIff` | modules/raft/replication/replicator.cpp:165-331 | in every reachable state rounds of replication make the leader count a peer as complete if and only if its next index is not past the end of its log, its log ends at the marker, or it does so already; in the first case the peer has the whole log after at most 2 * length + 3 rounds |
| `CatchUp.OneFurtherRound` | modules/raft/node/raft_node.cpp:1450-1472 | once the peer has the whole log, one further round gives it at least the leader's commit index |
| `StuckRun.NeverCatchesUp` | modules/raft/node/raft_node.cpp:1260-1270 | a reachable state, no raised term lost, from which no number of rounds brings the peer up to date |
| `RaftLog.MergeOutcome` | modules/raft/node/raft_node.cpp:1388-1430 | under log matching an append either changes nothing or makes the log a copy of the leader's up to the last entry |
| `RaftLog.BatchIsLargest` | modules/raft/replication/replicator.cpp:208-235 | a batch keeps the 256-entry and 512 KiB limits, except that its first record is always sent, and stops only where the next record would break one |
| `Protocol.CommitScan` | modules/raft/node/raft_node.cpp:2153-2189 | a new commit index is a record of the current term held by a majority |
| `Protocol.CommitScanHighest` | modules/raft/node/raft_node.cpp:2153-2189 | the scan misses no index it could commit |
| `CompactLog.CompactReads` | modules/raft/node/raft_node.cpp:950-981 | on the retained part the compacted log answers exactly what the full log would |
| `CompactLog.VoteCheckUnchanged` | modules/raft/node/raft_node.cpp:924-933 | the up-to-date check does not depend on how much was compacted |
| `CompactLog.ScanFirstOfTerm` | modules/raft/node/raft_node.cpp:983-993 | the scan finds the first retained index of a term in the full log |
| `CompactLog.ScanAfterLastOfTerm` | modules/raft/replication/replicator.cpp:285-297 | the backward scan finds one past the last retained record of a term |
| `CompactLog.CollectBatch` | modules/raft/replication/replicator.cpp:208-235 | the batch is the full log's slice from the next index, cut by the count and byte limits |
| `CompactLog.WalkIsMerge` | modules/raft/node/raft_node.cpp:1388-1430 | on entries numbered from prev + 1 the entry loop is the merge of the full log, never meets a gap, and reports a change exactly when there is one |
| `CompactLog.MergeEntries` | modules/raft/node/raft_node.cpp:1388-1430 | the entry loop on the compacted log, for entries with any indexes, keeps it the compacted form of the walked full log |
| `RaftServer.NumberedIsProtocol` | modules/raft/node/raft_node.cpp:1329-1480 | for the requests a leader builds, the handler on raw entries gives the protocol's node and reply |
| `RaftServer.MarkerPrefixKept` | modules/raft/node/raft_node.cpp:1363-1430 | no request, however its entries are numbered and whatever persists fail, changes a record at or below the marker, in memory or on disk |
| `RaftServer.FailedReplySame` | modules/raft/node/raft_node.cpp:1253-1276 | the term and last index a failed install read at its start do not change what the leader does with the reply |
| `RaftServer.RaftNode.PersistState` | modules/raft/node/raft_node.cpp:2504-2531 | the stored state and the disk become the memory state unless the write is lost |
| `RaftServer.RaftNode.BecomeFollower` | modules/raft/node/raft_node.cpp:853-898 | the raised term and cleared vote stay in memory whatever the persist does |
| `RaftServer.RaftNode.StartElection` | modules/raft/node/raft_node.cpp:663-714 | a failed persist puts role, term, vote and leader back |
| `RaftServer.RaftNode.BecomeLeader` | modules/raft/node/raft_node.cpp:900-922 | every peer starts with next index last + 1 and match index 0 |
| `RaftServer.RaftNode.OnRequestVote` | modules/raft/node/raft_node.cpp:1281-1327 | the object grants, refuses and rolls back exactly as the protocol's vote handler, which `Elections.GrantIff` decides |
| `RaftServer.RaftNode.OnVoteResponse` | modules/raft/node/raft_node.cpp:740-765 | a vote counts only for the candidacy that asked for it |
| `RaftServer.RaftNode.AppendLocal` | modules/raft/node/raft_node.cpp:1998-2021 | a failed persist takes the record and its progress back |
| `RaftServer.RaftNode.OnAppendEntries` | modules/raft/node/raft_node.cpp:1329-1480 | the whole handler on the compacted log, gaps and failed persists included, equals its uncompacted form, which `Reactions.AppendAnswer` decides |
| `RaftServer.RaftNode.BuildAppend` | modules/raft/replication/replicator.cpp:165-238 | the request is the protocol's, or none exactly when a snapshot is needed |
| `RaftServer.RaftNode.FindCommit` | modules/raft/node/raft_node.cpp:2153-2189 | the descending loop with its counting loop finds the highest committable index |
| `RaftServer.RaftNode.OnAppendResponse` | modules/raft/replication/replicator.cpp:240-331 | match and next index, hints, commit advance and the step down follow the protocol function (`Reactions.NewerTermObeyed`, `Reactions.LeaderCommits`) |
| `RaftServer.RaftNode.RestoreLog` | modules/raft/node/raft_node.cpp:1001-1049 | the log becomes the compacted form of the restored full log; a matching boundary keeps the suffix; no counter goes down |
| `RaftServer.RaftNode.Compact` | modules/raft/node/raft_node.cpp:2440-2465 | compaction after a local snapshot changes no record of the full log |
| `RaftServer.RaftNode.BeginInstall` | modules/raft/node/raft_node.cpp:1493-1545 | the first section of an incoming snapshot is the protocol's; a handler that goes on has kept the term and last index read before it followed the sender |
| `RaftServer.RaftNode.InstallSnapshot` | modules/raft/node/raft_node.cpp:1584-1620 | the map is loaded before the term check; an installed snapshot moves log, marker, commit and last_applied as the protocol does; a failed one changes nothing but the map and replies with the values read at the start |
| `RaftServer.RaftNode.OnSnapResponse` | modules/raft/node/raft_node.cpp:1252-1278 | a snapshot reply steps down, is ignored, or moves match and next index as the protocol does |
| `RaftServer.RaftNode.PickSnapshot` | modules/raft/node/raft_node.cpp:1179-1224 | the snapshot at the marker if the catalog has it, or else the newest; none without a marker |
| `RaftServer.RaftNode.ApplyCommitted` | modules/raft/node/raft_node.cpp:2192-2275 | the map is the old one with the records from max(last_applied, marker) on replayed; success means everything committed is applied; an early end has one of three causes |
| `RaftServer.RaftNode.Recover` | modules/raft/node/raft_node.cpp:130-208 | every successful start: the snapshot's map with the records after max(snapshot index, marker) up to the commit index replayed, and where the counters end; if the snapshot covers the marker, the replay of 1..commit and exactly the protocol's restarted node; why a start fails |
| `Recovery.RecoveryRightIff` | modules/raft/node/raft_node.cpp:2333-2410 | every start from a snapshot at m under a marker at b leaves the replay of its log up to last_applied if and only if m >= b |
| `Recovery.BehindLoses` | modules/raft/node/raft_node.cpp:2200-2205 | for every m < b a stored state and snapshot whose start loses the write at the marker |
| `RaftServer.RaftNode.LoadFirst` | modules/raft/node/raft_node.cpp:2362-2373 | the first snapshot that loads is taken and those before it leave the map alone |
| `Replica.MapIsReplay` | modules/raft/node/raft_node.cpp:2192-2275 | in every reachable state the map is the replay of records 1..last_applied, and marker <= last_applied <= commit <= last index |
| `Replica.ReplicasAgree` | modules/raft/node/raft_node.cpp:2192-2275 | at any two times of a run, equal last_applied means equal maps, and a smaller one means the map of a prefix of what the other applied |
| `Replica.KvStepInv` | modules/raft/node/raft_node.cpp:1586-1620 | every interleaving of protocol steps, applies, snapshots, installs and prunes keeps maps, catalogs and travelling snapshots equal to replays; without the condition on installs it still keeps the counters and refused commands in order |
| `Replica.MapsRightIff` | modules/raft/node/raft_node.cpp:1586-1620 | in a run without lost terms the maps are replays all the time if and only if every install is not behind last_applied or holds the same map, and every load that is then refused holds the same map |
| `KvRuns.OldInstall` | modules/raft/node/raft_node.cpp:1535-1605 | a run, every persist succeeding, in which an install of a snapshot behind last_applied leaves a wrong map that the next snapshot makes permanent |
| `KvRuns.RefusedLoad` | modules/raft/node/raft_node.cpp:1586-1601 | the same by a snapshot that is loaded and then refused because the term has moved on |
| `KvRuns.LostRaise` | modules/raft/node/raft_node.cpp:853-898 | the same by a lost term raise: a node applies a record that is then cut |
| `KvRuns.MapIsReplayIff` | modules/raft/node/raft_node.cpp:2192-2275 | the maps are replays in all runs of a class if and only if it has no lost term, no harmful install and no harmful refused load |
| `KvRuns.ReplicasAgreeIff` | modules/raft/node/raft_node.cpp:2192-2275 | equal last_applied means equal maps under exactly the same condition |
| `KvRuns.RecoveryIff` | modules/raft/node/raft_node.cpp:150-208 | a restart of any node would rebuild the replay under exactly the same condition |
| `Replica.RefusedBlocksEveryone` | modules/raft/node/raft_node.cpp:2245-2252 | once a refused command is committed anywhere, no node ever applies it or anything after it, whatever snapshots are installed |
| `KvRuns.RefusedBlocksIff` | modules/raft/node/raft_node.cpp:2245-2252 | that holds for all machines and runs if and only if no raised term is lost |
| `Validation.EmptyValueBlocks` | modules/raft/node/raft_node.cpp:1907-1996 | of the commands that pass validation exactly the Sets of an empty value are refused, in every state; all others perform their update |
| `Validation.ValidateDecides` | modules/raft/node/raft_node.cpp:1907-1996 | which commands pass, with any limits |
| `Validation.WhyRefused` | modules/raft/node/raft_node.cpp:1907-1996 | which cause each verdict stands for, in which order, and that two of the verdicts are never given |
| `Validation.EmptyValuePasses` | modules/raft/node/raft_node.cpp:1977-1996 | for every key that passes, the Set of an empty value passes and is refused on apply |
| `Replica.RecoveryIsReplay` | modules/raft/node/raft_node.cpp:150-208 | after any run, restart and catch-up equal the full replay up to max(clamped commit, snapshot index), and stop short exactly when one of those commands is refused |
| `Command.Split` | modules/raft/common/command.cpp:11-23 | the getline loop yields the parts of the text |
| `Command.PartsSpell` | modules/raft/common/command.cpp:11-23 | the parts joined by the delimiter spell the text, except that one trailing delimiter is lost |
| `Command.PartsFree` | modules/raft/common/command.cpp:11-23 | no part contains the delimiter |
| `Command.RoundTrip` | modules/raft/common/command.cpp:41-96 | a command comes back from its text if and only if key (and value of a Set) are non-empty and free of the delimiter |
| `Command.ParseSetIff` | modules/raft/common/command.cpp:60-96 | a text is read as a Set if and only if it is "SET", a key and a value free of the delimiter, the key not empty, whatever follows a further delimiter |
| `Command.ParseDeleteIff` | modules/raft/common/command.cpp:60-96 | the same for a Delete |
| `Command.SerializeInjective` | modules/raft/common/command.cpp:41-58 | two such commands with the same text are equal |
| `Command.ReservedTexts` | modules/raft/common/command.cpp:41-58 | no command's text is the internal no-op or the snapshot marker |
| `Command.EmptyValueRefused` | modules/raft/common/command.cpp:74-77 | the text of a Set with an empty value is refused |
| `KvStore.TransportFaithful` | modules/raft/state_machine/state_machine.cpp:79-112 | applying the text of a transportable command performs exactly that map update |
| `KvStore.EffectIs` | modules/raft/state_machine/state_machine.cpp:79-112 | what every text does to the map: nothing for the no-op, the update for a text that spells one, refusal for every other |
| `KvStore.KvStateMachine.Apply` | modules/raft/state_machine/state_machine.cpp:79-112 | a refused command leaves the map as it was |
| `KvStore.ListsUnique` | modules/raft/state_machine/state_machine.cpp:123-133 | a map has exactly one listing in ascending key order |
| `KvStore.SortItems` | modules/raft/state_machine/state_machine.cpp:123-133 | whatever order the hash table yields, the result is that listing |
| `KvStore.KvStateMachine.SaveSnapshot` | modules/raft/state_machine/state_machine.cpp:114-181 | equal maps give equal files |
| `KvStore.SnapshotRoundTrip` | modules/raft/state_machine/state_machine.cpp:206-261 | loading a saved file gives back the map, also with bytes appended |
| `KvStore.LoadIff` | modules/raft/state_machine/state_machine.cpp:206-261 | a file loads as a map if and only if it is header, count and that many items with anything after them, and the map is the items put one after the other |
| `KvStore.VersionMismatchIff` | modules/raft/state_machine/state_machine.cpp:230-242 | only the right magic number with another version is a version mismatch |
| `KvStore.StrictPrefixRefused` | modules/raft/state_machine/state_machine.cpp:219-252 | every strict prefix of a saved file is refused as corrupted |
| `KvStore.KvStateMachine.LoadSnapshot` | modules/raft/state_machine/state_machine.cpp:206-261 | a file that does not load leaves the map as it was |
| `Bytes.UnLeLe` | modules/raft/state_machine/state_machine.cpp:28-40 | a number that fits its width is read back |
| `SegmentCodec.ReadBack` | modules/raft/storage/raft_storage.cpp:1270-1390 | a written record is read back, whatever bytes follow |
| `SegmentCodec.ReadPartial` | modules/raft/storage/raft_storage.cpp:1291-1365 | a record cut anywhere inside is recognised as damage |
| `SegmentCodec.ReadOversize` | modules/raft/storage/raft_storage.cpp:1317-1318 | a command above 64 MiB is written and then read as damage |
| `SegmentCodec.AcceptedIsVerified` | modules/raft/storage/raft_storage.cpp:1315-1390 | an accepted record sits behind a plausible header whose checksum is that of the record |
| `SegmentCodec.AcceptedIff` | modules/raft/storage/raft_storage.cpp:1291-1390 | for any bytes: a record is accepted if and only if it is complete behind a header with magic, version, type, size and checksum in order |
| `SegmentCodec.RottenCommand` | modules/raft/storage/raft_storage.cpp:1368-1392 | a command changed under its checksum is damage, whatever follows |
| `Segments.ReadSegmentFile` | modules/raft/storage/raft_storage.cpp:1270-1409 | the reader loop yields the whole records in range, how the file ended, and where it is cut |
| `SegmentTree.ListingUnique` | modules/raft/storage/raft_storage.cpp:1134-1160 | the sorted listing of a directory does not depend on the order of the iterator |
| `SegmentTree.WriteSegments` | modules/raft/storage/raft_storage.cpp:1426-1509 | the writer loop starts a new file after every 512 records |
| `SegmentTree.ChunksSplit` | modules/raft/storage/raft_storage.cpp:1426-1509 | the last file holds the records after the last multiple of 512 and the others are the files of the records before |
| `SegmentTree.ChunkIs` | modules/raft/storage/raft_storage.cpp:1426-1509 | the i-th file holds the records from 512 * i on, 512 of them or all there are, and is named by the first one's index |
| `SegmentTree.LoadRange` | modules/raft/storage/raft_storage.cpp:1108-1268 | an undamaged tree read under any meta gives exactly the announced range, and is refused if and only if it does not cover it |
| `SegmentTree.CutLoads` | modules/raft/storage/raft_storage.cpp:1191-1230 | what any cut of the last segment leaves loadable, for every cut position |
| `SegmentTree.DamageLoads` | modules/raft/storage/raft_storage.cpp:1191-1268 | damage from any record on: the records before it load if it is in the last segment, otherwise nothing does |
| `SegmentTree.AcceptedLog` | modules/raft/storage/raft_storage.cpp:1191-1268 | for arbitrary bytes an accepted log is contiguous, starts at meta's first index, stays within its last index, and consists of records read from the files |
| `RaftStorage.MetaRoundTrip` | modules/raft/storage/raft_storage.cpp:950-1042 | meta.bin is read back, the signed vote included |
| `RaftStorage.ReadMetaIff` | modules/raft/storage/raft_storage.cpp:950-1042 | for any bytes: which meta.bin is read, and what its fields are |
| `RaftStorage.Clamp` | modules/raft/storage/raft_storage.cpp:155-177 | commit is lowered to the last index and last_applied to that commit, and neither any further; term, vote and log untouched |
| `RaftStorage.ClampGreatest` | modules/raft/storage/raft_storage.cpp:155-177 | commit and last_applied are the greatest admissible values not above the stored ones |
| `RaftStorage.ClampKeeps` | modules/raft/storage/raft_storage.cpp:155-177 | a state is left alone if and only if its indexes are in order |
| `RaftStorage.LoadVerdict` | modules/raft/storage/raft_storage.cpp:910-948 | only a missing meta.bin is no state; what is refused; and exactly what a loaded state is |
| `RaftStorage.SaveLoadRoundTrip` | modules/raft/storage/raft_storage.cpp:910-948 | a saved state loads as itself, clamped, if and only if no command exceeds 64 MiB |
| `RaftStorage.SaveLoadExact` | modules/raft/storage/raft_storage.cpp:910-948 | a saved state whose indexes are in order loads as exactly itself, if and only if no command exceeds 64 MiB |
| `RaftStorage.TornTail` | modules/raft/storage/raft_storage.cpp:1202-1206 | after a cut inside a record exactly the whole records before it load, with commit and last_applied lowered to what is left, except in the first record of a log that starts above 0; a cut on a boundary is refused |
| `RaftStorage.DamageAnywhere` | modules/raft/storage/raft_storage.cpp:1191-1268 | damage from any record of any segment on: the records before it load, or the state is refused when a later segment was dropped with it |
| `RaftStorage.SecondLoadRefused` | modules/raft/storage/raft_storage.cpp:1202-1206 | after the truncation a second load is refused |
| `RaftStorage.AnyBytes` | modules/raft/storage/raft_storage.cpp:910-948 | whatever meta and segment files hold, an accepted state is gap-free, in range, clamped, and read from the files |
| `RaftStorage.CrashPoints` | modules/raft/storage/raft_storage.cpp:830-905 | for every operation of a save, exactly what a restart finds after a crash there |
| `RaftStorage.AppendCrash` | modules/raft/storage/raft_storage.cpp:830-905 | when the new log only appends, every point but two gives exactly the old or the new state |
| `RaftStorage.CompactionCrash` | modules/raft/storage/raft_storage.cpp:873-893 | when the new log starts later, both points between the publications are refused |
| `RaftStorage.SavedIsPublished` | modules/raft/storage/raft_storage.cpp:830-905 | a completed save is the published state the next save starts from |
| `RaftStorage.AnySaves` | modules/raft/storage/raft_storage.cpp:790-905 | after any sequence of saves from an empty directory, each cut short anywhere, exactly what a restart finds |
| `RaftStorage.AnySavesAndLoads` | modules/raft/storage/raft_storage.cpp:790-905 | the same with any number of loads in between, which may truncate files |
| `RaftStorage.LoadLeavesSaved` | modules/raft/storage/raft_storage.cpp:1191-1268 | under any meta, loading a complete tree truncates and deletes nothing |
| `RaftStorage.LoadsLastCompleted` | modules/raft/storage/raft_storage.cpp:790-905 | the loaded term and vote are those of the last completed save, and no state is found if and only if a later attempt stopped after removing meta.bin |
| `RaftStorage.AppendsLoseNothing` | modules/raft/storage/raft_storage.cpp:790-905 | if later attempts only append and stop at none of two points, the log of the last completed save comes back whole, and exactly its state if its indexes were in order |
| `RaftStorage.FileRaftStorage.Save` | modules/raft/storage/raft_storage.cpp:830-905 | the object passes through exactly those directory states, and publishes nothing when a command does not fit its size field |
| `RaftStorage.FileRaftStorage.Publish` | modules/raft/storage/raft_storage.cpp:694-783 | log directory first, then meta, each by removal and rename |
| `RaftStorage.FileRaftStorage.Load` | modules/raft/storage/raft_storage.cpp:790-828 | the loading loops give the result of the specification and leave exactly the directory it says |
| `SnapshotCatalog.SaveIsAtomic` | modules/raft/storage/snapshot_storage.cpp:576-815 | after every single operation the valid snapshots are the old ones, and after the last one the old ones and the complete new one |
| `SnapshotCatalog.ValidIff` | modules/raft/storage/snapshot_storage.cpp:1086-1205 | a snapshot is valid if and only if both files are there, the index is the directory's, and the checksum is that of the data |
| `SnapshotCatalog.RotDropsOut` | modules/raft/storage/snapshot_storage.cpp:1189-1205 | a data file whose checksum changed makes exactly that snapshot invalid |
| `SnapshotCatalog.SavePublishes` | modules/raft/storage/snapshot_storage.cpp:576-815 | a completed save leaves exactly the new meta and data under its index, whatever was there, and no other directory changed |
| `SnapshotCatalog.PruneKeepsNewest` | modules/raft/storage/snapshot_storage.cpp:953-1023 | after every single removal the max(1, max_keep) newest valid snapshots are unchanged, and at the end only they are left |
| `SnapshotCatalog.CallAdvances` | modules/raft/storage/snapshot_storage.cpp:576-815 | a save or prune cut short anywhere never replaces a valid snapshot by another and never loses the latest |
| `SnapshotCatalog.LatestNeverFalls` | modules/raft/storage/snapshot_storage.cpp:919-951 | over any sequence of saves and prunes, each cut short anywhere, the latest valid index never goes down |
| `SnapshotCatalog.FileSnapshotStorage.SaveSnapshotFile` | modules/raft/storage/snapshot_storage.cpp:576-815 | an existing snapshot is kept only if meta, index and checksum of its data are in order, another term is then refused, and otherwise the operations are those of the staged publish |
| `SnapshotCatalog.FileSnapshotStorage.ListSnapshots` | modules/raft/storage/snapshot_storage.cpp:839-917 | exactly the directories with a meta and a data file, their own index and the checksum of the data, newest first, whatever the order of the iterator |
| `SnapshotCatalog.FileSnapshotStorage.PruneSnapshots` | modules/raft/storage/snapshot_storage.cpp:953-1023 | the loop performs the removals behind the kept ones; afterwards exactly the newest max(1, max_keep) are valid |

## Left out

- Safety.StateMachineSafety: assumes that no raised term is lost, which is exactly what it needs (`Exactness.StateMachineSafetyIff`), and that no snapshot is sent late; with late sends it is not proved.
- Safety.LeaderCompleteness: the same conditions, exact by `Exactness.LeaderCompletenessIff` and `LateRun.LeaderCompletenessIff`.
- Safety.CommittedNeverCut: no raised term lost, exact by `Exactness.CommittedNeverCutIff`.
- Safety.FollowerCommitsLeaderLog: no raised term lost and no late send, exact by `Exactness.FollowerCommitsIff` and `LateRun.FollowerCommitsIff`.
- MatchIndex.MatchIndexSound: no raised term lost, exact by `Exactness.MatchIndexIff`.
- Cluster: a snapshot is captured and sent in one step; `LateSend` splits the two, for the properties named there only.
- Safety.StepInv: no raised term lost; it is the invariant of these.
- Replica.MapIsReplay: assumes that no raised term is lost and that installs and refused loads are harmless, exact by `Replica.MapsRightIff` and `KvRuns.MapIsReplayIff`.
- Replica.ReplicasAgree: the same conditions, exact by `KvRuns.ReplicasAgreeIff`.
- Replica.RecoveryIsReplay: the same conditions, exact by `KvRuns.RecoveryIff`.
- Replica.KvStepInv: the same conditions, on one step.
- Replica.RefusedBlocksEveryone: assumes that no raised term is lost, exact by `KvRuns.RefusedBlocksIff`.
- RaftServer.RaftNode.ApplyCommitted: other handlers that run between two turns of the loop are covered by `Replica`, not by the object.
- Backtracking.FindDivergence: both sides uncompacted and persists succeeding; `CatchUp` covers compacted logs and snapshots.
- Progress.CanCommit: after runs in which no raised term is lost; that such a run exists, not that timers and scheduling bring it about.
- RaftStorage.CrashPoints: the state of a crash between the two publications, new log under old meta, is not fed back into the cluster model, where a restart finds the last complete or the attempted state; the lost meta is (`MetaLoss`).
- Indexes and terms are unbounded in the protocol; the saturating addition at 2^64 - 1 is not modelled. On disk their field widths are.
- Votes are a set of voter ids; the counter of the source counts one reply per peer and election.
- Legacy monolithic state files and legacy flat snapshots, the identity file, configuration parsing.
- The encoding of the snapshot meta file and of segment file names; I/O errors other than a crash at the same point; fsync; failpoints.
- An allocation failure while a snapshot file announces an absurd size.
- Timers, backoff, deadlines, the wait loop of a proposal and liveness; an election timeout may fire at any time.
- Reads served by the leader without a quorum check, gRPC plumbing, metrics, membership change.
