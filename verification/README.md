# VeltrixDB in Dafny

A model, and proofs about it, of the parts of VeltrixDB that several machines or threads
take part in:

- **Consensus** (`consensus/`): a Raft cluster in which entries are sent before they are
  synced, replies are parked until an fsync covers them, the log file is a stream of
  records in which overwriting is implicit, snapshots replace a log prefix, and the state
  machine records what it has applied. The cluster is a state machine of 24 kinds of step
  over servers with an in-memory log and all logs a crash may leave; messages are lost,
  repeated and reordered at will. Classes model one server's handlers, its log file, its
  saved term and vote, its apply loop, its configuration, its snapshot file and the
  chunked transfer of one, and refine the steps.
- **Replicated mode** (`replication/`): one engine with its retention buffer, acks,
  eviction, resync flags, catch-up, watermarks and restart. Every method is a section the
  code runs under its lock, and histories are sequences of calls in any order.
- **Placement and migration** (`cluster/`): the hash ring, rack-aware choice of replicas,
  the partition table, and the migration that deletes only what is held elsewhere.
- **The network front end** (`netfront/`): the order of answers on a connection, across
  inline answers, writes in goroutines and deferred chains.

## Layout

| files | about |
|---|---|
| `Basics`, `Ordered` | shared types and small facts |
| `RaftLog`, `RaftNodeSpec`, `NodeEffects`, `Cluster` | logs, one server's steps as functions, what each does in terms of log, term and reply alone, the cluster |
| `Invariant`, `Completeness`, `NodeSteps`, `ElectionSteps`, `AckSteps`, `CommitSteps`, `Preservation`, `AppendSteps` | the invariant and that every step keeps it |
| `Safety`, `Progress` | what holds in every run; what some run does |
| `RaftNodeImpl` | the server's handlers as methods, proved to do the steps |
| `Ballot`, `Elections` | saved term and vote with failing writes; one leader per term |
| `RecordCodec`, `LogFile`, `LogStore`, `Reload` | log records, replay, the file with its queue, loading |
| `Applied` | executing commands exactly once |
| `Membership` | configurations and their changes |
| `SnapshotFile`, `ChunkTransfer` | the snapshot file and sending it |
| `Replication`, `ReplicationRuns` | replicated mode; runs that lose track of a write or of a gap |
| `Placement`, `Ring`, `PartitionMap`, `Migration` | placement and migration |
| `Frames`, `FrameCodec`, `Netfront`, `NetLoop` | frames, the requests clients encode in them, order per connection, the loop |

`dafny verify dfyconfig.toml` checks everything.

A server's log is modelled whole, with the index from which the code still has it; the
code's log is its part above the snapshot. `vers` lists the logs a crash may leave, the
last one being the log in memory. In `Replication` the history of what each replica is
owed, holds and lacks is kept beside the engine, and `lost` names the replicas of which
the engine has lost track; every promise about a replica is for one that is not lost, and
the methods say exactly when one becomes so. A catch-up that starts too far back may miss
deletes; the writes it may miss are in `gaps`, which the engine's own mark `deleteGap`
covers, and in `past` once the process or the registration that set the mark is over
(`ReplicationRuns.GapForgotten`).

## Model

| member | source | states |
|---|---|---|
| `Safety.StateMachineSafety` | consensus/raft.go:1398-1428 | In every run of the cluster any two servers, at any two moments, have applied sequences of entries one of which is a prefix of the other. |
| `Safety.LeadersHaveCommitted` | consensus/raft.go:1241-1350 | Leader Completeness: what was committed in term T is in the log of every leader of a term from T on, at that moment and later. |
| `Safety.CommitSurvivesCrashes` | consensus/raft.go:1321-1350 | Durability: the majority behind a commit holds everything up to its index in every log a crash of one of its members may leave, at every later moment of the run. |
| `Safety.ReadSeesCommitted` | consensus/read_index.go:37-127 | A confirmed read fence, once applied on a server, shows everything committed anywhere before the read began. |
| `Safety.LeaderHasApplied` | consensus/read_index.go:137-161 | A leader that has applied the no-op it began its term with has applied everything that was committed anywhere when it was elected, also if a later term had already begun then. |
| `Safety.ElectionSafety` | consensus/raft.go:1073-1156 | Over a whole run, two servers that lead the same term, at the same time or not, are the same server. |
| `Safety.VoteOnce` | consensus/raft.go:955-1016 | A server never sends granted votes to two candidates of one term, crashes included. |
| `Safety.LogMatchingInRuns` | consensus/pipeline.go:349-429 | Two logs of any servers at any times, in memory or as a crash may leave them, that agree on index and term of one entry are equal up to it. |
| `Safety.CommittedStays` | consensus/raft.go:1321-1350 | The committed sequence only grows. |
| `Safety.AppliedIsCommitted` | consensus/raft.go:1398-1428 | What a server has applied is a prefix of the committed sequence, then and for good. |
| `Safety.CommitIndexIsSafe` | consensus/pipeline.go:415-429 | A commit index covers only committed entries, and the server's log agrees with them as far as it reaches. |
| `Safety.FenceCovers` | consensus/read_index.go:37-127 | A fence confirmed by a majority is at or above every index committed before it was taken. |
| `Safety.RunInv` | consensus/raft.go:955-1350 | The invariant holds in every state of every run. |
| `AppendSteps.NextInv` | consensus/pipeline.go:326-447 | Each of the 24 kinds of step (elections, votes, appends, parked replies, syncs, commits, applies, captures, installs, crashes, reads) keeps the invariant. |
| `AppendSteps.AppendInv` | consensus/pipeline.go:326-447 | Any delivery of any AppendEntries request ever sent, however old or repeated, keeps the invariant. |
| `Progress.SnapshotCatchesUp` | consensus/snapshot.go:447-1255 | For any voters and command there is also a run in which a server that was not told of the commit gets the command by snapshot and still has it applied after a restart. |
| `Progress.CommandCommits` | consensus/raft.go:955-1428 | The steps are not too strict: for any voters, any of them and any command there is a run in which it is elected, the command is committed and applied by every server, and a read begun then is confirmed by all. |
| `Completeness.LeaderCompleteness` | consensus/raft.go:1321-1350 | By induction on terms: a later leader's log has everything an earlier term committed, because each winner's majority meets the commit's. |
| `Completeness.CommitsAgree` | consensus/raft.go:1321-1350 | Two commits agree on everything up to the smaller index. |
| `ElectionSteps.WinnerIsFirst` | consensus/raft.go:1241-1280 | A candidate with a majority of votes is the first and only leader of its term. |
| `ElectionSteps.WinnerHasCommitted` | consensus/raft.go:1603-1610 | The log of a winner holds every index committed in an earlier term, by the up-to-date rule. |
| `NodeSteps.TakeEffect` | consensus/pipeline.go:384-413 | Taking a request's entries makes the log agree with the leader's up to the request's end, and either leaves it alone or replaces a suffix that differs. |
| `NodeSteps.SyncSteps` | consensus/pipeline.go:175-196 | Capture, flush and marking keep what is known of the logs a crash may leave, for any write or rewrite that came in between. |
| `NodeSteps.RestartStep` | consensus/raft.go:1630-1689 | Coming back with any log a crash may leave keeps the per-server invariant. |
| `Preservation.CommitInv` | consensus/raft.go:1321-1350 | A leader's commit extends the committed sequence and never contradicts it. |
| `Preservation.InstallKeepsInv` | consensus/snapshot.go:1151-1255 | Installing a snapshot keeps the invariant. |
| `Preservation.ReloadKeeps` | consensus/raft.go:1649-1664 | So does a crash between the rename of a captured or installed snapshot and the rewrite of the log file, for every log file that ends within the snapshot or agrees with it, with or without a trusted applied record. |
| `RaftLog.LogMatching` | consensus/pipeline.go:349-383 | Logs whose entries carry their leaders' prefixes have the Log Matching property. |
| `RaftNodeSpec.FirstNewSpec` | consensus/pipeline.go:384-413 | The first entry taken from a request is exactly the first that is missing or of another term. |
| `RaftNodeSpec.ConflictStartsRun` | consensus/pipeline.go:370-380 | The hint of the model is that first index: everything from it on has the term, the entry before it has not. |
| `NodeEffects.VoteEffect` | consensus/raft.go:955-1016 | A vote is granted if and only if the candidate is a voter, its term is this one or a later one, no other candidate of that term has the vote, and its log ends in a later term or in the same and is not shorter; and exactly what else changes. |
| `NodeEffects.CampaignEffect` | consensus/raft.go:1073-1105 | A candidate is in the next term, with its own vote and only that. |
| `NodeEffects.LeadEffect` | consensus/raft.go:1241-1280 | A new leader has one entry more, an empty one of its term, not yet durable, and knows nothing of its peers. |
| `NodeEffects.RefusalEffect` | consensus/pipeline.go:326-383 | A request is refused if and only if its term is older, it leaves a gap or its previous term does not agree where no snapshot covers it; nothing but the term changes, and the hint is the end of the log or the start of the run that differs. |
| `NodeEffects.AcceptEffect` | consensus/pipeline.go:384-447 | Accepted, the log holds the entries from the first it lacked on and nothing behind them, what was replaced is not durable, the commit index is the greater of its own and the leader's up to the request's end, and the reply is the durable part of it, all of it, or parked with the term of its last entry. |
| `NodeEffects.AcceptRestEffect` | consensus/pipeline.go:349-447 | The same for what a snapshot does not cover of a request. |
| `NodeEffects.CoveredEffect` | consensus/pipeline.go:354-361 | A request the snapshot covers is confirmed to its end and changes nothing but the term. |
| `NodeEffects.SyncEffect` | consensus/raft.go:774-782 | A finished sync moves the durable index to its end if and only if that is higher and the entry there still has its term. |
| `NodeEffects.CaptureEffect` | consensus/pipeline.go:175-196 | What a sync flushes is the log as it was when it began. |
| `NodeEffects.CommitEffect` | consensus/raft.go:1321-1350 | An index can be committed if and only if it is new, of the leader's term, and more than half of the voters hold it: peers by their confirmations, the leader by its own fsync. |
| `NodeEffects.DecideEffect` | consensus/pipeline.go:263-279 | A parked reply is confirmed, or waits, exactly under these conditions on term, snapshot, log and durable index. |
| `NodeEffects.ApplyEffect` | consensus/raft.go:1398-1428 | Applying up to an index appends exactly the log's entries up to it. |
| `NodeEffects.InstallEffect` | consensus/snapshot.go:1151-1255 | After an install the snapshot heads the log, everything is durable, and a suffix stays if and only if the log has the snapshot's term at its index. |
| `NodeEffects.RestartEffect` | consensus/raft.go:1630-1689 | After a restart the server is a follower with the log it found, all durable, and the saved term and vote unless the log ends in a later term. |
| `RaftNodeImpl.RaftNode.constructor` | consensus/raft.go:474-632 | A new node stands for the initial server of the cluster model. |
| `RaftNodeImpl.RaftNode.LogFirstIndex` | consensus/raft.go:1536-1541 | The log helpers on the compacted log give what the uncompacted log gives: first index behind the snapshot. |
| `RaftNodeImpl.RaftNode.LastLogIndex` | consensus/raft.go:1543-1548 | The length of the uncompacted log. |
| `RaftNodeImpl.RaftNode.LastLogTerm` | consensus/raft.go:1550-1555 | The last term of the uncompacted log. |
| `RaftNodeImpl.RaftNode.LogTerm` | consensus/raft.go:1560-1576 | The term of the uncompacted log at an index from the snapshot on. |
| `RaftNodeImpl.RaftNode.EntryAt` | consensus/raft.go:1578-1587 | The entry of the uncompacted log at an index above the snapshot, and nothing for any other. |
| `RaftNodeImpl.RaftNode.EntriesFrom` | consensus/raft.go:1590-1599 | The suffix of the uncompacted log from an index above the snapshot. |
| `RaftNodeImpl.RaftNode.BecomeFollower` | consensus/raft.go:1284-1302 | Refines the cluster model's adoption of a term. |
| `RaftNodeImpl.RaftNode.HandleRequestVote` | consensus/raft.go:955-1016 | Refines the vote step when the writes succeed, and then grants the vote if and only if the candidate is a voter, of no older term, nobody else of that term has the vote, and its log is not behind; if the term or the vote cannot be saved, no vote is granted and the state is exactly that of a follower in the term, or unchanged. |
| `RaftNodeImpl.RaftNode.StartElection` | consensus/raft.go:1073-1105 | Refines the campaign step; without the write only term and vote move and no campaign starts. |
| `RaftNodeImpl.RaftNode.BecomeLeader` | consensus/raft.go:1241-1280 | Refines the election step: role, reset progress, and a no-op of the new term at the end of the log. |
| `RaftNodeImpl.RaftNode.AppendOwn` | consensus/raft.go:755-767 | Refines a leader's append, not yet durable. |
| `RaftNodeImpl.RaftNode.ConflictIndex` | consensus/pipeline.go:366-382 | The loop finds the first index, above the snapshot, of the run of equal terms that ends at the refused index. |
| `RaftNodeImpl.RaftNode.TakeEntries` | consensus/pipeline.go:384-413 | The loop over a request's entries refines the overwrite of the uncompacted log; if there is something to queue and that fails, the log is cut exactly before the first new entry. |
| `RaftNodeImpl.RaftNode.AppendEntries` | consensus/pipeline.go:326-447 | For every request and every pattern of failing writes: what the handler leaves and answers, as the model's step or as its cut short by the failure. |
| `RaftNodeImpl.QueuedAccepts` | consensus/pipeline.go:326-447 | Without a failure that is the cluster model's step. |
| `RaftNodeImpl.RaftNode.MaybeAdvanceCommit` | consensus/raft.go:1321-1350 | The downward scan with its counting loop finds the highest index of the current term that a majority holds, or leaves the commit index alone. |
| `RaftNodeImpl.RaftNode.MarkDurable` | consensus/raft.go:774-782 | Refines the end of a sync: the durable index moves exactly for a log that still has the synced tail, and a leader then commits the highest index a majority holds, nothing else. |
| `RaftNodeImpl.RaftNode.TakeDecidedWaiters` | consensus/pipeline.go:255-293 | Answers each parked reply once or keeps it: it succeeds exactly if nothing failed, its term runs and a snapshot covers it or its entries are still there and durable; it is kept exactly while those entries are there and not durable. |
| `RaftNodeImpl.RaftNode.DecideWaiter` | consensus/pipeline.go:263-279 | The same for one reply. |
| `RaftNodeImpl.RaftNode.Reply` | consensus/pipeline.go:415-447 | The commit index is exactly the greater of its own and the leader's up to the target; a heartbeat or durable target is confirmed as far as it is durable, anything else parked. |
| `RaftNodeImpl.AnswersPartition` | consensus/pipeline.go:255-293 | Every parked reply is answered or kept, none twice. |
| `RaftNodeImpl.AnswersTruthful` | consensus/pipeline.go:255-293 | A parked reply is answered only once it is decided, and succeeds if and only if nothing failed, the term is the same, and a snapshot covers its target or the entry there has its term and is durable; one that stays parked waits for that. |
| `RaftNodeImpl.CountIsHolders` | consensus/raft.go:1321-1350 | The vote count over the server list is the size of the set of voters that hold the index. |
| `RaftNodeImpl.RaftNode.TruncatePrefix` | consensus/snapshot.go:574-595 | Compaction changes no index, term or entry of the uncompacted log. |
| `RaftNodeImpl.RaftNode.InstallSnapshot` | consensus/snapshot.go:1151-1255 | Refines the install: the agreeing suffix is kept exactly if term and index match the log; older snapshots change nothing. |
| `RaftNodeImpl.RaftNode.RewriteLog` | consensus/raft.go:801-823 | After a rewrite the file holds the whole log and a sync under way counts for nothing older. |
| `RaftNodeImpl.HintIsLower` | consensus/pipeline.go:349-383 | A consistency refusal hints at an index that is positive and not above the refused one. |
| `RaftNodeImpl.BackOff` | consensus/pipeline.go:713-726 | So the next index to send strictly falls, and never below 1. |
| `Ballot.AnswerOk` | consensus/raft.go:955-1016 | With writes that fail before or after their rename, a vote reply keeps: every content a restart may find remembers every vote given, and no term has two. |
| `Ballot.StandOk` | consensus/raft.go:1073-1105 | So does a candidacy; the vote for itself counts as given only if it was saved. |
| `Ballot.ReopenOk` | consensus/raft.go:1673-1680 | So does a restart from any content the file may have, also one whose log raises the term. |
| `Ballot.GivenOk` | consensus/raft_storage.go:509-523 | A vote may be given away once it is saved, without a write or with one. |
| `Ballot.AnswerMeans` | consensus/raft.go:955-1016 | For every pattern of failing writes: the vote is granted if and only if the candidate is an up-to-date voter of no older term, no other of that term has the vote, one of the two writes of a new term works and so does that of the vote, unless it is on disk; a later term is adopted in any case and told once saved. |
| `Ballot.GrantedMeans` | consensus/raft.go:993-1012 | Whatever fails, a granted vote is on disk and was the candidate's to get. |
| `Ballot.StandMeans` | consensus/raft.go:1082-1094 | A candidate asks for votes if and only if its own, in the next term, is on disk. |
| `Ballot.ReopenMeans` | consensus/raft.go:1673-1680 | A restart goes on from the file, or without a vote in the later term of its log, and fails only if that cannot be saved. |
| `Ballot.SaveMeans` | consensus/raft_storage.go:509-542 | Term and vote are saved if and only if they were already or the write works. |
| `Ballot.Voter.SaveMeta` | consensus/raft_storage.go:509-542 | The method does what the model's save does, including the write it skips. |
| `Ballot.Voter.HandleRequestVote` | consensus/raft.go:955-1016 | The method does what the model's answer does, for every pattern of failing writes; with none, it grants exactly when it should, and a granted vote is on disk. |
| `Ballot.Voter.StartElection` | consensus/raft.go:1082-1094 | Likewise for a candidacy. |
| `Ballot.Voter.BecomeFollower` | consensus/raft.go:1284-1302 | Likewise for the adoption of a term. |
| `Ballot.Voter.LoadState` | consensus/raft.go:1673-1680 | Likewise for a restart, with the raised term. |
| `Elections.OneLeaderPerTerm` | consensus/raft.go:1073-1156 | In every run of servers whose term and vote writes fail at will, that die at any point and come back with their term raised by their log, two servers that lead the same term, at the same time or not, are one. |
| `Elections.StepOk` | consensus/raft.go:955-1156 | Every step keeps: each server's votes are remembered, each counted vote was given, each leader had a majority. |
| `Elections.ElectedOnce` | consensus/raft.go:1073-1156 | Two majorities of votes given in one term elect the same server. |
| `Elections.QuorumElects` | consensus/raft.go:955-1156 | From any state of any run, a voter whose next term is later than that of more than half of the voters, all up and not ahead of it, can be elected in that term. |
| `Elections.MajorityLeads` | consensus/raft.go:1107-1156 | A candidate with the votes of more than half of the voters can count them and lead. |
| `Elections.CountLeads` | consensus/raft.go:1140-1156 | Counting a vote makes a candidate leader if and only if more than half have voted for it now. |
| `RecordCodec.ReadBack` | consensus/raft_storage.go:271-295 | Reading at a whole record gives the entry and the offset behind it. |
| `RecordCodec.ReadTorn` | consensus/raft_storage.go:272-287 | Reading at a record cut off anywhere ends the replay. |
| `RecordCodec.ReadSound` | consensus/raft_storage.go:271-295 | Whatever the reader accepts, with a kind the writer writes, is the record of the entry it returns. |
| `LogFile.EncodeRecords` | consensus/raft_storage.go:321-336 | The loop appends the encodings of the entries to the buffer. |
| `LogFile.Replay` | consensus/raft_storage.go:238-318 | A file is accepted exactly if it begins with the header, and the loop computes the fold of its records. |
| `LogFile.ReplayPrefix` | consensus/raft_storage.go:238-318 | Replaying any byte prefix of the file gives the log after the complete records in it, with the good end at the last of them. |
| `LogFile.ReplayWhole` | consensus/raft_storage.go:238-318 | Replaying a whole file gives the fold of all its records. |
| `LogFile.RecordFormat` | consensus/raft_storage.go:238-336 | The record encoding with its length and checksum is such a format. |
| `LogFile.FoldAppends` | consensus/raft_storage.go:296-315 | Records appended at an index of the log overwrite it from there: truncation is implicit in the record stream. |
| `LogFile.PutStarts` | consensus/raft_storage.go:296-315 | A record that reaches back before the log, or lies behind a gap, starts it anew, and the gap is remembered. |
| `LogFile.QueueVersions` | consensus/raft_storage.go:342-356 | The logs a crash may leave after an enqueue are those from before and one per record more. |
| `LogStore.CrashReloads` | consensus/raft_storage.go:238-318 | Whatever prefix of the unsynced bytes a crash leaves, replay yields one of the logs the model lets a crash leave, and the good end lies within the file. |
| `LogStore.TiedEnqueue` | consensus/raft_storage.go:342-356 | For any history, an append or conflict overwrite keeps: replaying file and queue gives the node's log, and every synced-or-later prefix gives its crash versions. |
| `LogStore.TiedSync` | consensus/raft_storage.go:389-448 | A flush drops exactly the versions that a crash can no longer leave. |
| `LogStore.TiedCrash` | consensus/raft_storage.go:152-233 | After a crash and reload the same tie holds for the reloaded log. |
| `LogStore.OwnIsOverwrite` | consensus/raft.go:755-767 | A leader's own append is an overwrite at the end of its log. |
| `LogStore.RealFormat` | consensus/raft_storage.go:321-336 | The real record format meets what the store assumes of it. |
| `LogStore.Store.Enqueue` | consensus/raft_storage.go:342-356 | Refines the node's overwrite, or changes nothing after a failure. |
| `LogStore.Store.Capture` | consensus/pipeline.go:175-185 | Refines the start of a sync. |
| `LogStore.Store.FlushWrite` | consensus/raft_storage.go:389-432 | Writes the queue; a short write, undone or not, fails the store for good and loses nothing that was synced. |
| `LogStore.Store.FlushSync` | consensus/raft_storage.go:434-448 | A flush that reports success refines the model's flush, also when a rewrite overtook it. |
| `LogStore.Store.FlushNothing` | consensus/raft_storage.go:426-432 | With nothing new a flush still vouches for the captured log. |
| `LogStore.Store.Rewrite` | consensus/raft_storage.go:454-504 | Refines the rewrite of a node's log, and ends a failure. |
| `LogStore.Store.Crash` | consensus/raft_storage.go:152-318 | For any bytes the crash leaves, the reloaded log is one of the node's crash versions and the store is valid again. |
| `LogStore.Recover` | consensus/raft_storage.go:152-318 | The same with the real record format. |
| `Reload.LoadState` | consensus/raft.go:1630-1689 | Loading fails exactly on an uncovered gap; else the log is exactly the entries above the snapshot and follows it, and term and vote are those saved unless the log ends in a later term. |
| `Reload.LoadedIs` | consensus/raft.go:1649-1664 | What loading keeps, behind the snapshot, is the log of the conditions below. |
| `Reload.ReloadedGood` | consensus/raft.go:1649-1664 | Dropping the covered prefix by index keeps Log Matching if and only if the log does not reach past the snapshot or agrees with its term. |
| `Reload.ReloadedIs` | consensus/raft.go:1649-1664 | Under the same condition, and only then, loading gives the log the cluster model reloads with. |
| `Reload.StaleSuffixExample` | consensus/raft.go:1649-1664 | A two-entry log behind a one-entry snapshot for which it does not. |
| `Applied.StartExact` | consensus/raft.go:560-597 | A start leaves every committed command up to the applied index executed exactly once, if and only if there is a snapshot, a log, a usable record or an empty state. |
| `Applied.StartedMeans` | consensus/raft.go:560-597 | The applied record is used if and only if no restore was under way, it is not behind the snapshot and the log has its term or nothing at its index; else the snapshot is restored, or the state emptied. |
| `Applied.StartedRestarts` | consensus/raft.go:560-597 | A start so decided is a restart the cluster model allows. |
| `Applied.StartedReloads` | consensus/raft.go:560-597 | Also with a snapshot the log file does not know of yet. |
| `Applied.CommandsOfOne` | consensus/raft.go:1430-1435 | Exactly the writes reach the state machine, not no-ops or configurations. |
| `Applied.AppliedTwiceExample` | consensus/raft.go:575-597 | A leader's no-op and one command for which it does not. |
| `Applied.Node.ApplyEntries` | consensus/raft.go:1440-1484 | However a run is split into batches, it executes its commands once and in order. |
| `Applied.Node.ApplyOneRun` | consensus/raft.go:1398-1428 | A run keeps: the state is the fold of the committed commands up to the applied index; it ends exactly at the commit index or the end of the log, and is recorded with its last term. |
| `Applied.Node.Install` | consensus/snapshot.go:1151-1255 | After any number of an install's stages, and in the middle of its restore, the disk suffices to start from; after all of them the state is the snapshot's. |
| `Applied.Node.RestoreState` | consensus/snapshot.go:364-409 | After any number of a restore's stages the disk suffices to start from, and until the last one no record claims an index. |
| `Applied.Node.Restart` | consensus/raft.go:560-597 | From any such disk a start ends in the fold of the committed commands up to the applied index, or dies at a stage from which it can start again. |
| `Applied.Node.Capture` | consensus/snapshot.go:447-596 | Compaction keeps that invariant. |
| `SnapshotFile.WriteThenRead` | consensus/snapshot_file.go:206-255 | Opening and reading a file the writer finished gives the same metadata and exactly the written records in order, then the end. |
| `SnapshotFile.VerifyFile` | consensus/snapshot_file.go:417-438 | A file that passes holds exactly the encoding of the records read, and a file the writer finished passes. |
| `SnapshotFile.ReadAll` | consensus/snapshot_file.go:417-438 | The read loop ends with the records the body encodes, or refuses. |
| `SnapshotFile.FileOpens` | consensus/snapshot_file.go:386-414 | A finished file opens with its metadata. |
| `SnapshotFile.Open` | consensus/snapshot_file.go:386-414 | Any file whose size differs from what its header says is rejected. |
| `SnapshotFile.ResizedRejected` | consensus/snapshot_file.go:386-414 | A finished file cut off or extended by any bytes is rejected. |
| `SnapshotFile.HeaderRoundTrip` | consensus/snapshot_file.go:105-167 | Decoding an encoded header gives the same metadata and promise. |
| `SnapshotFile.ReadBack` | consensus/snapshot_file.go:332-382 | Reading at each record gives that record, and at the trailer the end; the marker is never taken for a record. |
| `SnapshotFile.ReadSound` | consensus/snapshot_file.go:332-382 | What the reader accepts as record or trailer is the encoding of one, whatever the bytes. |
| `SnapshotFile.LittleEndianOk` | consensus/snapshot_file.go:105-129 | Little-endian integers are inverse to their decoding at both widths. |
| `SnapshotFile.SnapshotWriter.Write` | consensus/snapshot_file.go:206-225 | Appends a record, or refuses one too long and changes nothing. |
| `SnapshotFile.SnapshotWriter.FinishFile` | consensus/snapshot_file.go:230-255 | The file is header, records and trailer; refused exactly if the configuration does not fit the header. |
| `SnapshotFile.SnapshotReader.Next` | consensus/snapshot_file.go:332-382 | Each call returns the next item of the body and keeps: what was read so far encodes the records returned. |
| `ChunkTransfer.RunOk` | consensus/snapshot.go:982-1106 | Over any run with any number of senders, losses, repeats, reorderings, failed writes and switches, the receive file is a prefix of the one file its name means, only whole files are installed, and what counts as installed the follower holds. |
| `ChunkTransfer.InstalledIsHeld` | consensus/snapshot.go:982-1030 | Over every such run, a follower answers that a snapshot is installed only if its own snapshot or what it has applied includes it. |
| `ChunkTransfer.TransferEnds` | consensus/snapshot.go:776-1106 | A transfer that nothing disturbs ends: after some rounds the whole file is received and its install begun. |
| `ChunkTransfer.TransferHeard` | consensus/snapshot.go:832-861 | Once that install is done the follower holds the snapshot and the sender hears so and stops. |
| `ChunkTransfer.ReplyMeans` | consensus/snapshot.go:982-1106 | Each kind of reply (installed, failed, busy, installing) is given if and only if its condition on term, transfer in hand and covered index holds. |
| `ChunkTransfer.StartMeans` | consensus/snapshot.go:1009-1038 | A first chunk that nothing covers begins the file with exactly its data. |
| `ChunkTransfer.ContinueMeans` | consensus/snapshot.go:1040-1057 | The chunk that fits is appended; any other changes nothing and is told the offset. |
| `ChunkTransfer.CompleteMeans` | consensus/snapshot.go:1059-1106 | The last chunk starts the install of everything received. |
| `ChunkTransfer.UnluckyMeans` | consensus/snapshot.go:1019-1106 | What a file that cannot be created or written, or an install that cannot be started, leaves. |
| `ChunkTransfer.RestMeans` | consensus/snapshot.go:982-1018 | In all other cases only the term moves and a failed transfer is forgotten. |
| `ChunkTransfer.ReceiveOk` | consensus/snapshot.go:982-1106 | One truthful chunk keeps that. |
| `ChunkTransfer.SenderTruthful` | consensus/snapshot.go:776-862 | Whatever a follower answers, a sender sends only bytes of its file at their offset. |
| `ChunkTransfer.FollowedAccepted` | consensus/snapshot.go:776-862 | A chunk sent at the follower's offset is accepted whole, and the last one starts the install. |
| `ChunkTransfer.Sender.Next` | consensus/snapshot.go:786-808 | The next chunk is the file's bytes at the offset, up to the chunk size, marked as last exactly at the end. |
| `ChunkTransfer.Sender.OnReply` | consensus/snapshot.go:822-861 | Goes on exactly unless the reply is of a later term, installed or failed: at the asked offset, or at the end while the follower installs or is busy. |
| `ChunkTransfer.Receiver.HandleChunk` | consensus/snapshot.go:982-1106 | Does what the model's receive does, starts an install exactly when that does, and says installed only of a transfer installed or an index its snapshot or applied state covers. |
| `Membership.ChainedMeet` | consensus/membership.go:300-302 | Along a log of single-voter changes, a majority of each configuration meets a majority of the next. |
| `Membership.MajoritiesMeet` | consensus/membership.go:300-302 | Majorities of configurations that differ in at most one voter meet. |
| `Membership.MeetIff` | consensus/membership.go:300-302 | Majorities of two configurations always meet if and only if together they have fewer voters than two quorums need. |
| `Membership.ChainedVoters` | consensus/membership.go:503-542 | Once there are voters, the voter set never becomes empty again. |
| `Membership.LatestCompacted` | consensus/membership.go:261-296 | The configuration at the cut as new base never changes the one derived from the rest of the log. |
| `Membership.LatestMeans` | consensus/membership.go:261-276 | The configuration in force is the last readable one of the log, or the base if there is none. |
| `Membership.ChangesMean` | consensus/membership.go:420-632 | Exactly who votes and who learns after an addition, a promotion and a removal. |
| `Membership.Server.ReachableMeans` | consensus/membership.go:334-350 | A quorum is reachable if and only if more than half of the voters, this server included, were heard from. |
| `Membership.ChainedCompacted` | consensus/membership.go:281-296 | Compaction keeps a log of single-voter changes one. |
| `Membership.AddLearnerStep` | consensus/membership.go:420-472 | Adding a learner changes no voter, and keeps ids distinct if and only if the id is no member yet. |
| `Membership.PromoteStep` | consensus/membership.go:580-632 | A promotion changes one voter and keeps ids distinct. |
| `Membership.RemoveStep` | consensus/membership.go:503-542 | A removal changes at most one voter and is allowed exactly if some voter stays. |
| `Membership.AddedTwice` | consensus/membership.go:429-451 | A run of the server in which a member is added again after the wait and is both voter and learner. |
| `Membership.TwoLeadersApart` | consensus/membership.go:382-390 | Two leaders of different terms append changes to the same committed configuration, and their majorities do not meet. |
| `Membership.BranchesApart` | consensus/membership.go:382-390 | Those majorities, for any five servers. |
| `Membership.Server.constructor` | consensus/membership.go:40-43 | A server starts with its boot configuration, which may be empty for one that joins. |
| `Membership.RemoveID` | consensus/membership.go:157-165 | The loop removes every occurrence and nothing else. |
| `Membership.Server.SetConfig` | consensus/membership.go:226-255 | Peers, voter peers and the removed flag are those of the configuration. |
| `Membership.Server.RefreshConfig` | consensus/membership.go:261-276 | The backward scan finds the last configuration of the log, or the base. |
| `Membership.Server.ConfigAt` | consensus/membership.go:281-296 | The scan finds the configuration in force at an index. |
| `Membership.Server.Propose` | consensus/membership.go:356-378 | Appends the configuration, and then all earlier ones of the log are at or below the commit index; else changes nothing. |
| `Membership.Server.AddFinish` | consensus/membership.go:442-472 | The outcome exactly: a learner is added only with no change pending and a majority reachable; ids stay distinct if and only if it was no member. |
| `Membership.Server.AddMember` | consensus/membership.go:420-472 | Without a wait in between, ids stay distinct. |
| `Membership.Server.RemoveFinish` | consensus/membership.go:522-542 | The outcome exactly: a member is removed only if a voter stays, and it is gone. |
| `Membership.Server.RemoveMember` | consensus/membership.go:503-542 | With its first checks: unknown members and the last voter are refused. |
| `Membership.Server.MaybePromote` | consensus/membership.go:580-632 | With distinct ids, the first learner that holds what the leader had when its round began, was quick, and has more than half of the new voters around it is promoted, if the entry can be written, and nobody if there is none; and which rounds begin or begin again. |
| `Membership.Server.ScanFinds` | consensus/membership.go:590-632 | The scan finds the first learner for which that holds, said of match index, rounds and sets of servers. |
| `Membership.Server.ScanRounds` | consensus/membership.go:590-632 | The round of a learner looked at begins now if it had none or its last is over, and goes on otherwise. |
| `Membership.Server.Compact` | consensus/snapshot.go:574-595 | Compaction leaves the configuration in force unchanged. |
| `Membership.Server.TakeEntries` | consensus/pipeline.go:384-413 | A follower's log after an overwrite gives its configuration again, also for a server that joins with none. |
| `Membership.Server.Install` | consensus/snapshot.go:1186-1204 | Snapshot metadata and kept suffix give the configuration of the whole log. |
| `Replication.LowMarkOk` | replication/engine.go:1364-1388 | No lost write: every write owed to a replica and older than its watermark, less the skew, is on it, unless the engine's own mark says that deletes may be missing there, or did before the process or registration began. |
| `Replication.CatchUpTracks` | replication/engine.go:1230-1267 | At the start of a catch-up every owed write is still tracked, if and only if none that only the flag stood for is older than the start read earlier. |
| `Replication.UnloweredForgetsNothing` | replication/engine.go:1230-1267 | If the flag still says what was read, nothing is forgotten. |
| `ReplicationRuns.EvictedWhileRecovering` | replication/engine.go:1209-1267 | A run that ends with a write neither on the replica nor known to be missing. |
| `Replication.CatchUpKeeps` | replication/engine.go:1252-1267 | The start of a catch-up keeps the invariant for every replica of which it forgets nothing. |
| `Replication.CatchUpDoneKeeps` | replication/engine.go:1272-1287 | So does its end, with success or without. |
| `Replication.FirstTracked` | replication/engine.go:604-637 | A replica is tracked when it is registered if and only if the file was damaged, its saved mark reaches back to all it is owed and lacks, or, unlisted, it lacks nothing the buffer has not. |
| `ReplicationRuns.CrashWhileRegistering` | replication/engine.go:579-637 | A run in which an unlisted one is not: a second crash while replicas register one by one. |
| `ReplicationRuns.CrashWhileJoining` | replication/membership.go:22-47 | A run in which a listed one is not: watermarks are recorded between the two sections that add an empty member, and the process dies before they are recorded again. |
| `Replication.RightMarks` | replication/state.go:158-184 | The file is right about every replica it was written for after that last became an empty member. |
| `Replication.DroppedMeans` | replication/engine.go:492-520 | Eviction drops exactly the given number of oldest writes, and each replica is flagged for exactly those it had not acked, from the earliest of them. |
| `Replication.BoundedFits` | replication/engine.go:445-511 | The buffer stays within its limit: nothing goes while it holds, and a write above it makes a tenth go, at least one. |
| `Replication.FlagManyMeans` | replication/engine.go:1018-1051 | A failed send flags a replica for exactly what of the batch is no longer retained, from the earliest of it. |
| `Replication.AckManyMeans` | replication/engine.go:534-549 | Acked writes are marked, and leave the buffer if and only if every registered replica has acked them. |
| `ReplicationRuns.GapForgotten` | replication/engine.go:353-356 | A run in which the mark for missing deletes is gone after a restart: it lives as long as the process. |
| `Replication.Engine.constructor` | replication/engine.go:364-378 | A new engine satisfies the invariant. |
| `Replication.Engine.OnLocalWrite` | replication/engine.go:445-480 | Registers the write, bounds the buffer and marks lagging replicas, keeping the invariant. |
| `Replication.Engine.EvictOldest` | replication/engine.go:492-511 | Drops the oldest tenth, at least one, and flags. |
| `Replication.Engine.RecordAcks` | replication/engine.go:534-549 | Acked writes are no longer retained for the replica and leave the buffer once all have them. |
| `Replication.Engine.SendToReplica` | replication/engine.go:1018-1068 | Success covers and acks all of a batch; failure flags what is no longer retained. |
| `Replication.Engine.RecoverBegin` | replication/engine.go:1230-1238 | Reads the flag; only a failed replica starts. |
| `Replication.Engine.CatchUpBegin` | replication/engine.go:1241-1267 | Clears the flag and hands over to the catch-up; the mark that deletes may be missing is set if and only if it was or the start is too old and the replica is no fresh member; loses track exactly as the condition says, and of nothing if the start is still the flag's. |
| `Replication.Engine.CatchUpEnd` | replication/engine.go:1272-1287 | Success covers what the source had from the start on; failure flags it again from the start or earlier; exactly what the record is then. |
| `Replication.Engine.RecoverFinish` | replication/engine.go:1303-1322 | A replica with nothing retained for it returns to service unless flagged meanwhile. |
| `Replication.Engine.AddReplica` | replication/engine.go:604-656 | Starts from the saved mark, from the beginning if the file was damaged, else in sync, with exactly that record; track is kept if and only if that start covers all it is owed. |
| `Replication.Engine.AddMemberReplica` | replication/membership.go:22-47 | A new member is owed everything and flagged from the beginning. |
| `Replication.Engine.MarkFresh` | replication/membership.go:26-35 | The second of its two sections, whatever ran in between. |
| `Replication.Engine.RemoveReplica` | replication/engine.go:680-696 | Forgets the replica and frees exactly the writes that waited only for it. |
| `Replication.Engine.Watermarks` | replication/engine.go:1364-1388 | Each mark is now, the flag, the running catch-up or the oldest write not acked, whichever is least, so every older write is on its replica or under its mark for missing deletes. |
| `Replication.Engine.Persist` | replication/state.go:158-184 | The file is written exactly if the write works and the snapshot is not older, with its generation; it never drops a replica it listed. |
| `Replication.Engine.Restart` | replication/state.go:128-151 | Everything owed stays owed; track is lost of exactly the replicas the file is wrong about, none of which it was written for since they last became empty. |
| `Replication.Engine.Drained` | replication/membership.go:84-99 | True exactly if nothing is retained and all are in sync; then every replica that is tracked holds every write it is owed, unless its own mark, or one of an earlier process, says that deletes may be missing. |
| `Migration.GoneIsSafe` | cluster/partition_transfer.go:354-501 | Whatever goes with a deleted key left this node's replica set and was acknowledged by every current replica. |
| `Migration.DerivedAcked` | cluster/partition_transfer.go:424-464 | Whoever acknowledged a record in derived-first order acknowledged its derived keys. |
| `Migration.AllSentDeletes` | cluster/partition_transfer.go:466-501 | When everything was sent, every key that leaves and could be read is deleted. |
| `Migration.NeededReceived` | cluster/partition_transfer.go:379-413 | A destination that acknowledged its list has every key it newly needs: as a current replica of one that leaves, or a new one of one that stays. |
| `Migration.ReceivedNeeded` | cluster/partition_transfer.go:379-413 | And no other key. |
| `Migration.PlainRoutes` | cluster/partition_map.go:718-743 | Keys of no derived family route as themselves. |
| `Migration.EmptyRoutes` | cluster/partition_map.go:718-743 | So do those of a derived family that name no record. |
| `Migration.DerivedRoutes` | cluster/partition_map.go:718-743 | Index keys route to the record they are derived from. |
| `Migration.PinnedFamilies` | cluster/partition_transfer.go:515-532 | Vector-namespace and index definitions are pinned and route as themselves. |
| `Migration.PinnedRoutesAsItself` | cluster/partition_transfer.go:515-532 | Pinned keys route as themselves. |
| `Migration.TransferAgent.MigrateToNewOwners` | cluster/partition_transfer.go:354-501 | Said of replica lists, baseline and acknowledgements alone: a key gone is no longer this node's, not pinned, and acknowledged by every current replica; after success every readable key is on each replica that newly needs it, also if it stays here, and no key that left remains; nobody else gets a key and nobody gets another value; it fails exactly if a list was not acknowledged, and only then the baseline stays. |
| `Migration.TransferAgent.Plan` | cluster/partition_transfer.go:367-416 | Each destination's list is exactly the readable keys it newly needs, with their values; exactly the readable keys that leave are collected, and the readable pinned keys in order. |
| `Migration.PinnedFirst` | cluster/partition_transfer.go:424-435 | A destination that acknowledged anything else has every readable pinned key. |
| `Migration.TransferAgent.Send` | cluster/partition_transfer.go:424-464 | For any acknowledged prefix at each destination, what is acknowledged is a prefix in derived-first order. |
| `Migration.TransferAgent.ChooseDeletable` | cluster/partition_transfer.go:466-480 | The loop chooses exactly the deletable keys. |
| `Ring.OrderAfterAdd` | cluster/partition_map.go:604-617 | After a node with free labels is added, the successor order of every hash is the old one with the node put in somewhere. |
| `Ring.RemoveUndoesAdd` | cluster/partition_map.go:620-643 | Removing a node gives the ring from before it was added back, if and only if none of its labels was taken. |
| `Ring.AddedHolds` | cluster/partition_map.go:604-617 | Every member keeps all its points, if and only if none of the new node's labels was taken. |
| `Ring.FreeExample` | cluster/partition_map.go:604-617 | Such labels exist. |
| `Ring.HoldsUnique` | cluster/partition_map.go:604-643 | The ring is determined by its members, not by the order of changes. |
| `Ring.OrderUnique` | cluster/partition_map.go:667-695 | The successor order is determined by the ring. |
| `Ring.ConsistentHashRing.AddNode` | cluster/partition_map.go:604-617 | The loop adds the node's points and keeps the keys sorted. |
| `Ring.ConsistentHashRing.RemoveNode` | cluster/partition_map.go:620-643 | Removes exactly its points. |
| `Ring.ConsistentHashRing.Search` | cluster/partition_map.go:646-664 | Binary search finds the first point at or after the hash. |
| `Ring.ConsistentHashRing.GetNode` | cluster/partition_map.go:646-664 | The owner is the node with the nearest point clockwise, with wrap-around. |
| `Ring.ConsistentHashRing.GetNodeWithReplicas` | cluster/partition_map.go:667-695 | The nodes are the nearest in clockwise order, and fewer than asked only if there are no more. |
| `Placement.PickShape` | cluster/partition_map.go:502-526 | A choice has min(rf, nodes) distinct nodes on min(rf, racks) racks. |
| `Placement.PickIff` | cluster/partition_map.go:502-526 | A node is chosen if and only if it opens one of the first racks, or fills up when racks run out. |
| `Placement.PickOrder` | cluster/partition_map.go:502-526 | Nodes that open a rack are listed first, then the others, each in the order of the walk. |
| `Placement.OnlyNewGains` | cluster/partition_map.go:502-526 | With one node more on the walk no other node is newly chosen. |
| `Placement.TurnedRacks` | cluster/partition_map.go:502-526 | Where the walk starts does not matter for the racks it meets. |
| `Placement.PickReplicas` | cluster/partition_map.go:502-526 | The two-pass loop makes the choice of the turned list. |
| `PartitionMap.Balanced` | cluster/partition_map.go:438-493 | Each active node leads count/n partitions or one more. |
| `PartitionMap.Spread` | cluster/partition_map.go:438-493 | Each partition has min(rf, nodes) distinct copies on min(rf, racks) racks. |
| `PartitionMap.TablesAgree` | cluster/partition_map.go:438-493 | Members that rebalance independently compute the same table. |
| `PartitionMap.RangesTile` | cluster/partition_map.go:470-484 | No hash is in two ranges, and a hash is in one if and only if it is below the last multiple of the width. |
| `PartitionMap.RangesJoin` | cluster/partition_map.go:470-484 | Ranges follow each other without gap or overflow. |
| `PartitionMap.OnlyNewMemberGains` | cluster/partition_map.go:314-374 | When a member with free labels joins, no other member becomes a replica of any hash. |
| `PartitionMap.TopHashExample` | cluster/partition_map.go:470-484 | With 256 partitions the last 256 hashes are in no range, and the one before them is in one. |
| `PartitionMap.PartitionMap.AddNode` | cluster/partition_map.go:186-210 | Adds node and points once, or refuses a known one; for any hash function, and members keep their points if and only if the labels were free. |
| `PartitionMap.PartitionMap.RemoveNode` | cluster/partition_map.go:220-235 | Removes node and points, or refuses an unknown one. |
| `PartitionMap.PartitionMap.GetReplicasForKey` | cluster/partition_map.go:304-332 | The replicas are the rack-aware choice along the successor order of the members that have points, which are all of them if no labels collided. |
| `PartitionMap.PartitionMap.Rebalance` | cluster/partition_map.go:438-493 | The loop fills the table as specified over the active nodes in id order, or changes nothing if there are none. |
| `Frames.PeekGrows` | netfront/netfront.cpp:612-690 | A frame once recognised or refused is not seen differently when more bytes arrive. |
| `Frames.Decode` | netfront/netfront.cpp:620-672 | The decoder with its batch loop recognises exactly the frames of the format. |
| `FrameCodec.FrameFound` | netfront/netfront.cpp:612-672 | Every request, as clients encode it, is recognised at the head of the stream with its command and length, whatever follows. |
| `FrameCodec.FramePartial` | netfront/netfront.cpp:616-665 | As long as it is incomplete the loop waits for more bytes, never for more than the request has. |
| `FrameCodec.FrameThere` | netfront/netfront.cpp:612-672 | Conversely, whatever is recognised is the encoding of a request. |
| `FrameCodec.RequestNotRefused` | netfront/netfront.cpp:612-672 | No part of a request, and none with more behind it, is refused. |
| `FrameCodec.RefusedWhen` | netfront/netfront.cpp:619-672 | Unknown commands, values too long and batches of no or too many entries are refused. |
| `FrameCodec.LaidRefused` | netfront/netfront.cpp:655-663 | So is a batch with a value too long behind any number of good entries. |
| `FrameCodec.StreamCut` | netfront/netfront.cpp:612-690 | Any requests sent one behind the other are cut apart again, all of them, in order, with their commands. |
| `Frames.EndGrows` | netfront/netfront.cpp:612-690 | The requests in a byte stream are determined by it, however it is cut into receives. |
| `Netfront.AnswersInOrder` | netfront/netfront.cpp:540-562 | In every state that keeps the invariant, the answers of a connection are one per request, in request order, and asked equals answered plus outstanding. |
| `Netfront.DrainOk` | netfront/netfront.cpp:540-562 | Handing over the next completion keeps one connection's order, and its counter is positive. |
| `Netfront.ParseOne` | netfront/netfront.cpp:612-690 | Parsing a request puts it behind all earlier ones; a write stops the parser. |
| `Netfront.SpawnOk` | netfront/netfront.go:198-416 | A write's goroutine takes over everything left of its connection in the batch. |
| `Netfront.DeferOk` | netfront/netfront.cpp:929-940 | A deferred chain blocks its connection before it is handed to a goroutine. |
| `Netfront.PeekFraming` | netfront/netfront.cpp:612-690 | The frame decoder meets what the order argument assumes of one. |
| `NetLoop.Loop.Parse` | netfront/netfront.cpp:612-690 | The parse loop does exactly what the frames demand, keeps the order invariant and stops only with a reason: blocked, closing or no complete frame. |
| `NetLoop.TakenInOrder` | netfront/netfront.cpp:612-690 | What one call of the parser takes are the next requests of the stream, with their commands. |
| `NetLoop.TakenShaped` | netfront/netfront.cpp:629-685 | They are reads, then at most one write or one group of at most 256 PUTs. |
| `NetLoop.TakenStops` | netfront/netfront.cpp:612-690 | It stops for a refused frame, behind a write, behind PUTs that the next frame does not join, or for want of a complete frame, and for nothing else. |
| `NetLoop.Loop.OnRecv` | netfront/netfront.cpp:513-523 | Any bytes received at any cut keep it. |
| `NetLoop.Loop.OnWake` | netfront/netfront.cpp:540-548 | Taking over the posted completions keeps it. |
| `NetLoop.Loop.OnWakeNext` | netfront/netfront.cpp:549-560 | Each completion is the next answer of its connection; behind the last one owed, and only then, the connection is free and its input parsed on. |
| `NetLoop.Loop.ExecNext` | netfront/netfront.go:198-416 | Each request of a batch is answered inline, chained or written as its kind and the state of its connection demand, keeping order. |
| `NetLoop.Loop.DeferNext` | netfront/netfront.go:398-415 | A chain left at the end of a batch is handed to a goroutine, keeping order. |
| `NetLoop.Loop.Post` | netfront/netfront.cpp:718-776 | The queued error is appended behind the answers given so far; a blocked connection with nothing outstanding goes on; exactly the parsed input is dropped, and nothing is moved under requests not yet executed. |
| `NetLoop.RefusalInOrder` | netfront/netfront.cpp:569-578 | The error for a refused frame comes behind the answers to all requests before it if and only if none of them is outstanding. |
| `NetLoop.RefusedBehindWrite` | netfront/netfront.cpp:728-734 | A run in which it comes first. |
| `NetLoop.RefusedFrames` | netfront/netfront.cpp:612-640 | Frames for that run. |
| `NetLoop.Loop.GoAnswer` | netfront/netfront.cpp:904-927 | A goroutine posts its next answer at any moment, keeping order. |

## Findings

Properties that do not hold of the code as it is. Each has a concrete case and the exact
condition under which the property holds.

1. **A log behind a snapshot is cut by index only** (consensus/raft.go:1649-1664).
   `Reload.StaleSuffixExample` is a log whose suffix contradicts the snapshot it is put
   behind. `Reload.ReloadedGood`: the result keeps Log Matching if and only if the log does
   not reach past the snapshot or has the snapshot's term at its index. The case needs a
   crash between the rename of a snapshot and the rewrite of the log, on an install, or on a
   capture whose applied entries are not yet in the log file. Every other such crash is a
   step of the cluster model, and `Preservation.ReloadKeeps` shows that it is safe.
2. **A first command can be executed twice** (consensus/raft.go:575-597).
   `Applied.AppliedTwiceExample`: a follower executes entry 2 before its own copy is on disk
   and dies before the first record is; it starts with an empty log, no snapshot and no
   record, keeps its state and executes the entry again. `Applied.StartExact`: a start is
   exact if and only if there is a snapshot, a log, a usable record or an empty state.
3. **A write can be forgotten between reading and clearing the resync flag**
   (replication/engine.go:1230-1267). `ReplicationRuns.EvictedWhileRecovering` reaches the
   state by calls of the engine. `Replication.CatchUpTracks` is the exact condition, and
   `Replication.UnloweredForgetsNothing` says that it holds as long as the flag was not
   lowered in between.
4. **A crash can make the engine start a replica's catch-up too late, or not at all**
   (replication/engine.go:579-637, replication/state.go:158-184,
   replication/membership.go:22-47). `ReplicationRuns.CrashWhileRegistering`: a replica the
   file no longer lists is taken to be in sync and lacks a write.
   `ReplicationRuns.CrashWhileJoining`: a new member is listed with a mark from before it was
   marked empty. `Replication.Engine.AddReplica` has the exact condition for what a replica
   is registered with, `Replication.Engine.Restart` for when the file is wrong; it is right
   about every replica it was written for since that was last marked empty.
5. **A member can be added twice** (consensus/membership.go:429-451): membership is checked
   before the wait for a quorum and not after it. `Membership.AddedTwice` is a run;
   `Membership.AddLearnerStep` and `Membership.Server.AddFinish`: ids stay distinct if and only
   if the id is no member at that point.
6. **The highest hashes are in no partition's range** (cluster/partition_map.go:470-484).
   `PartitionMap.TopHashExample` for 256 partitions. `PartitionMap.RangesTile`: a hash is in a
   range if and only if it is below the partition count times the width, which leaves out the
   remainder of the division and the maximum.
7. **The error for a refused frame can come before earlier answers**
   (netfront/netfront.cpp:569-578, netfront/netfront.cpp:728-734), against the comment there.
   `NetLoop.RefusedBehindWrite` is a run with a PUT before the frame.
   `NetLoop.RefusalInOrder`: it comes last if and only if no request before it is outstanding.
8. **Two leaders can append configurations whose majorities do not meet**
   (consensus/membership.go:382-390): a change is allowed once the configuration in force is
   committed, without an entry of the leader's own term being so. `Membership.TwoLeadersApart`
   is a run. Along one log majorities always meet (`Membership.ChainedMeet`);
   `Membership.MeetIff` is the exact condition for any two configurations.

The code says of a candidacy whose write failed that the node stays a follower; a node that
was a candidate stays a candidate (consensus/raft.go:1082-1094). `Elections` follows the code,
and a later vote for the old candidacy is not counted there.

## Left out

- RaftNodeImpl.RaftNode.AppendEntries: requests of older releases that do not want a match index are not modelled.
- RaftNodeImpl.RaftNode.InstallSnapshot: the rename of the file and the rewrite of the log are one step here; a crash between them is a step of its own in Cluster, with the condition of the first finding.
- RaftNodeImpl.RaftNode.TruncatePrefix: likewise for a capture; Cluster leaves out exactly the crashes of the first finding.
- RaftNodeImpl.RaftNode.constructor: a node that loads its state is not built here; loading is in Reload, LogStore, Ballot and Applied.
- Safety.StateMachineSafety: the voter set is fixed, since by the eighth finding majorities of changing ones need not meet.
- Safety.ElectionSafety: term and vote are saved with every step of the cluster model, so no restart raises a term there; failing writes, unsaved terms and raised terms are in Elections.
- Elections.OneLeaderPerTerm: what a restart reads from the file stays there; a later power failure that undoes a rename already read is not modelled.
- Safety.CommitSurvivesCrashes: a server that finds its log unwritable truncates what it had not synced (consensus/pipeline.go:204-229); this is no step of the cluster model.
- LogStore.Store.Rewrite: a rewrite that fails is not modelled; commands are shorter than 2^30 - 17 bytes, as the reader accepts no longer record.
- LogStore.Store.Crash: a crash leaves a prefix of the bytes not yet synced, and the records a restart replays are taken to be on disk.
- Applied.Node.Restart: requires the condition of StartExact, and the state machine comes back with contents one of its records vouches for, or with any if it vouches for none.
- Membership.Server.SetConfig: addresses and the notification of the application are not modelled.
- Membership.Server.RemoveFinish: the wait for a quorum and the reachability window are a set of servers heard of.
- SnapshotFile.WriteThenRead: the checksum is any function that can be continued, the configuration's encoding any that decodes; bodies are shorter than 2^64 bytes.
- ChunkTransfer.RunOk: one name means one file, as ids are random; a transfer's end and the polling delays are events in any order.
- Replication.LowMarkOk: needs the clock to be at most ten seconds ahead of a registered write's timestamp, and holds for replicas of which track was not lost, which the third and fourth finding are about; of writes under the mark for missing deletes it is not known which the catch-up brought.
- Replication.Engine.CatchUpBegin: an engine without a catch-up source, which only logs the loss, is not modelled.
- Replication.Engine.Restart: with no state file at all replicas are taken to be caught up, as in the code; the model has a file from the start.
- Migration.TransferAgent.MigrateToNewOwners: a local delete that fails, time to live, and writes that arrive during a migration are not modelled.
- PartitionMap.PartitionMap.Rebalance: requires a replication factor of at least 1; with 0 the code indexes an empty list.
- Netfront.AnswersInOrder: is about the answers to parsed requests; the error for a refused frame is in RefusalInOrder.
- NetLoop.Loop.Parse: a connection closed by its peer, generation numbers and reused slots, and the read-ahead limits are not modelled.
- Liveness beyond the existence of runs (Progress, Elections, ChunkTransfer); timers, elections' random timeouts, back-off and batching delays: steps in any order stand for them.
- Pre-votes, the single-shot snapshots of older releases, migration of older files, forced single-node clusters and `AddPeer`: they change no state the proofs are about, or bypass consensus.
- Transports, TLS, gob encoding, gossip and the signed client: the network is a set of messages.
- The values replicas converge to in replicated mode, and `WaitForReplication`.
- The storage engine, the admin interface, clients, metrics, hardware code and backups.
