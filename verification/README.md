# A verified model of the key-value store

The store replicates client operations with Raft, keeps the Raft state in a log file, applies what
is committed to a log-structured storage engine, and answers linearizable reads. This project models
those parts in Dafny and proves what they promise, over every run.

| files | part of the store |
|---|---|
| `raft_types` `raft_node` `raft_machine` | one Raft node: a function per handler on a node value, and the class whose methods do the same in place |
| `raft_cluster` `raft_steps` `raft_runs` | a cluster as a state machine: timeouts, proposals, reads, compactions, restarts, crashes anywhere inside a persist, and deliveries of any message ever sent, late, twice or never |
| `raft_polls` `raft_links` `raft_terms` `raft_reads` `raft_confirmed` `raft_prevotes` `raft_snapshots` `raft_pipeline` | what holds of every run that is possible: elections, log matching, terms, reads, pre-votes, snapshots, sending |
| `raft_progress` `raft_catchup` | what a majority is enough for: elections, catching up, commits, reads |
| `raft_core` `raft_events` `raft_elections` `raft_sending` `raft_replication` `raft_stable` `raft_safety` `raft_theorems` | commit safety: a history of the cluster, its inductive invariant, and the theorems |
| `raft_limits` `raft_losses` | runs in which a promise fails, with the condition under which it holds |
| `codec` `wal` `raft_storage` `raft_persistence` `raft_files` | encodings, the write-ahead log, the Raft state file, and the cluster over its files |
| `memtable` `skiplist` | sorted runs, the skip list and the memtable |
| `sstable_format` `sstable_bloom` `sstable_table` `sstable_cache` `sstable_files` | SSTables: blocks, filter, index, cache, writer, reader, iterator |
| `engine_store` `engine_steps` `engine_invariant` `engine_runs` `engine_limits` `engine` `engine_open` `engine_snapshot` `engine_readers` | the engine: a machine over its files, the class that refines it, and its tables read through their files |
| `server_replica` `server` `server_runs` | commands, replicas of one committed log, the server's loop, and the loop over a run of the cluster |

Where the code and its comments disagree, the code is followed. Six promises of the comments do not
hold of the code; each has a run or an input that shows it and a condition under which it holds:

- A snapshot delivered after the entries it does not cover drops them (`raft/raft.go:922-952`), and a
  committed entry is lost: `RaftLosses.CommittedThenLost`, `CommittedTwice`. Without such a delivery,
  commits are safe: `RaftSafety.StateMachineSafety`, `LeaderCompleteness`.
- A read index need not reflect every write committed before the request (`raft/raft.go:1064-1069`):
  `RaftLimits.StaleRead`. It does unless the first entry the leader has not committed is of an earlier
  term, which the leader can see for itself: `RaftReadFreshness.ReadFresh`.
- A duplicate of the first AppendEntries brings down a node that has compacted two entries:
  `RaftLosses.DuplicatePanics`; `RaftLimits.AppendPanicsAnywhere` says exactly when.
- Pre-Vote answers teach no term, so a node that was away does not always rejoin (`raft/raft.go:551-571`):
  in the run of `RaftLosses.Stalled` two nodes of three turn each other down, and neither gets to stand;
  `RaftProgress.StandsExactly` says exactly when a node gets to stand.
- A crash in the middle of a flush does not always recover (`engine/engine.go:42-43`): a half-written
  table keeps the directory from opening: `EngineLimits.MidFlush`; `EngineRuns.OpensAfterStop`
  says exactly when.
- A crash in the middle of a restore can leave the snapshot's table in the store, and a log file removed
  too late can bring back an old value (`engine/engine.go:947-954`, `engine/engine.go:791-802`):
  `EngineLimits.UncommittedSeen`, `LateRemoval`; `EngineInvariant.StepExact` says exactly when.

## Model

| member | source | states |
|---|---|---|
| RaftPolls.ElectionSafety | raft/raft.go:604-645 | in every possible run, two nodes that lead the same term, at whatever two points, are one node |
| RaftPolls.PolledStep | raft/raft.go:506-528 | every possible step, a crash inside a persist included, keeps one vote per node and term, a majority behind every leader, and the disk in step with the node |
| RaftLinks.LogsMatch | raft/raft.go:842-857 | in every possible run, two logs with entries of one term at an index agree on every earlier entry both still hold, whatever snapshots were installed |
| RaftLinks.OneLink | raft/raft.go:1040-1057 | an index and a term have one entry and one predecessor term, ever, over all logs, disks and messages of a possible run |
| RaftSafety.StateMachineSafety | raft/raft.go:988-1004 | whatever two nodes commit at one index, at whatever points of a run, is one entry, as long as no installed snapshot dropped entries that follow its own last one |
| RaftSafety.LeaderCompleteness | raft/raft.go:780-802 | under the same condition, what a node has committed is in the log of every leader of a later term, and of its own term from then on |
| RaftInvariant.StepGood | raft/raft.go:506-528 | every step but a snapshot that drops what follows it keeps the cluster's invariant: each node, disk and message agrees with the history, and what may be chosen is in every later leader |
| RaftElections.WonElection | raft/raft.go:804-819 | a candidate with a majority of votes stands in a term nobody else has won |
| RaftElections.CommittableChosen | raft/raft.go:988-1004 | an index the commit rule accepts is an entry of the leader's term that a majority has matched |
| RaftEvents.UpToDateHolds | raft/raft.go:780-802 | a log that passes the up-to-date test against a voter's holds whatever the voter has matched that may still be chosen |
| RaftEvents.VoteKeeps | raft/raft.go:780-802 | granting a vote to an up-to-date candidate keeps the protocol invariant |
| RaftEvents.ElectKeeps | raft/raft.go:629-645 | an election by a majority keeps it: the winner's log holds all that may be chosen |
| RaftEvents.MatchKeeps | raft/raft.go:821-865 | bringing a node's log in line with its leader's keeps it, and nothing the node has matched and may still be chosen is lost |
| RaftEvents.AppendKeeps | raft/raft.go:1040-1057 | appending to the leader's own log keeps it |
| RaftEvents.CommitKeeps | raft/raft.go:988-1004 | committing a chosen entry keeps it, and the committed log only grows |
| RaftSafety.CommitBound | raft/raft.go:858-860 | bounding the commit index by the receiver's own last index takes nothing away: an accepted AppendEntries brings it to the leader's |
| RaftSafety.SentToTheEnd | raft/raft.go:683-706 | every AppendEntries reaches the end of the sender's log and its commit index lies within |
| RaftSafety.NextWithin | raft/raft.go:867-912 | a leader's next index for a peer is at least 1 and never past the end of its log |
| RaftReads.ReadNotSuperseded | raft/raft.go:1086-1123 | in every possible run, when a leader surfaces a read, no node had become leader of a higher term by the time of the request |
| RaftReads.ReadConfirmed | raft/raft.go:1086-1123 | a surfaced read carries the commit index the leader had at the request |
| RaftReadFreshness.ReadFresh | raft/raft.go:1064-1069 | unless the first entry the leader has not committed is of an earlier term, the surfaced index covers all that any node had committed by the request |
| RaftReadFreshness.ReadFreshOwnTerm | raft/raft.go:1064-1069 | so it does if an entry of the leader's term had been committed by then, by any node |
| RaftReadBounds.SurfacedWithin | server/server.go:441-453 | in every possible run, whatever a step surfaces is of an index its node has committed by then |
| RaftReadFreshness.ReadFreshAtEnd | raft/raft.go:1064-1069 | so it does if the leader had committed its whole log |
| RaftLimits.StaleRead | raft/raft.go:1064-1069 | a run in which that entry is of an earlier term and a surfaced read misses a committed one |
| RaftPipeline.SendOnce | raft/raft.go:683-706 | over a reign without rejections, the entries sent to a peer are those appended since the election, each once and in order: as many as the log has grown by, each at its place |
| RaftLosses.CommittedThenLost | raft/raft.go:922-952 | a possible run in which a committed index is not in the log of a later leader, after a late snapshot dropped it |
| RaftLosses.CommittedTwice | raft/raft.go:922-952 | its continuation: two nodes have committed different entries at that index |
| RaftLimits.InstallKeeps | raft/raft.go:922-952 | installing a snapshot keeps every entry that follows it in the node's log exactly when there is none or the snapshot is refused |
| RaftTerms.RunTimed | raft/raft.go:604-624 | in every possible run, term 0 goes with index 0 and with nothing else, in every log, disk, snapshot and message, and no one stands for it |
| RaftLimits.AppendPanicsAnywhere | raft/raft.go:842-857 | over every possible run, an AppendEntries panics exactly when it carries entries from the start of the log to a node that has compacted more than one, or one and not the one it is sent |
| RaftLimits.AppendPanics | raft/raft.go:842-857 | over every run of commit safety the second case does not come up |
| RaftLosses.DuplicatePanics | raft/raft.go:842-857 | a run in which it does |
| RaftProgress.MajorityExact | raft/raft.go:474-477 | hasMajorityCount accepts a set of nodes exactly when it is more than half of the cluster |
| RaftProgress.PreVoteForetells | raft/raft.go:737-759 | a pre-vote is granted exactly when the same node would grant a real vote at the next term, and changes nothing |
| RaftProgress.BestLog | raft/raft.go:780-802 | of any nodes, one has a log that is up to date for all of them |
| RaftProgress.StandsExactly | raft/raft.go:576-597 | a node that times out and hears from some peers stands, in the next term, exactly when it and those who would vote for it are a majority |
| RaftProgress.CampaignWins | raft/raft.go:604-645 | with a majority that would vote for it, it is elected |
| RaftPreVotes.StandsPolled | raft/raft.go:767-778 | in every possible run, a node of several that enters a new term by itself had a majority each of whom had found a log it asked with up to date |
| RaftLosses.Stalled | raft/raft.go:767-778 | a run after which two of three nodes turn each other down, and neither gets to stand |
| RaftCatchUp.LeaderWrites | raft/raft.go:683-706 | a heartbeat, new entries and a read request each go to every peer, with all it has not been sent or with the snapshot |
| RaftCatchUp.NewLeaderWrites | raft/raft.go:629-645 | a new leader probes every peer at once, from the end of its log |
| RaftCatchUp.RejectionProbes | raft/raft.go:905-911 | a rejection takes the next index back by one and is answered by a probe from there, or by the snapshot |
| RaftCatchUp.CatchesUp | raft/raft.go:867-912 | convergence: a peer that agrees at an index both logs cover accepts after as many rejections as the probe starts above it, then has the leader's terms to the end of its log, and the leader knows |
| RaftCatchUp.AppendExact | raft/raft.go:821-865 | an accepted AppendEntries leaves entries of its terms to its end, all before it as it was, and drops something only if it disagreed |
| RaftCatchUp.CommitExact | raft/raft.go:988-1004 | an index becomes committed exactly when an own-term entry at or after it is held by more than half |
| RaftCatchUp.MajorityCommits | raft/raft.go:867-912 | acknowledged by a majority, an entry of the leader's term is committed |
| RaftCatchUp.LoneRead | raft/raft.go:1086-1097 | a leader that is a majority by itself surfaces a read at once, at its commit index |
| RaftCatchUp.ReadExact | raft/raft.go:1113-1123 | a confirmation surfaces a pending read exactly when it completes a majority |
| RaftCatchUp.ReadEchoed | raft/raft.go:821-865 | a node not past the leader's term confirms the read it was asked about, whether or not it accepts the entries |
| RaftCatchUp.SnapshotCatchesUp | raft/raft.go:922-976 | a peer behind the boundary takes the snapshot, its server is to restore it, and it accepts the leader's next probe |
| RaftCatchUp.StepsDown | raft/raft.go:535-542 | a later term, in any message but a pre-vote's, makes a follower of whoever gets it |
| RaftCatchUp.StaleIgnored | raft/raft.go:821-825 | an earlier term changes nothing |
| RaftCatchUp.LeaderKnown | raft/raft.go:827-832 | whoever takes a leader's message knows it for the leader |
| RaftSnapshots.SnapshotsMade | raft/raft.go:410-431 | in every possible run, a snapshot held by a node, a disk or a message is what some server handed its node at that very index |
| RaftSnapshots.AppliedMade | raft/raft.go:922-952 | and so is one a node hands its server to restore |
| RaftMachine.NewRaft | raft/raft.go:274-290 | a node exactly for a valid configuration, in its initial state |
| RaftMachine.Raft.Restore | raft/raft.go:315-327 | the node restored from what storage held |
| RaftMachine.Raft.SendAppendEntries | raft/raft.go:683-706 | in place, what `SendAppend` says: a snapshot below the boundary, else what has not been sent, and the sent index moves up |
| RaftMachine.Raft.MaybeAdvanceCommitIndex | raft/raft.go:988-1004 | the loop finds the largest index that the commit rule accepts |
| RaftMachine.Raft.BecomeALeader | raft/raft.go:629-645 | progress, reads and probes reset as `BecomeLeader` says, on which the election theorems rest |
| RaftMachine.Raft.BecomeACandidate | raft/raft.go:604-624 | a new term, a vote for itself and requests to all, or at once a leader when alone |
| RaftMachine.Raft.BecomeAPreCandidate | raft/raft.go:576-597 | pre-vote requests without a new term |
| RaftMachine.Raft.HandlePreVote | raft/raft.go:737-759 | the answer of `AfterPreVote`, with no other change |
| RaftMachine.Raft.HandlePreVoteResponse | raft/raft.go:767-778 | candidacy on a majority, as `AfterPreVoteResponse` says |
| RaftMachine.Raft.HandleRequestVote | raft/raft.go:780-802 | the vote and the step-down of `AfterRequestVote` |
| RaftMachine.Raft.HandleRequestVoteResponse | raft/raft.go:804-819 | leadership on a majority, as `AfterRequestVoteResponse` says |
| RaftMachine.Raft.MergeEntries | raft/raft.go:842-857 | the entry loop replaces exactly what follows the first disagreement; false where its slice expression panics |
| RaftMachine.Raft.HandleAppendEntries | raft/raft.go:821-865 | the whole handler, as `AfterAppend` says |
| RaftMachine.Raft.HandleAppendEntriesResponse | raft/raft.go:867-912 | progress, commit, retry and read confirmation, as `AfterAppendResponse` says |
| RaftMachine.Raft.AckReadIndex | raft/raft.go:1113-1123 | a read surfaces when a majority has confirmed it |
| RaftMachine.Raft.HandleInstallSnapshot | raft/raft.go:922-952 | the whole handler, as `AfterInstall` says, over any log |
| RaftMachine.Raft.HandleInstallSnapshotResponse | raft/raft.go:960-976 | progress and commit, as `AfterInstallResponse` says |
| RaftMachine.Raft.CreateSnapshot | raft/raft.go:410-431 | compaction with the given data, as `AfterCompact` says; its errors and its panic change nothing |
| RaftMachine.Raft.ProposeBatch | raft/raft.go:1040-1057 | the entries appended and sent, and the consecutive indices given out; refused when not leader |
| RaftMachine.Raft.RequestReadIndex | raft/raft.go:1086-1102 | a pending read at the commit index and a probe to every peer, or at once a confirmed one when alone |
| RaftMachine.Raft.Step | raft/raft.go:506-528 | each message to its handler; one for another node is dropped |
| RaftMachine.Raft.AdvanceReady | raft/raft.go:364-374 | what Ready reported counts as durable and sent |
| RaftRecords.DecodeBack | raft/storage.go:324-420 | every record of the state file decodes to the change it encodes |
| RaftRecords.ChangeExact | raft/storage.go:324-420 | and a record decodes to a change only if it is that change's encoding |
| RaftDisk.OpenExact | raft/storage.go:70-136 | a state file is refused exactly for a record that does not decode |
| RaftDisk.ReplayCompacts | raft/storage.go:114-133 | a snapshot record replayed over the entries it compacts does to them what CreateSnapshot did in memory |
| RaftDisk.PersistStores | raft/node.go:117-141 | after a persist the file replays to exactly the node's term, vote, log and snapshot |
| RaftDisk.CrashStores | raft/storage.go:188-308 | a crash at any byte of a persist leaves a file that opens, to the old state, the new one, or the new term and vote with a cut of the new log |
| RaftStable.PersistExact | raft/raft.go:344-374 | what Ready reports is enough: truncating at the first unstable index and appending makes disk and node equal |
| RaftPersistence.OpenStorage | raft/storage.go:70-153 | the replay loop folds the records as `Open` says and leaves the file without its torn tail |
| RaftPersistence.Storage.SaveHardState | raft/storage.go:170-180 | one record more |
| RaftPersistence.Storage.SaveEntries | raft/storage.go:188-209 | a truncation and the entries, in one append; nothing for no entries |
| RaftPersistence.Storage.SaveSnapshot | raft/storage.go:226-308 | a new file with the hard state, the snapshot and the surviving entries |
| RaftPersistence.Persist | raft/node.go:117-141 | the file of `Persisted`, the node advanced, and the messages, reads and snapshot handed out |
| RaftPersistence.OpenNode | raft/node.go:27-54 | a node exactly for a valid configuration and a readable file, seeded with what the file holds |
| RaftFiles.RunStores | raft/node.go:117-141 | over every possible run on files, with crashes at any byte, each node's file replays to its disk state |
| RaftFiles.PersistedInRun | raft/node.go:117-141 | before any message of a step is out, the file replays to the node's state |
| RaftFiles.CrashRefined | raft/storage.go:188-308 | a crash at any byte of a persist is a crash step of the cluster |
| Varint.GetPutVar | sstable/block.go:41-54 | a varint reads back, with the bytes it took |
| Wal.EncodedReplays | wal/record.go:68-122 | records written replay as they were |
| Wal.DecodeExact | wal/record.go:91-122 | a record is read exactly from a frame whose checksum and length are right and that begins with its payload |
| Wal.TornTail | wal/replay.go:72-128 | a file cut at any byte replays exactly the records that were whole, for any checksum function |
| Wal.TornAppend | wal/replay.go:72-128 | an append cut at any byte adds exactly its whole records to those already there |
| Wal.TruncateOnce | wal/replay.go:134-144 | cutting off the torn tail changes no record and leaves nothing to cut |
| WalFile.EncodeRecord | wal/record.go:68-89 | the buffer filled field by field is the record's encoding |
| WalFile.Log.AppendBatch | wal/wal.go:79-109 | one append of all the records; refused on a closed log |
| WalFile.Log.Replay | wal/replay.go:52-144 | the records up to the first bad one, and the file cut there |
| Towers.LevelsNest | memtable/skiplist.go:68-108 | each level of the list is the part of the one below whose nodes are taller |
| SkipLists.SkipList.Get | memtable/skiplist.go:112-124 | the search from the top level finds a key exactly when the run holds it, with its item |
| SkipLists.SkipList.Put | memtable/skiplist.go:68-108 | the run with the item written at its sorted place, the size change, and a list whose every link is right |
| SkipLists.SkipList.Walk | memtable/skiplist.go:68-108 | following any level's pointers visits exactly the nodes at least that tall, in order; on the bottom level that is every node |
| SkipLists.SkipList.Scan | memtable/iterator.go:37-73 | the bottom level is the whole run, sorted |
| Memtables.Memtable.Write | memtable/memtable.go:49-63 | the written key answers with the new item and every other key as before |
| Memtables.Memtable.Get | memtable/memtable.go:69-77 | the newest item for the key, tombstones included |
| Runs.FindWrite | memtable/skiplist.go:68-108 | a sorted run behaves as a map |
| Bloom.BloomFilter.MayContain | sstable/bloom.go:112-126 | true exactly when there are no bits or every probe of the key falls on a probe of an added key, so never false for one that was added |
| Bloom.DecodeFilterBack | sstable/bloom.go:129-149 | a filter decodes to itself |
| Bloom.FilterExact | sstable/bloom.go:129-149 | and only an encoded filter decodes |
| TableBlocks.DecodeItemsBack | sstable/block.go:41-100 | a block decodes to the entries it was built from |
| TableBlocks.DecodeIndexBack | sstable/block.go:112-148 | an index decodes to itself |
| TableFiles.Writer.Add | sstable/writer.go:139-171 | an entry is taken exactly when its key is above the last one and the table is open; a block is cut when it reaches the block size and not before |
| TableFiles.Writer.Finish | sstable/writer.go:212-278 | the file is the blocks, all but the last cut at the block size, the filter with exactly the bits of the keys, the index and the footer |
| TableReading.OpenWithCache | sstable/reader.go:44-100 | a reader exactly for a file whose footer, filter and index check out |
| TableLayout.CheckedExact | sstable/reader.go:102-120 | exactly a block followed by its own checksum is read |
| TableLayout.OpenNeeds | sstable/reader.go:44-100 | a file opens only with the magic number at its end and with filter and index under their own checksums |
| TableReading.Reader.SearchIndex | sstable/reader.go:161-197 | the binary search finds the one block that can hold the key |
| TableReading.Reader.Get | sstable/reader.go:161-197 | the answer does not depend on what the cache holds |
| TableReading.FinishedTable | sstable/writer.go:212-278 | what the writer finished the reader opens, and every lookup is a search of the entries added |
| TableIteration.Iterator.Next | sstable/reader.go:269-277 | one entry fewer to come, across block boundaries |
| TableIteration.Drain | sstable/reader.go:221-277 | a full pass yields the entries the table was built from |
| TableTrips.WriteAndRead | sstable/writer.go:139-278 | any sorted entries, written, opened, searched and walked: each search is a search of the entries, and the walk is the entries, as long as the file is below 2^64 bytes |
| BlockCaches.BlockCache.Get | sstable/cache.go:59-71 | a hit moves to the front and changes nothing else |
| BlockCaches.BlockCache.Put | sstable/cache.go:80-103 | the new block is first and the least recently used ones go until the budget holds; one too large is not kept |
| EngineInvariant.StepExact | engine/engine.go:955-1034 | every step of the engine, from a state in order, leaves files that recover to what the store should hold exactly when it is not one of two: removing a log file an older one contradicts, or crashing with a snapshot's table in place that adds something |
| EngineInvariant.StepGood | engine/engine.go:235-353 | every other step, crashes inside Open and inside a batch included, keeps the engine's invariant |
| EngineInvariant.RemovalExact | engine/engine.go:791-802 | a log file may go exactly when no older one left on disk contradicts it |
| EngineInvariant.UncommittedExact | engine/engine.go:955-1034 | a snapshot without its marker leaves the store alone exactly when its table adds nothing |
| EngineRuns.ReadsRefine | engine/engine.go:642-678 | while no flush has failed, reads answer from exactly the operations acknowledged, whatever flush is under way |
| EngineRuns.Recovery | engine/engine.go:235-353 | stopped after any step, the files give back exactly those operations |
| EngineRuns.Acknowledged | engine/engine.go:565-615 | an acknowledged batch stays, whole and in order, until a snapshot replaces the store |
| EngineRuns.RestoreHolds | engine/engine.go:955-1034 | once its marker is in place, the store is the snapshot and what came later, whichever replaced files are left |
| EngineRuns.Superseded | engine/engine.go:365-457 | files numbered below the marker count for nothing |
| EngineRuns.LastWins | engine/engine.go:642-678 | a key answers with a value exactly when its last operation wrote it |
| EngineRuns.OpensAgain | engine/engine.go:365-411 | in every run, an open engine's directory could be opened again exactly when no flush is part-way through its table and no failed restore has left one |
| EngineRuns.OpensAfterStop | engine/engine.go:365-411 | a stopped engine's directory can be opened exactly when it went down with no table half-written: by its flush, by an earlier restore that failed, or by the restore it was in |
| EngineRuns.OpensAtFirst | engine/engine.go:365-411 | one that was never open can |
| EngineRuns.NumbersRise | engine/engine.go:731-754 | while an engine is up, every table it writes or opens has a number above all it has opened before |
| EngineLimits.MidFlush | engine/engine.go:764-828 | a run whose crash inside a flush leaves everything in the files and no way to open them |
| EngineLimits.LateRemoval | engine/engine.go:791-802 | a run in which two flushes remove their log files in the wrong order and an old value comes back |
| EngineLimits.UncommittedSeen | engine/engine.go:955-1034 | a crash between a snapshot's table and its marker after which an empty store holds the snapshot's key |
| EngineLimits.FailedExact | engine/engine.go:764-803 | after a failed flush reads are right exactly when the lost memtable added nothing |
| EngineLimits.FailedHides | engine/engine.go:764-803 | an acknowledged write gone from reads after a failed flush, and back after a restart |
| Engines.Engine.Get | engine/engine.go:642-678 | memtable, frozen memtable, then tables from the newest: the first that knows the key decides |
| TableNames.NamesDiffer | engine/engine.go:83-84 | two tables never share a file name |
| EngineReaders.Shelf.Load | engine/engine.go:365-411 | a table file found on disk, opened below those opened before |
| EngineReaders.Shelf.Add | engine/engine.go:764-788 | a table written and opened on top, its path unseen by the block cache because no number comes twice |
| EngineReaders.Shelf.Search | engine/engine.go:665-677 | the readers' loop over one shared cache answers as the entries of the tables do |
| EngineReaders.GetThrough | engine/engine.go:642-678 | Get over the real files answers as the engine does |
| Engines.Engine.ApplyBatch | engine/engine.go:565-615 | one batch step, and a freeze when the memtable is full; refused once a flush has failed |
| Engines.Engine.StartFlush | engine/engine.go:731-754 | the memtable and its log file set aside and fresh ones in place |
| Engines.Engine.RunFlush | engine/engine.go:764-803 | table, install and log removal, or a failure that keeps the log file |
| EngineOpening.OpenEngine | engine/engine.go:235-353 | refused exactly for a live half-written table; otherwise the store holds what it should, and the next sequence number is one above the largest in its tables and its live log files |
| SnapshotFormat.PairsBack | engine/engine.go:1036-1078 | a snapshot's bytes decode to the pairs they encode |
| SnapshotFormat.PairsExact | engine/engine.go:1036-1078 | and nothing else decodes to them |
| SnapshotSort.SortPairs | engine/engine.go:975 | a sorted rearrangement of the pairs |
| EngineSnapshots.TakeSnapshot | engine/engine.go:873-934 | exactly the live keys with their values, in whatever order the keys are visited |
| EngineSnapshots.RestoreSnapshot | engine/engine.go:955-1034 | succeeds exactly when no flush runs and the bytes decode to distinct keys, and then every read answers from the snapshot and the old files are gone; else the engine is as it was, up to a half-written table |
| EngineSnapshots.Transfer | engine/engine.go:873-1034 | a snapshot of one engine restored into another makes all their answers the same |
| Commands.CommandBack | server/command.go:33-76 | an encoded operation decodes to itself |
| Commands.CommandExact | server/command.go:33-76 | a payload decodes to an operation exactly when it begins with its encoding |
| Replicas.Converged | server/server.go:488-550 | over every run of applies, restarts, snapshots taken and installed, a replica that has applied all its store holds answers as the committed log's prefix says |
| Replicas.ReplicasAgree | server/server.go:488-550 | two such replicas at one index give the same answers |
| Replicas.MidReplayExact | server/server.go:488-550 | a store replaying from the beginning answers as the replayed prefix says exactly when every key that only later entries write ends deleted |
| Replicas.EarlySnapshot | server/server.go:583-605 | a run in which a snapshot taken during a replay holds a key its index does not |
| ServerLog.HandedOut | raft/raft.go:384-395 | at any point of a run, what Entries gives a server is the committed log from what it has applied, or from the compaction boundary |
| ServerLog.RunHands | raft/raft.go:384-395 | so every node hands out the one committed log |
| ServerLog.Missed | raft/raft.go:384-395 | entries are missed exactly when the log was compacted past what was applied |
| Servers.Server.Register | server/server.go:340-359 | every index of a batch gets its client's payload |
| Servers.Server.ApplyCommitted | server/server.go:488-550 | what the node hands out goes to the engine as one batch; each waiting client whose index came up is told of success exactly when its own payload is there, decodes and went through, and that it was superseded exactly when another is; no other is told anything |
| Servers.Server.MaybeSnapshot | server/server.go:583-605 | a snapshot of the engine exactly when enough has been applied since the last, and the node compacted with it; the mark moves only if the node takes it |
| Servers.Server.AnswerReads | server/server.go:454-461 | exactly the confirmed reads someone waits for, each with its index |
| Servers.Server.Pump | server/server.go:395-464 | persist, a received snapshot, the messages, the committed entries and their clients, a snapshot exactly when one is due, then exactly the confirmed reads someone waits for; whoever is told of success has its operation in the engine |
| Servers.Server.Round | server/server.go:395-464 | convergence: a round over the committed log takes the server's replica to the commit index, its answers are those of the log's prefix once it has caught up, its clients are told by what the log holds at their index, every read answered is of an index it has applied, and any snapshot it takes is one another server may go on from |
| Servers.Start | cmd/kvstore/main.go:191-271 | a started server is a replica that goes on from a persisted snapshot, or from the beginning of the log; a snapshot that cannot be restored is fatal |
| Servers.Live | server/server.go:254-306 | a server's life, from its start through any rounds with new clients before and flushes after: it has applied all its node has committed, stays a replica of the committed log, has told exactly the clients whose index it applied, and every snapshot it makes is one another server may go on from |
| Servers.NobodyForgotten | server/server.go:535-548 | without a received snapshot, no client is left waiting for an index that has been applied |
| ServerRuns.LifeServed | raft/node.go:117-141 | all that such a life asks of its node holds of a node's rounds in any run, as long as the servers' snapshots are ones to go on from |
| ServerRuns.SoundInOrder | server/server.go:583-605 | and they all are if each is, given the earlier ones |
| Servers.RecoveredCatching | server/server.go:488-550 | after a crash inside a batch and recovery, replaying the log from the beginning brings the store up to date |
| Servers.StoppedCatching | server/server.go:488-550 | so it does after a crash between batches, during a flush or not |
| ServerReads.HandledHands | server/server.go:441-453 | at any step of a run, what a node has handled is what a round asks for: it hands out the committed log, and its confirmed reads are within its commit index |
| ServerReads.LinearizableRead | server/server.go:695-721 | a confirmed read of a server that has applied that far, even one still replaying after a restart, answers from a prefix of the one committed log that covers all any node had committed by the request |

## Left out

- RaftSafety.StateMachineSafety: only for runs in which no snapshot is installed over a log that goes on past the snapshot's own last entry, because handleInstallSnapshot drops those entries and the property then fails. The other direction, that every such delivery leads to a loss, is false: the dropped entries may be ones nobody counted.
- RaftSafety.LeaderCompleteness: the same runs, for the same reason.
- RaftInvariant.StepGood: the same runs; `RaftPolls.PolledStep` is what every possible step keeps.
- RaftSafety.CommitBound: the same runs; without the condition a commit index may lie past the end of its log.
- RaftSafety.SentToTheEnd: the same runs, for the same reason.
- RaftSafety.NextWithin: the same runs, for the same reason.
- RaftReadFreshness.ReadFresh: the same runs, and a sufficient condition, not a necessary one.
- RaftReadFreshness.ReadFreshOwnTerm: the same runs.
- RaftReadFreshness.ReadFreshAtEnd: the same runs.
- ServerReads.LinearizableRead: the same runs and the same condition.
- ServerReads.HandledHands: the same runs.
- ServerRuns.LifeServed: the same runs.
- ServerLog.HandedOut: the same runs.
- ServerLog.RunHands: the same runs.
- RaftLimits.AppendPanics: the same runs; `AppendPanicsAnywhere` is over all.
- RaftPreVotes.StandsPolled: the log a voter found up to date is one the node asked with at some time, not always its latest, because answers carry no round.
- RaftCatchUp.CatchesUp: terms and not contents, which log matching (`RaftLinks.LogsMatch`) adds.
- RaftPipeline.SendOnce: as long as the peer's next index stays within the leader's log or just past it, which `RaftSafety.NextWithin` gives for the same runs.
- EngineRuns.ReadsRefine: for runs without the two steps that `EngineInvariant.StepExact` singles out.
- EngineRuns.Recovery: the same runs.
- EngineRuns.Acknowledged: the same runs.
- EngineRuns.RestoreHolds: the same runs.
- RaftPersistence.OpenNode: a file whose entries are not consecutive, which no run leaves behind, is not modelled.
- RaftPersistence.Persist: called with the first unstable index at or above the log's first entry, as every run keeps it.
- RaftMachine.Raft.MergeEntries: the entries are consecutive, as Entries cuts them and as `RaftPolls.RunPolled` keeps every message.
- RaftMachine.Raft.HandleAppendEntries: the same.
- RaftMachine.Raft.Step: the same.
- TableTrips.WriteAndRead: files below 2^64 bytes, and filters of fewer than 2^32 probes.
- EngineReaders.Shelf.Add: files below 2^64 bytes, and filters of fewer than 2^32 probes.
- Servers.Server.Pump: the node is a value, and Persist is what `RaftPersistence.Persist` proves of it; the status cache is left out.
- Servers.NobodyForgotten: a client whose index a received snapshot skips is never told by the code either; nor is one whose index is given out again.
- Commands.CommandExact: payloads below 2^32 bytes, as for all of these.
- Servers.Live: the same as `Server.Round` in every round, and no flush fails; `EngineLimits.FailedExact` says what a failed one does.
- Servers.Server.Round: while the engine takes writes, and while the node's log reaches back to what was applied; `ServerLog.Missed` says what is lost otherwise.
- Sizes: keys, values and payloads below 2^32 bytes in log records and snapshots; terms, indices and sequence numbers are unbounded, but for the one subtraction in sendAppendEntries that wraps around on uint64.
- Errors of the operating system: a write, sync, rename or remove either happens or the process goes down; a crash leaves a prefix of what a write meant to write. Syncing is not modelled apart from that.
- Checksums and hash functions: any functions stand for them, so a damaged record with a right checksum counts as a record. The filter's sizing is a parameter.
- Timers and randomness: timeouts happen at any time; a skip list node's height is a parameter.
- The engine's lock and its waits: each operation is one step whose guard is what the wait establishes. In the engine's class a table is its entries; `EngineReaders` proves that reading them through their files and the block cache gives the same answers.
- container/list in the block cache: a sequence in its place.
- Closing: no operation after Close, but for the log file.
- The transport and its codec, the HTTP interface, command-line parsing and the benchmarks: not part of this model.
- Membership changes: the repository has none.
