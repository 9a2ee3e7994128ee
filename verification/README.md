# murmur in Dafny

murmur is a replicated key/value store: a Raft consensus module, a compacted log, a
durable state file, and a state machine with exactly-once writes and snapshots. This
project models those parts and proves what they promise.

## What is modelled

- **The consensus module** (`Consensus`, `ConsensusObject`). `Consensus.Node` is the
  state of a node as a value, with one function per public method of
  `src/raft/consensus.rs`. `ConsensusObject.ConsensusModule` is the same module as the
  mutable object it is: fields, an in-place log, loops, and a store it saves to before a
  method returns. Every method is proved to compute the function of the same name.
- **A cluster** (`Cluster`, `Driver`). Nodes, the apply channel and application of each
  process, and the set of every message ever sent. Delivering any sent message at any
  time, any number of times or never gives loss, duplication and reordering. Other steps
  are the tick decisions of the driver, proposals, drains, the apply loop, compaction and
  crash with restart. `Driver` holds the tick of `src/raft/node.rs` as code and shows that
  it consists of such steps.
- **The safety argument** (`History`, `HistorySteps`, `HistoryFacts`, `Invariant`,
  `ElectionSteps`, `ReplicationSteps`, `SnapshotSteps`, `Safety`). A history keeps each
  node's full log (the compacted prefix followed by the tail), the log of each term's
  leader, votes and acknowledgements. Each handler is a composition of seven operations
  on histories that keep its invariant. Histories are built by the proof and occur in no
  final statement.
- **The theorems over runs** (`Theorems`, `LogTheorems`, `Retention`, `Justification`, `Repair`,
  `PreVote`, `StreamOrder`, `RealTime`, `Provenance`, `Linearizability`, `Durability`).
- **The state machine** (`App`, `AppObject`, `SnapshotCodec`, `ExactlyOnce`,
  `RestartGap`) of `src/app.rs`, with its snapshot format.
- **The log and the state file** (`Types`, `LogRefinement`, `LogRuns`, `Codec`,
  `Storage`, `StateCodec`).

The code departs from the textbook protocol in ways the proofs have to handle. A follower
commits to `min(leader_commit, last_index)`; a `prev_log_index` at or below the snapshot
skips the consistency comparison; InstallSnapshot replies carry no success flag;
`match_index` is meaningful only above `commit_index`. The repository's README describes the
restart gap of the application as one of double appends; by the code a removed key can also
come back (`RestartGap.RemovedKeyReturns`), and `RestartGap.RecoversIff` gives the exact condition.

## Assumptions

- Membership is fixed and symmetric; peer ids are distinct and exclude the node itself.
- `save` succeeds. Numbers and lengths fit 64-bit words where bytes are involved
  (`StateFits`, `Fits`); elsewhere integers are unbounded.
- The storage engine is a total map whose operations do not fail. In the cluster a
  restarted process opens an empty store; `RestartGap` treats a store that survives.
- Time is a natural number given to each step, and the election timeout is any number
  between the configured bounds. Only the PreVote theorem needs clocks not to run behind
  a node's last leader contact.
- Commands in the log are bytes, decoded by an arbitrary function. Error texts are bytes,
  so the lossy text conversion of the snapshot decoder is the identity.
- `take_applies` and `snapshot` on the object require the order of the cursors that the
  code relies on with its two `expect` calls; `CursorOrder` proves it of every reachable
  state.

## Model

| member | source | states |
|---|---|---|
| `Theorems.OneLog` | src/raft/consensus.rs:396-459 | behind every run there is one log: every process in every state holds its entries as committed, queues its entries and snapshots of its prefixes, stores a snapshot of a prefix, and has an application equal to the replay of a prefix |
| `Theorems.StateMachineSafety` | src/raft/consensus.rs:734-755 | no two processes, and no process in two lives, ever emit different commands at one index |
| `Theorems.ApplicationsAgree` | src/app.rs:315-334 | applications at one position are in one state, whether they replayed commands or installed snapshots |
| `Theorems.ElectionSafety` | src/raft/consensus.rs:299-335 | at most one node is ever leader of a term, across crashes |
| `LogTheorems.LeaderCompleteness` | src/raft/consensus.rs:342-392 | in the one log of the run, every leader of a later term holds at its index each entry that a node ever held as committed, unless it lies under its snapshot, in states before as well as after |
| `LogTheorems.SameTermSamePrefix` | src/raft/consensus.rs:422-449 | logs holding the same term at an index agree on everything both still hold below it, across time, compaction and restarts |
| `LogTheorems.CursorOrder` | src/raft/consensus.rs:600-612 | snapshot index, last applied, commit index and last index are ordered in every reachable state, so the two expected lookups succeed |
| `LogTheorems.CommitNeverFalls` | src/raft/consensus.rs:432-456 | without a restart no step lowers the commit index |
| `Retention.CommittedEntryStays` | src/raft/consensus.rs:432-449 | an entry a node ever held as committed is in every later state, restarts included, still at its index in that node's log or under its snapshot |
| `LogTheorems.AppendIsAligned` | src/raft/consensus.rs:493-509 | every AppendEntries the driver sends is aligned with the leader's log, ships its whole tail, reaches past its commit index, and never uses the default previous term |
| `LogTheorems.DurableShape` | src/raft/consensus.rs:174-178 | a snapshot is present exactly when the boundary is positive, and no entry has term 0 or a future term |
| `Justification.CountedPeerAccepted` | src/raft/consensus.rs:536-567 | a peer counted above the commit index accepted the leader's own entries through that index in the current term, and then held the leader's log that far |
| `Justification.ReachJustified` | src/raft/consensus.rs:674-697 | above the commit index every `match_index` is backed by an acceptance; flagless snapshot replies never reach that far |
| `Justification.FollowerCommitsAsLeader` | src/raft/consensus.rs:454-456 | the minimum with the last index never cuts: an accepting follower commits exactly what the leader had committed |
| `Repair.WireIdentity` | src/raft/transport.rs:102-119 | a reply survives the wire exactly when both hints are present or absent together |
| `Repair.WireHarmless` | src/raft/transport.rs:102-119 | where it does not, the computed next index is the same, because no entry has term 0 |
| `Repair.RoundBacksOff` | src/raft/consensus.rs:469-485 | every rejection, as it arrives over the wire, strictly lowers the next index, also when the conflicting term exceeds the leader's, and leaves both logs alone |
| `Repair.RoundAgrees` | src/raft/consensus.rs:536-567 | an acceptance makes the logs agree through the leader's last index and moves both cursors there |
| `Repair.RepairTerminates` | src/raft/consensus.rs:561-588 | from every reachable state the exchange ends, within next_index + 1 rounds, in agreement or in the need of a snapshot |
| `PreVote.TermsFromElections` | src/raft/consensus.rs:261-294 | every term of every node was entered by an election; a proposed term never becomes current |
| `PreVote.NoNewTerm` | src/raft/consensus.rs:355-362 | while a quorum hears from a leader, none of its pre-votes is tallied at the start and none it granted before is delivered, no election starts and no new term appears |
| `StreamOrder.StreamInOrder` | src/raft/consensus.rs:734-755 | what a process emits without a restart is one ordered walk, from its position to its cursor |
| `StreamOrder.LifetimeInOrder` | src/raft/consensus.rs:99-117 | from a start or restart the walk begins at 0 and stays within the commit index |
| `StreamOrder.OrderRises` | src/raft/consensus.rs:734-755 | an ordered walk delivers nothing twice or backwards |
| `StreamOrder.OrderCovers` | src/raft/consensus.rs:650-668 | every index passed was delivered as a command or lies under a delivered snapshot |
| `RealTime.RealTimeOrder` | src/app.rs:350-377 | a request proposed after another was answered is emitted, if ever, at a higher index |
| `Provenance.EntriesWereProposed` | src/raft/consensus.rs:516-527 | every entry held, sent or queued was proposed to the leader of its term, at its index |
| `Linearizability.NonceIff` | src/app.rs:350-353 | two nonces coincide exactly when ids agree modulo 2^16 and counters modulo 2^48 |
| `Linearizability.NonceNamesProposal` | src/app.rs:350-353 | with small ids and counts, numbers that a node hands out once each name one proposal, in whatever order callers submit |
| `Linearizability.WaiterGetsOwnEntry` | src/app.rs:355-377 | then whatever entry answers a waiter is the entry its own proposal created |
| `Linearizability.AnswersRespectRealTime` | src/app.rs:94-99 | linearizability: one log covers the run, every outcome sent is that of replaying this log to the answered entry, and a request proposed after another was answered stands later in it |
| `Durability.DurableRoundTrip` | src/raft/storage.rs:149-235 | every reachable durable state survives the file format unchanged |
| `Durability.CrashReadsFile` | src/raft/consensus.rs:83-129 | a crash step is a restart from the bytes last written |
| `Safety.InvNext` | src/raft/node.rs:201-262 | every step of a cluster keeps the invariant, evolves the history by the acting node alone and keeps that node's committed prefix |
| `Safety.InitOk` | src/raft/consensus.rs:83-129 | freshly started clusters satisfy the invariant |
| `DataInvariant.DataNext` | src/app.rs:174-220 | every step keeps each stored, pending and shipped snapshot equal in meaning to the prefix it replaced |
| `ApplyStream.CommandsAre` | src/raft/consensus.rs:740-752 | a drain emits exactly the entries between the two cursors, in order |
| `ApplyStream.ItemReplays` | src/app.rs:315-334 | applying an item, command or snapshot, takes a replay of the log to the item's end |
| `HistoryFacts.LogMatching` | src/raft/consensus.rs:422-449 | two logs built from leaders' logs agree up to any index where their terms agree |
| `HistoryFacts.CommittedAgree` | src/raft/consensus.rs:704-715 | two committed prefixes agree |
| `HistoryFacts.VoteRespectsAcks` | src/raft/consensus.rs:342-345 | a vote for an up-to-date log respects everything the voter acknowledged that may be committed |
| `HistoryFacts.OneWinner` | src/raft/consensus.rs:248-252 | a quorum of votes in a term that has a leader is for that leader |
| `HistorySteps.ElectedComplete` | src/raft/consensus.rs:233-246 | the log of a winner of an election holds every entry that may have been committed before |
| `HistorySteps.FollowOk` | src/raft/consensus.rs:429-449 | adopting a leader's log up to an acknowledged index keeps the invariant of histories |
| `ReplicationSteps.CountedIsChosen` | src/raft/consensus.rs:704-727 | an entry of the current term that the code counts on a majority is acknowledged by a quorum |
| `ReplicationSteps.PrevAgrees` | src/raft/consensus.rs:422-427 | a passed or skipped comparison means agreement with the leader through the previous index and the snapshot |
| `ReplicationSteps.AcceptedLog` | src/raft/consensus.rs:429-449 | after a passed comparison the follower's log is its own if it already agrees, else the leader's through the last entry sent |
| `ReplicationSteps.OnAppendOk` | src/raft/consensus.rs:396-459 | AppendEntries keeps the invariant and its reply is truthful |
| `ElectionSteps.VoteOk` | src/raft/consensus.rs:347-392 | RequestVote keeps the invariant and a granted reply is a recorded vote |
| `ElectionSteps.ElectionOk` | src/raft/consensus.rs:299-317 | standing for election, and winning at once alone, keeps the invariant |
| `SnapshotSteps.InstallOk` | src/raft/consensus.rs:629-670 | InstallSnapshot keeps the invariant, whatever tail it keeps or drops |
| `SnapshotSteps.CompactOk` | src/raft/consensus.rs:600-612 | compaction keeps the invariant and the full log |
| `Quorums.QuorumsMeet` | src/raft/consensus.rs:91 | two quorums of size n/2 + 1 share a member |
| `Consensus.Node.HighestCommittable` | src/raft/consensus.rs:704-715 | the result is the highest index above the commit index that is of the current term and on a majority, else the commit index |
| `ConsensusObject.ConsensusModule.constructor` | src/raft/consensus.rs:83-129 | a node restored from its store, with cursors at the boundary and a stored snapshot pending |
| `ConsensusObject.ConsensusModule.Persist` | src/raft/consensus.rs:182-194 | the store equals the term, vote, log and snapshot in memory |
| `ConsensusObject.ConsensusModule.StepDown` | src/raft/consensus.rs:212-224 | a newer term is adopted and saved, its vote open; role, votes and pre-election are dropped |
| `ConsensusObject.ConsensusModule.BecomeLeader` | src/raft/consensus.rs:233-246 | every peer starts at the end of the log with nothing matched |
| `ConsensusObject.ConsensusModule.StartPreElection` | src/raft/consensus.rs:261-274 | a probe for the next term that changes neither term, vote nor store |
| `ConsensusObject.ConsensusModule.RecordPreVoteReply` | src/raft/consensus.rs:280-289 | a pre-vote is tallied, or a newer term adopted and saved |
| `ConsensusObject.ConsensusModule.PreVoteSucceeded` | src/raft/consensus.rs:292-294 | a pre-candidate holds a quorum of pre-votes |
| `ConsensusObject.ConsensusModule.StartElection` | src/raft/consensus.rs:299-317 | the new term and the own vote are saved before the request exists |
| `ConsensusObject.ConsensusModule.RecordVoteReply` | src/raft/consensus.rs:321-335 | votes of the current candidacy count, late ones do not, a newer term ends it |
| `ConsensusObject.ConsensusModule.HandleRequestVote` | src/raft/consensus.rs:347-392 | a granted vote is saved before the reply; a pre-vote changes nothing |
| `ConsensusObject.ConsensusModule.SpliceEntries` | src/raft/consensus.rs:429-449 | the loop over the entries computes the splice |
| `ConsensusObject.ConsensusModule.HandleAppendEntries` | src/raft/consensus.rs:396-459 | the handler, saved before it returns |
| `ConsensusObject.ConsensusModule.SubmitCommand` | src/raft/consensus.rs:516-527 | a leader appends and saves before it returns the index; others refuse |
| `ConsensusObject.ConsensusModule.HandleAppendReply` | src/raft/consensus.rs:536-567 | a success moves the peer forward only, a rejection backs off by the hint |
| `ConsensusObject.ConsensusModule.TakeSnapshot` | src/raft/consensus.rs:600-612 | an applied prefix is folded and saved together with its snapshot |
| `ConsensusObject.ConsensusModule.HandleInstallSnapshot` | src/raft/consensus.rs:629-670 | a newer snapshot replaces the prefix and is saved; a stale one changes nothing but the contact |
| `ConsensusObject.ConsensusModule.HandleInstallSnapshotReply` | src/raft/consensus.rs:674-697 | the reply moves the peer to the boundary that was shipped |
| `ConsensusObject.ConsensusModule.MaybeAdvanceCommit` | src/raft/consensus.rs:704-715 | the downward search finds the highest committable index |
| `ConsensusObject.ConsensusModule.TakeApplies` | src/raft/consensus.rs:734-755 | the pending snapshot and then every newly committed entry, and no lookup fails |
| `Driver.DriverLoop.Tick` | src/raft/node.rs:210-262 | the tick computes its decision, sends those messages, moves the heartbeat only when due and sending, and drains once |
| `Driver.DriverLoop.Replicate` | src/raft/node.rs:218-240 | snapshot for a lagging peer on heartbeats, entries or a heartbeat for any other |
| `Driver.TickIsSteps` | src/raft/node.rs:215-256 | every tick is an election step, a pre-election step, or sends that leave the leader unchanged |
| `Types.LogBuffer.Append` | src/raft/types.rs:209-213 | the entry is added and its index returned |
| `Types.LogBuffer.TruncateAfter` | src/raft/types.rs:228-235 | the tail past the index is dropped, never past the boundary |
| `Types.LogBuffer.Compact` | src/raft/types.rs:241-253 | the prefix is folded, a tail with a matching term kept and any other dropped |
| `Types.FirstPositionIs` | src/raft/types.rs:181-188 | the search finds the first entry of a term or there is none |
| `Types.LastPositionIs` | src/raft/types.rs:191-197 | the search finds the last entry of a term or there is none |
| `LogRefinement.SpliceRefines` | src/raft/consensus.rs:429-449 | splicing entries of a leader's log adopts that log up to the last of them, on the never compacted sequence |
| `LogRefinement.CompactForeignRefines` | src/raft/types.rs:241-253 | compaction to a foreign boundary keeps the tail exactly when the terms match |
| `LogRuns.InterleavingRefines` | src/raft/types.rs:209-253 | every interleaving of append, truncation above the boundary and compaction at a matching term stands for the plain sequence |
| `LogRuns.AccessorsRefine` | src/raft/types.rs:153-224 | last index, last term, term, entry and tail lookups answer as the plain sequence does at and above the boundary |
| `LogRuns.SearchesRefine` | src/raft/types.rs:181-197 | the term searches enclose every entry of the term above the boundary |
| `Storage.RaftStorage.Save` | src/raft/storage.rs:47-53 | a save replaces the whole state |
| `StateCodec.Encode` | src/raft/storage.rs:149-184 | the loop writes the layout |
| `StateCodec.Decode` | src/raft/storage.rs:189-235 | the cursor loop reads the layout, strict about header, flags and length |
| `StateCodec.DecodeEncode` | src/raft/storage.rs:149-235 | decoding an encoding gives back everything but a boundary that has no snapshot |
| `StateCodec.RoundTripIff` | src/raft/storage.rs:162-176 | the round trip is exact if and only if no snapshot implies the boundary (0, 0) |
| `StateCodec.PrefixRejected` | src/raft/storage.rs:187-188 | no strict prefix of an encoding decodes |
| `StateCodec.ExtensionRejected` | src/raft/storage.rs:226-228 | no strict extension of an encoding decodes |
| `StateCodec.FileStorage.Load` | src/raft/storage.rs:111-118 | a missing file is a fresh state, any other is decoded |
| `StateCodec.FileStorage.Save` | src/raft/storage.rs:120-142 | the file holds the encoding of the state |
| `Codec.Reader.Take` | src/raft/storage.rs:244-254 | bounds are respected and a failed read does not move |
| `Codec.Reader.U64` | src/raft/storage.rs:260-262 | a little-endian word |
| `Codec.Reader.Bytes` | src/app.rs:292-295 | a length and then that many bytes |
| `Codec.LeRoundTrip` | src/raft/storage.rs:260-262 | little-endian bytes give back their number |
| `App.ReplayKeepsDirectory` | src/app.rs:130-168 | the key directory lists exactly the stored keys after any log |
| `AppObject.AppState.Apply` | src/app.rs:94-99 | the outcome of the command goes to the waiter with its nonce and to no other |
| `AppObject.AppState.ApplyDeduplicated` | src/app.rs:103-126 | the dedup table decides between running and replaying the outcome |
| `AppObject.AppState.RunCommand` | src/app.rs:130-168 | each operation on store and directory, unknown ones refused |
| `AppObject.AppState.BuildSnapshot` | src/app.rs:174-194 | the blob is built from table and image in some iteration order |
| `AppObject.AppState.Install` | src/app.rs:200-220 | known keys are cleared, the image loaded and the table adopted; an undecodable blob is ignored |
| `AppObject.AppState.Round` | src/app.rs:315-334 | one round of the apply loop, with a snapshot once the log has 64 entries |
| `AppObject.DecodeBlob` | src/app.rs:249-267 | the loops read the blob |
| `SnapshotCodec.SnapshotDecodes` | src/app.rs:174-194 | whatever the iteration order, a blob decodes to the table and image it was built from |
| `SnapshotCodec.SnapshotInstalls` | src/app.rs:200-220 | installing a blob over any state removes the keys that state lists, lays the image over the rest and adopts directory and table |
| `SnapshotCodec.SnapshotRestoresIff` | src/app.rs:209-219 | the result is exactly the state the snapshot was taken of if and only if every stored key is listed or in the image |
| `SnapshotCodec.SnapshotRestores` | src/app.rs:200-220 | so it is for every state whose directory lists its stored keys |
| `SnapshotCodec.TruncatedSnapshotRejected` | src/app.rs:247-267 | every strict prefix of a blob is rejected |
| `SnapshotCodec.TrailingBytesIgnored` | src/app.rs:249-267 | bytes after a blob are ignored |
| `ExactlyOnce.ApplyRefinesRun` | src/app.rs:103-126 | the store is that of running only the new commands, without deduplication |
| `ExactlyOnce.DedupIsLatest` | src/app.rs:111-125 | the table holds, for exactly the clients seen, their highest number and its original outcome |
| `ExactlyOnce.SkippedIffOld` | src/app.rs:115-116 | a command is skipped exactly when an earlier one of its client has a number at least as high |
| `ExactlyOnce.RunAtMostOnce` | src/app.rs:103-126 | a client's numbers strictly rise among the commands that run |
| `ExactlyOnce.RetryReturnsOriginal` | src/app.rs:115-116 | a retry of the client's latest command returns the original outcome and changes nothing |
| `ExactlyOnce.ReplayApplies` | src/app.rs:318-324 | replaying a log applies its decodable commands in order |
| `RestartGap.InstallResets` | src/app.rs:209-219 | a restarted application clears nothing when it installs its snapshot |
| `RestartGap.DoubleAppend` | README.md:162-168 | one append applied before a crash is applied again after it |
| `RestartGap.RemovedKeyReturns` | src/raft/consensus.rs:650-668 | a crash between saving an installed snapshot and applying it brings a removed key back |
| `RestartGap.RecoversIff` | README.md:162-168 | whatever store survives, the recovered one is the replay if and only if every surviving key outside the snapshot is overwritten or removed in the tail, or was stored empty and is appended to by a new command of the tail |

## Left out

- gRPC services, clients, connections, tasks and shutdown: delivery is an arbitrary choice among sent messages.
- The storage engine: a map, whose errors the state machine would report, is enough for every statement here.
- The Protobuf form of commands and of the other messages: field copies; only the append reply changes on the wire.
- Temporary file, sync and rename of the state file: a save is an atomic replacement, and a failed save is not modelled.
- Liveness of elections: no statement depends on a leader being elected.
- The state of the application after a restart in the cluster model: a restarted process opens an empty store; `RestartGap` states what happens to a surviving one.
- The random timeout and the real clock: parameters of the steps.
- `next_nonce` after a restart: the counter starts again at 0 and hands numbers out twice; `NonceIff` says when two nonces then meet, and `WaiterGetsOwnEntry` holds while they do not.
- Timeouts of waiting callers and the leader hint of a refused request: bookkeeping without a property of its own.
- The outcome of a retry that is not the client's latest: the code returns the latest outcome, and nothing more is claimed.
- server.rs, clerk.rs, the binaries, the demo and the benchmark: wrappers and user interface.
