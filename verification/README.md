# Verification of GoSilver

GoSilver distributes a file over a LAN. A central sender splits it into 4 MiB chunks and tracks
which receiver has which chunk; receivers download in parallel from the sender and from each
other. This project models its protocol core in Dafny and proves what it promises for all
inputs, all interleavings and all runs. `dafny verify dfyconfig.toml` checks everything.

## The parts

- **Download engine** (`FeedOrder`, `Chunks`, `Engine`, `EngineSafety`, `EngineProgress`,
  `EngineFailover`, `EngineOutcome`, `MainSession`). `RunTo` is a transition system whose steps are
  its critical sections, channel hand-offs, context checks and request outcomes. A run of it is any
  enabled sequence of steps, with prefetch requests, failures and cancellation anywhere. Proved: a
  run that returns nil added every chunk exactly once and its file consists of successfully fetched
  data; a chunk is given up only after three attempts, each through every source; no run gets stuck;
  every run ends.
- **Swarm** (`Swarm`, `SwarmSilence`, `StaleGrant`). Many engines, one source, and a network that delivers a frame
  or damages it detectably. Proved: every announced chunk, every answer and every finished file is
  the source's, as long as every restart of a receiver is harmless; and exactly when a restart is.
- **One exchange** (`Exchange`, `Codec`, `SwarmWire`). The handler of getChunk, the framing and the
  receiver's `fetch`, on byte streams and buffers; `SwarmWire` proves that an answer in the swarm is
  exactly what such a handler sends, and a delivery exactly such a fetch.
- **Tracker** (`LeaseKeys`, `Ranking`, `TrackerState`, `TrackerSafety`, `TrackerRefinement`,
  `TrackerScores`, `TrackerLaws`, `Coordinator`, `Tracker`). The class `Session` updates its maps in
  place; each method is proved equal to a function in `TrackerState`, and the invariants and the
  refinement to a simple picture of registrations, (peer, chunk) pairs and leases are proved for
  those functions in any order. Iteration over a Go map is a loop that picks an arbitrary remaining
  key.
- **Connection pool** (`ConnPool`, `ConnPoolSafety`, `ConnPoolReuse`, `ConnPoolLoad`,
  `ConnPoolProgress`, `SplitRelease`). A transition system in which every channel operation is a
  step of its own.
- **Directory bundles** (`Names`, `Manifest`, `Files`, `Bundle`, `BundleSafety`, `Correspondence`,
  `BundleTheorems`, `Prepare`, `RoundTrip`). The disk is a map from absolute paths to directories,
  files and symbolic links, an archive a sequence of records. `Extract` changes the disk in place
  and is proved equal to a specification function, about which exact success, exact result, frame
  and round trip are proved.
- **Unconditional distribution** (`Distribution`, `DistributionSafety`, `DistributionOutcome`) and
  the **progress channel** (`ProgressChannel`), two smaller state machines.

The environment appears as parameters and as events: time, random draws, the bytes a disk accepts,
how deep directories can be made, the bytes a network delivers, `2^-x` as an arbitrary function,
and the checksum as an arbitrary function.

## What the proofs brought to light

- A session marked as a main sender answers `HasChunk` with true for every index, so `RunTo` on it
  skips every chunk. `MainSession.MainSessionCanSucceed` shows for every file a run that returns nil
  with nothing downloaded, and `EngineSafety.MainSessionDownloadsNothing` that nil then always means
  that.
- A provider checks `HasChunk`, then waits up to 30 seconds for an upload slot, then reads. If it
  starts another download in between, `BeSendSub` has replaced its file and the reader may be sent the
  empty one under a checksum that matches. `StaleGrant.RestartCanSpoilAnotherReceiver` is a run in
  which another receiver finishes with a wrong file. `Swarm.StartIsSafeExactlyWhen`: everything stays
  the source's in every continuation if and only if the outstanding grants of the starting receiver
  are all for chunks of zeros.
- The `README.md` of the repository (line 86) speaks of at most 10 lent or idle connections per
  address. The two bounds hold separately (`ConnPoolSafety.BoundedPerAddress`). Idle, dialling and
  borrowed sockets together are at most one more than the maximum (`ConnPoolLoad.LoadWithinOneMore`);
  they stay within it throughout a run exactly when no thread starts to dial while the maximum is
  engaged (`ConnPoolLoad.LoadBoundedExactly`), which takes another thread between the two halves of
  `release`. `SplitRelease.SplitReleaseExceedsLoad` reaches the one more, and in
  `SplitRelease.SplitReleaseClosesUsableSocket` a usable socket is closed for lack of room.
- The coordinator's backoff condition needs more than four leases at a receiver, but leases stop at
  two: `TrackerSafety.BackoffNeverNeeded`.
- `BeSendMain` on content that was not cleared keeps surplus chunk entries
  (`TrackerSafety.SurplusSurvives`, `TrackerSafety.PreparedExactly`), and a peer that reports chunks under the central id takes the
  central ownership along when it disconnects (`TrackerSafety.CentralRemovalLosesReports`).
- The frame length and the buffer capacity are truncated to 32 bits, so the codec is exact only
  below 2^32 bytes; `Codec.FrameRoundTrip` is an equivalence for every limit below that.
- The step search of the feed order never wraps around: it ends on the smallest coprime step that is
  not below the drawn one (`FeedOrder.FindStep`).
- `Prepare` does not check the total size, so a bundle beyond 1 PiB is packed and then refused by
  every receiver: `RoundTrip.DirectoryRoundTrip` is an equivalence.

## Model

| member | source | states |
|---|---|---|
| FeedOrder.GcdOneIffCoprime | internal/receiver/download.go:265-270 | Euclid's loop yields 1 exactly for coprime numbers |
| FeedOrder.ComputeGcd | internal/receiver/download.go:265-270 | the loop computes the mathematical gcd |
| FeedOrder.FindStep | internal/receiver/download.go:76-81 | whatever is drawn, the search ends with the smallest coprime step not below the draw |
| FeedOrder.FeedSurjective | internal/receiver/download.go:217 | every chunk index comes up in some round of the walk |
| FeedOrder.FeedInjective | internal/receiver/download.go:217 | no index comes up in two rounds |
| FeedOrder.Walk | internal/receiver/download.go:70-81 | for all counts and draws the walk is a permutation of the indices, without 64-bit overflow under the metadata bound of line 46 |
| Chunks.TilesAreDisjoint | internal/chunk/read.go:15-24 | the ranges of different chunks do not overlap |
| Chunks.ByteHasOneTile | internal/chunk/read.go:10-27 | each byte of a file lies in exactly one chunk range |
| Chunks.TotalLenOfAll | internal/chunk/write.go:8-21 | the exact chunk lengths add up to the file size |
| Chunks.CopyingEveryChunkCopiesFile | internal/chunk/write.go:8-21 | saving every chunk read from a source into an equally long file, in any order and with repeats, yields the source bytes |
| Chunks.FileChunk.GetChunkNum | internal/chunk/file.go:20-25 | the file size over the chunk size, rounded up, and 0 without a file |
| Chunks.FileChunk.ReadChunk | internal/chunk/read.go:10-27 | succeeds exactly for a valid index, enough buffer and enough file, fills the front of the buffer with that range and leaves the rest |
| Chunks.FileChunk.Save | internal/chunk/write.go:8-21 | succeeds exactly for a valid index, the exact length and a whole write, whatever the current length of the file; refused data changes nothing, a short write leaves a prefix |
| Chunks.TransferChunk | internal/chunk/read.go:10-27 | a local copy: a chunk read from one file and saved into an equally long one arrives at its place, and nothing else changes |
| Engine.Candidates | internal/receiver/download.go:138-150 | an attempt has at least one source, always including the central one |
| Engine.CandidatesKeepOrder | internal/receiver/download.go:138-155 | the sources of an attempt are the listed ones in their order, and the central one last exactly if it is not among them |
| EngineSafety.InvStep | internal/receiver/download.go:115-232 | every step keeps the ownership discipline: one worker per claimed index, a chunk enters chunkHash while still claimed, counters match the settled chunks, failure recorded before cancel |
| EngineSafety.InvAlways | internal/receiver/download.go:115-232 | so it holds in every state of every run |
| EngineSafety.FileGoodStep | internal/receiver/download.go:169-191 | a chunk that was added is never written again, whatever other workers do |
| EngineSafety.SuccessIsComplete | internal/receiver/download.go:233-240 | nil after the join means every index was added exactly once, done is the chunk count and received the file size |
| EngineSafety.SuccessWasFetched | internal/receiver/download.go:169-191 | every chunk of the published file is the payload of one successful fetch of that index in the run |
| EngineSafety.MainSessionDownloadsNothing | internal/gsp_sdk/server/tool.go:190-201 | for a session marked as main sender nil means nothing was downloaded; nil means complete exactly if it is not marked or there is nothing to download |
| MainSession.MainSessionCanSucceed | internal/receiver/download.go:119-128 | for every file such a session has a run that returns nil, with nothing added and the file as empty as at the start |
| EngineProgress.NeverStuck | internal/receiver/download.go:115-234 | until everything has joined, some goroutine has an enabled step |
| EngineProgress.AlwaysEnds | internal/receiver/download.go:115-234 | no run takes more than 100 steps per chunk plus 11, whatever the schedule and the prefetch requests |
| EngineProgress.AtMostTwoSendsPerChunk | internal/receiver/download.go:216-232 | at most two hand-offs happen per chunk |
| EngineFailover.FitsAlways | internal/receiver/download.go:130-203 | in every state of every run the sources a worker has left and the fetches that failed are together the sources of the last reply, in order, and all earlier attempts went through theirs |
| EngineFailover.FailureMeansExhausted | internal/receiver/download.go:130-212 | a failure is recorded only after exactly three attempts for the chunk, each of which got no answer from the tracker or fetched in vain from every listed source in order and from the central one |
| EngineFailover.CentralIsEnough | internal/receiver/download.go:138-212 | a run in which the tracker always answers and no fetch from the central source fails records no failure, whatever the other sources do |
| EngineOutcome.NothingBegins | internal/receiver/download.go:131-158 | once the workers are cancelled no request to the tracker or to a source begins; what is under way was under way then |
| EngineOutcome.FirstFailureIsReported | internal/receiver/download.go:204-240 | a run reports the chunk that was given up first, and a failure exactly if some worker gave up |
| EngineOutcome.UrgentIsQueue | internal/receiver/download.go:86-94 | prefetch requests for chunks of the file wait, four at most, in the order of their arrival, and the feeder offers the one it took up last |
| EngineOutcome.UrgentFirst | internal/receiver/download.go:218-227 | the feeder goes on to the walk exactly when no prefetch request is waiting |
| EngineOutcome.HandedOver | internal/receiver/download.go:217-232 | a worker is handed the prefetch request that is offered, or else the next index of the walk, and only the latter advances the walk |
| Swarm.InvStep | internal/gsp_sdk/client/receiver.go:94-144 | every step of any receiver, provider or the network, harmless starts included, keeps chunk data, outstanding grants and replies right |
| Swarm.InvAlways | internal/gsp_sdk/client/receiver.go:94-144 | so they are equal in every state of such a run |
| Swarm.Integrity | internal/gsp_sdk/server/handle/handle.go:92-124 | in every run whose starts are harmless, announced chunks, answers and finished files are the source's |
| Swarm.StartIsSafeExactlyWhen | internal/gsp_sdk/server/session.go:310-321 | after a start all of that holds in every continuation with harmless starts if and only if the outstanding grants of the starting receiver are for chunks of zeros |
| Swarm.AnswersAfterRestart | internal/gsp_sdk/server/tool.go:26-38 | before the first step of the new run the outstanding grants are answered rightly exactly if those source chunks are all zeros |
| SwarmSilence.StoppedIsSilent | internal/receiver/download.go:56-63 | a receiver that left, or failed to publish its file, grants and answers nothing until it starts again |
| SwarmSilence.GrantIsSpent | internal/gsp_sdk/server/handle/handle.go:100-120 | a request is answered at most once: after its answer, or once it was given up, there is none without asking HasChunk again |
| StaleGrant.RestartCanServeWrongData | internal/gsp_sdk/server/handle/handle.go:100-112 | a concrete run answers with a wrong byte under a matching checksum |
| StaleGrant.RestartCanSpoilAnotherReceiver | internal/gsp_sdk/client/receiver.go:132-143 | and another receiver takes it, passes every check and finishes with a file that is not the source |
| Exchange.GetChunk | internal/gsp_sdk/server/handle/handle.go:92-124 | sends, as far as the connection takes it, the response whose meaning `Exchange.GivenExactly` states, and closes the connection exactly if a reply does not fit |
| Exchange.GivenExactly | internal/gsp_sdk/server/handle/handle.go:100-120 | the response is accepted as the chunk exactly if the index is valid, the session is the main one or added that chunk, a slot came free, the whole range is in the file, and a main session's file did not change; it then carries that range |
| Exchange.ReadServed | internal/gsp_sdk/server/tool.go:26-38 | reads exactly a readable chunk, of a main session only if its file is unchanged before and after |
| Exchange.Fetch | internal/gsp_sdk/client/receiver.go:94-144 | saves the chunk exactly if header, index, status, frame types, checksum and length are right and the disk takes it all; what is refused leaves the file alone, a disk that takes less is left with a part from the front |
| Exchange.ReplyIsSound | internal/gsp_sdk/client/receiver.go:113-135 | a whole reply of the handler is accepted exactly for its own index and carries the bytes that were read |
| Exchange.RefusalIsNotSound | internal/gsp_sdk/client/receiver.go:117-122 | a refusal is never taken for data |
| SwarmWire.SoundExactly | internal/gsp_sdk/client/receiver.go:113-135 | a delivered response is accepted exactly if it is for the requested chunk, fits the buffer and has the announced checksum |
| SwarmWire.BrokenIsNotSound | internal/gsp_sdk/client/receiver.go:106-128 | a response that breaks off is never accepted |
| SwarmWire.UndamagedIsReply | internal/gsp_sdk/server/handle/handle.go:117-120 | an undamaged response is the handler's reply byte for byte |
| SwarmWire.FetchIsDelivery | internal/gsp_sdk/client/receiver.go:94-144 | on the bytes of a delivered response a fetch returns, and leaves in the file, exactly what the swarm's step says |
| SwarmWire.DeliveredIsNext | internal/receiver/download.go:169-175 | and that step is enabled in the engine and leaves that file |
| SwarmWire.HandlerServes | internal/gsp_sdk/server/handle/handle.go:100-120 | a provider of the swarm, receiver or source, grants a request exactly if its handler does not refuse it, and then answers with the handler's reply |
| SwarmWire.HandlerReads | internal/gsp_sdk/server/tool.go:26-38 | a request granted at any time before is answered with what the handler reads now |
| LeaseKeys.LeaseKeyInjective | internal/gsp_sdk/server/queue.go:215-217 | distinct (requester, index) pairs never share a key, colons in requesters included |
| LeaseKeys.FormatIntRoundTrip | internal/gsp_sdk/server/queue.go:215-217 | the decimal form of an index determines the index |
| Ranking.RankingUnique | internal/gsp_sdk/server/queue.go:122-127 | there is only one list sorted by score and then id, so the result does not depend on map order |
| Ranking.SortAllRanks | internal/gsp_sdk/server/queue.go:122-127 | sorting candidates with distinct ids gives that ranking |
| Ranking.SortedIsBestFirst | internal/gsp_sdk/server/queue.go:122-127 | in a sorted list later sources never have a larger score, and equal scores come in ascending order of id: smaller at the first difference, or a proper prefix |
| TrackerSafety.InvStep | internal/gsp_sdk/server/tool.go:87-122 | each operation keeps connNum equal to the number of leases, the limit for receivers, and the mutual inverse of the owner maps |
| TrackerSafety.InvAlways | internal/gsp_sdk/server/queue.go:130-188 | the same holds after any operations in any order |
| TrackerSafety.CandidatesAreExact | internal/gsp_sdk/server/queue.go:70-129 | the candidate list has the central node once and besides it exactly the eligible owners, each once, in the order of `TrackerScores.RankedBestFirst` |
| TrackerScores.RankedBestFirst | internal/gsp_sdk/server/queue.go:70-129 | later candidates never score higher, equal scores come in ascending order of id, and each candidate has the score of its record in the requester's zone |
| TrackerScores.PeerScore | internal/gsp_sdk/server/queue.go:61-69 | speed or 1000 shared among the leases and the next one, 0.15 of it across zones, halved per failure, where failures count half every thirty seconds |
| TrackerScores.LeaseLowers | internal/gsp_sdk/server/queue.go:61-63 | one more lease lowers the score |
| TrackerScores.OtherZoneLowers | internal/gsp_sdk/server/queue.go:64-69 | a source in another zone than the requester's named one scores lower than the same source in it |
| TrackerScores.FailureLowers | internal/gsp_sdk/server/queue.go:98-101 | one more failure in a row lowers the score |
| TrackerScores.TimeHeals | internal/gsp_sdk/server/queue.go:98-101 | a source with failures scores higher the longer the last one is ago |
| TrackerScores.SpeedRaises | internal/gsp_sdk/server/queue.go:102-106 | a faster source scores higher |
| TrackerScores.CentralScore | internal/gsp_sdk/server/queue.go:108-121 | the central node is scored by its speed and leases alone, times 10^9 exactly for a named zone without an owner of the chunk |
| TrackerScores.ZoneOfRequest | internal/gsp_sdk/server/queue.go:73-81 | the requester's zone is the stated one, else the registered one, else that of its connection |
| TrackerScores.EligibleMeans | internal/gsp_sdk/server/queue.go:84-97 | may serve: another registered owner of the chunk, not the central node, not at rest, with fewer than two leases |
| TrackerScores.LocalOwnerMeans | internal/gsp_sdk/server/queue.go:82-94 | a zone has an owner exactly if another registered owner of the chunk is in it, at rest or not |
| TrackerSafety.BestMayBeLeased | internal/gsp_sdk/server/queue.go:45-46 | the source that gets the lease is the central node or a receiver below its limit |
| TrackerSafety.BackoffNeverNeeded | internal/gsp_sdk/server/control.go:154-163 | the backoff condition is false for every receiver in every reachable state |
| TrackerSafety.EpochAlways | internal/gsp_sdk/server/session.go:289-303 | within the stated use the keys of ChunkOwners are exactly the chunks of the file and the central node owns all of them |
| TrackerSafety.PreparedExactly | internal/gsp_sdk/server/session.go:298-303 | preparing n chunks leaves exactly those exactly if no older key lies beyond them |
| TrackerSafety.SurplusSurvives | internal/gsp_sdk/server/session.go:298-303 | preparing m chunks and then fewer without clearing leaves all m, each owned by the central node |
| TrackerSafety.CentralIdMustNotReport | internal/gsp_sdk/server/peer.go:28-57 | reporting under the central id and disconnecting removes a central ownership |
| TrackerSafety.CentralRemovalLosesReports | internal/gsp_sdk/server/peer.go:28-40 | removing the central id keeps exactly those of its chunks that were not reported under it |
| TrackerSafety.ChunksWithinTotal | internal/gsp_sdk/server/session.go:125-153 | no peer ever owns more chunks than the reported total |
| TrackerRefinement.Refines | internal/gsp_sdk/server/queue.go:33-188 | every operation in every reachable state changes registrations, owner pairs and leases as its simple meaning says |
| TrackerRefinement.LeasedLeases | internal/gsp_sdk/server/queue.go:130-144 | granting a lease sets that lease and no other |
| TrackerRefinement.ReleasedLeases | internal/gsp_sdk/server/queue.go:157-172 | releasing a lease removes that lease and no other |
| TrackerRefinement.ExpiredLeases | internal/gsp_sdk/server/queue.go:174-188 | expiry removes exactly the leases that are over |
| Tracker.Session.AddPeer | internal/gsp_sdk/server/peer.go:9-25 | registers or readdresses one peer and changes nothing else |
| TrackerLaws.KnownPeerMoves | internal/gsp_sdk/server/peer.go:9-25 | a known peer gets the new address and connection and keeps its leases, speed, zone and failures |
| TrackerLaws.NewPeerStartsAfresh | internal/gsp_sdk/server/peer.go:9-25 | an unknown peer starts without zone, speed, leases and failures |
| Tracker.Session.RemovePeer | internal/gsp_sdk/server/peer.go:28-40 | the loop removes the peer from both owner maps and the registry |
| Tracker.Session.AddBlockOwner | internal/gsp_sdk/server/peer.go:43-57 | adds the pair to both maps, for a valid chunk of a registered peer only |
| Tracker.Session.SetPeerZone | internal/gsp_sdk/server/control.go:191-197 | sets the stated zone, or else the one of the registered address, of a registered peer only |
| Tracker.Session.Lease | internal/gsp_sdk/server/queue.go:130-144 | counts a new lease once and renews an existing one |
| TrackerLaws.LeaseLasts | internal/gsp_sdk/server/queue.go:130-143 | a lease lasts 45 seconds from when it was granted or renewed last |
| Tracker.Session.Release | internal/gsp_sdk/server/queue.go:157-172 | returns a lease that exists and changes nothing otherwise |
| Tracker.Session.ExpirePeer | internal/gsp_sdk/server/queue.go:179-186 | dropping the leases one at a time ends as dropping all expired ones at once |
| Tracker.Session.ExpireLeases | internal/gsp_sdk/server/queue.go:174-188 | the two loops drop every peer's expired leases and count them down |
| Tracker.Session.UpdatePeer | internal/gsp_sdk/server/tool.go:87-122 | returns the lease, then punishes with cooldown and loss of ownership or credits the speed |
| TrackerLaws.FailureIsPunished | internal/gsp_sdk/server/tool.go:94-113 | a failure returns the lease, is counted, halves the speed and sets a rest of 2, 4, 8 and then always 16 seconds; nobody else changes |
| TrackerLaws.FailureCostsTheChunk | internal/gsp_sdk/server/tool.go:103-107 | a failure takes the reported chunk from a receiver, in both owner maps, and nothing else from anybody |
| TrackerLaws.FailedReceiverRests | internal/gsp_sdk/server/queue.go:95-97 | until that rest is over the receiver is a candidate of no want |
| TrackerLaws.SuccessIsCredited | internal/gsp_sdk/server/tool.go:114-121 | a success returns the lease, ends streak and rest, and takes the first speed over, later ones by three tenths |
| Tracker.Session.BeSendMain | internal/gsp_sdk/server/session.go:280-307 | refuses what is no regular file; else marks the session, registers the central node afresh and makes it owner of every chunk |
| TrackerLaws.PreparedSender | internal/gsp_sdk/server/session.go:280-307 | a prepared sender has exactly the chunks of its file, and the central node owns them besides what was owned before |
| Tracker.Session.MarkSender | internal/gsp_sdk/server/session.go:375-382 | marks the session and registers the central node if it is not yet registered |
| TrackerLaws.MarkedSender | internal/gsp_sdk/server/session.go:375-382 | marking gives the session every chunk of the file it has and keeps every registered peer |
| Tracker.Session.BeSendSub | internal/gsp_sdk/server/session.go:310-321 | exchanges the chunk provider, forgets the added chunks and leaves the tracker alone otherwise |
| TrackerLaws.NewProvider | internal/gsp_sdk/server/session.go:310-321 | a receiver has no chunk of its new file |
| Tracker.Session.ClearChunks | internal/gsp_sdk/server/session.go:368-373 | drops the chunk provider and the added chunks |
| Tracker.Session.AddChunk | internal/gsp_sdk/server/tool.go:78-84 | adds a chunk; the first checksum stays |
| TrackerLaws.AddedChunk | internal/gsp_sdk/server/tool.go:78-84 | adding a chunk adds that one to what the session has, and its first checksum stays |
| Tracker.Session.HasChunk | internal/gsp_sdk/server/tool.go:190-201 | true exactly for a valid index of a main session or of an added chunk |
| Tracker.Session.ClearContent | internal/gsp_sdk/server/session.go:390-401 | empties provider, added chunks, both owner maps and all leases and keeps the peers |
| TrackerLaws.NothingLeft | internal/gsp_sdk/server/session.go:390-401 | afterwards no chunk is had or owned and no lease is held, and everybody stays registered as before |
| Tracker.Session.ClearPeers | internal/gsp_sdk/server/session.go:397-400 | the loop empties the leases of every peer and keeps the rest |
| Tracker.Session.CollectCandidates | internal/gsp_sdk/server/queue.go:82-107 | the loop collects each eligible owner once, in whatever order, and tells whether the zone has an owner |
| Tracker.Session.CandidatesLocked | internal/gsp_sdk/server/queue.go:70-129 | expires leases and returns the unique ranking of the candidates |
| Tracker.Session.WantRequest | internal/gsp_sdk/server/queue.go:33-54 | answers with the first min(max(want, 1), 3) candidates by score and then id, address and id each, and with the first one and the checksum; leases that one, and returns the lease if the response could not be sent |
| Tracker.Session.Snapshot | internal/gsp_sdk/server/session.go:125-153 | lists every peer once, with its own data and at most the total number of chunks |
| Tracker.Session.ScanZones | internal/gsp_sdk/server/control.go:113-131 | per named zone: what is owned there, and a member that owns most |
| Tracker.Session.PrefetchZone | internal/gsp_sdk/server/control.go:144-151 | the loop sends the first missing chunks, at most four |
| Tracker.Session.PrefetchZones | internal/gsp_sdk/server/control.go:139-152 | every zone gets its own commands and no other |
| Tracker.Session.BackoffCommands | internal/gsp_sdk/server/control.go:154-163 | under the invariant the loop never issues a command |
| Tracker.Session.CoordinateOnce | internal/gsp_sdk/server/control.go:95-169 | each named zone with a receiver gets prefetches for its smallest missing chunks, at most four, all to one best-stocked member |
| Coordinator.FirstMissingIsLeast | internal/gsp_sdk/server/control.go:144-151 | the chosen chunks are missing, increasing, and no missing chunk is passed over |
| ConnPoolSafety.InvStep | pkg/conn_pool/pool.go:42-145 | every channel or mutex step keeps permits, idle sockets, borrowed sockets and threads consistent |
| ConnPoolSafety.InvAlways | pkg/conn_pool/pool.go:42-145 | so they are consistent in every state of every run |
| ConnPoolSafety.BoundedPerAddress | pkg/conn_pool/pool.go:42-121 | per address at most max borrowed and at most max idle sockets |
| ConnPoolSafety.ReturningPermitNeverBlocks | pkg/conn_pool/pool.go:78-107 | taking a permit back never waits |
| ConnPoolProgress.StuckExactlyOnBorrowers | pkg/conn_pool/pool.go:42-145 | in every reachable state no call can go on if and only if every call that has begun waits for a permit of an address whose permits all belong to borrowed sockets |
| ConnPoolSafety.EverySocketHasOnePlace | pkg/conn_pool/pool.go:61-121 | every dialled socket is closed, idle at its own address, or with exactly one thread; idle ones are open |
| ConnPoolReuse.GivenUpForGood | pkg/conn_pool/pool.go:61-111 | in every later state of every run a socket that was discarded, or was too old when it was found, is in no idle channel and with no borrower, and closed once its release is over |
| ConnPoolReuse.ReleaseDecides | pkg/conn_pool/pool.go:95-120 | a release ends with the socket idle at its address exactly if it was given back for reuse, is usable, the pool is open and there is room, and else with the socket closed |
| ConnPoolReuse.IdleIsQueue | pkg/conn_pool/pool.go:61-120 | an idle channel holds the sockets that were stored and not yet taken out, in the order of the releases |
| ConnPoolReuse.OldestFirst | pkg/conn_pool/pool.go:61-71 | a call finds the socket stored first, and none exactly if all were taken out; it keeps a young one and closes one that is too old |
| ConnPoolReuse.GetsWhatItFound | pkg/conn_pool/pool.go:83-91 | a call returns the socket it dialled or found, unless the pool was closed meanwhile; then that socket is closed |
| ConnPoolSafety.NothingAfterClose | pkg/conn_pool/pool.go:122-145 | after Close no socket is idle, none is handed out and no call begins |
| ConnPoolLoad.LoadWithinOneMore | pkg/conn_pool/pool.go:42-121 | idle, dialling and borrowed sockets of an address together never exceed max + 1 |
| ConnPoolLoad.OnlyOvertakingExceeds | pkg/conn_pool/pool.go:61-82 | from within max exactly a dial while max sockets are engaged exceeds it, and only while another thread is inside release |
| ConnPoolLoad.LoadBoundedExactly | pkg/conn_pool/pool.go:42-121 | the sum stays within max throughout a run if and only if the run has no such dial |
| ConnPoolLoad.ClosesForLackOfRoom | pkg/conn_pool/pool.go:116-120 | the closing default branch finds no room exactly when the sum is above max and nobody else is engaged |
| ConnPoolLoad.AtomicReleaseBoundsLoad | pkg/conn_pool/pool.go:95-121 | with release as one step idle, dialling and borrowed sockets together stay within max |
| ConnPoolLoad.AtomicReleaseFindsRoom | pkg/conn_pool/pool.go:116-120 | then the closing default branch is never taken for lack of room |
| SplitRelease.SplitReleaseExceedsLoad | pkg/conn_pool/pool.go:107-120 | with the permit return as its own step a concrete run reaches max + 1 |
| SplitRelease.SplitReleaseClosesUsableSocket | pkg/conn_pool/pool.go:116-120 | and a longer one closes a usable socket of an open pool |
| Codec.Decode | internal/gsp/codec.go:16-40 | reads one frame into the buffer, with the outcome and the remaining stream of the specification |
| Codec.DecodeBounded | internal/gsp/codec.go:57-78 | the same under an explicit limit, in the given buffer or a new one |
| Codec.EncodeTo | internal/gsp/codec.go:43-54 | sends the encoded frame, or a prefix of it and an error |
| Codec.FrameRoundTrip | internal/gsp/codec.go:16-54 | a frame is read back with exactly its bytes consumed exactly if its payload fits |
| Codec.PrefixYieldsNothing | internal/gsp/codec.go:16-40 | a strict prefix of a frame never yields a packet |
| Codec.ReEncode | internal/gsp/codec.go:16-54 | encoding a decoded packet gives back the consumed bytes |
| Codec.StreamRoundTrip | internal/gsp/codec.go:16-78 | any sequence of fitting frames is read back as sent |
| Codec.LimitsAgree | internal/gsp/codec.go:28-67 | decoders with different limits agree where both accept |
| Names.SafeNameIsExact | internal/transfer/files.go:38-40 | accepted are exactly the names without backslash, colon and NUL whose components are non-empty and neither . nor .. |
| Names.CleanLeadsThere | internal/transfer/files.go:39 | cleaning a name as path.Clean does leads to the same place, from every directory or from the root if it begins there |
| Names.DirOfProper | internal/transfer/files.go:243 | the parent of such a name is the name without its last component, or . at the top |
| Manifest.ParentsAreDirs | internal/transfer/files.go:243-247 | the parent walk ends and finds a file above the name exactly if there is one |
| Manifest.ValidateEntries | internal/transfer/files.go:225-250 | accepts exactly the valid manifests, without int64 overflow |
| Files.MkdirAllCreates | internal/transfer/files.go:387-394 | creating a directory leaves it and everything above it in place |
| Files.MkdirAllWorks | internal/transfer/files.go:387-394 | it succeeds if no file is in the way and the file system allows the depth |
| Files.Disk.MkdirAll | internal/transfer/files.go:387-394 | the recursive creation changes the disk as specified |
| Files.Disk.Rename | internal/transfer/files.go:423 | a finished file takes its place unless a directory is there |
| Bundle.NearestIsDirectory | internal/transfer/files.go:297-317 | the climb to the nearest existing node decides whether a file is in the way |
| Bundle.Resolve | internal/transfer/files.go:207-222 | the walk down a path finds a symbolic link exactly if there is one |
| Bundle.ProbeEntry | internal/transfer/files.go:270-317 | passes exactly if the entry fits: its kind, permission to replace, only directories above it and no link |
| Bundle.ProbeEntries | internal/transfer/files.go:270-332 | passes exactly if every entry fits, and counts the bytes of the files |
| Bundle.ProbeTarget | internal/transfer/files.go:259-346 | passes exactly if the manifest is valid, every entry fits what is on the disk, the target is writable and the free space suffices, as compared in 64 bits; counts the bytes of the files |
| Bundle.MakeIndex | internal/transfer/files.go:355-358 | the expected entries by name |
| Bundle.StoreFile | internal/transfer/files.go:392-428 | one file is stored, or only directories above it were made |
| Bundle.Extract | internal/transfer/files.go:347-434 | changes the disk and answers as the specification says, for every archive and fault |
| BundleSafety.NextIsPlaced | internal/transfer/files.go:386-424 | while a fitting manifest is unpacked the next accepted record can always be placed |
| BundleSafety.RunIsProcessed | internal/transfer/files.go:365-429 | after any part of the archive the records so far were wanted, came once each, and the disk is what they describe |
| BundleTheorems.SuccessIsExact | internal/transfer/files.go:365-433 | success means that every record has the safe name of an entry, up to one slash, its size and its kind, every entry has exactly one such record, and the disk is determined at every path |
| BundleTheorems.SucceedsExactlyWhen | internal/transfer/files.go:347-434 | without file system faults success is equivalent to a passed probe, a complete archive and that correspondence |
| BundleTheorems.OneToOneHere | internal/transfer/files.go:376-381 | for a valid manifest each record is accepted once and nothing is left exactly if archive and manifest correspond in the fields of records and entries |
| Correspondence.BelongsExactly | internal/transfer/files.go:376-380 | a record passes the check for an entry exactly if it has its name, possibly with one slash behind it, its size, and the kind directory or regular file as the entry says |
| BundleTheorems.RoomMeans | internal/transfer/files.go:341-343 | there is room exactly if the total with the extra bytes is at most the free space, or that is unknown; a negative sum counts modulo 2^64 |
| BundleTheorems.ModeMeans | internal/transfer/files.go:401 | an extracted file keeps the permission bits of its entry except write for group and others |
| BundleTheorems.ExtractionFrame | internal/transfer/files.go:386-428 | however it ends, nothing disappears, only files of the manifest are replaced, and new nodes are manifest files or directories on the way to an entry |
| BundleTheorems.NeverThroughLinks | internal/transfer/files.go:382-421 | no path that is or leads through a symbolic link is ever changed |
| BundleTheorems.ChangesStayInside | internal/transfer/files.go:378-385 | every change is at or above the target or below it under proper names |
| Prepare.PrepareSource | internal/transfer/files.go:41-149 | the entries and records mirror the walk one by one; refused are exactly links, special files, unsafe names and more than 10000 entries |
| Prepare.AncestorsAreItems | internal/transfer/files.go:84-135 | everything above an item of a walk is a directory of the walk |
| Prepare.WalkManifest | internal/transfer/files.go:102-113 | the manifest of a packed directory is valid exactly if the total is at most 1 PiB |
| RoundTrip.DirectoryRoundTrip | internal/transfer/files.go:84-433 | packing and unpacking into an empty target succeeds exactly within that total, and then restores the same names, kinds and bytes, with the mode masked by 0755 |
| RoundTrip.PackAndUnpack | internal/transfer/files.go:41-433 | the two methods run one after the other: success exactly for a packable walk within the total, then the directory is restored, and nothing outside the manifest changes in any case |
| DistributionSafety.InvStep | internal/webui/distribution.go:67-172 | every step keeps what may have been said to each peer in line with its goroutine and the members |
| DistributionSafety.InvAlways | internal/webui/distribution.go:67-172 | so it is in line in every state of every run |
| DistributionSafety.StartedAtMostOnce | internal/webui/distribution.go:105-122 | each peer is started at most once, after a good probe, and never after a failed one |
| DistributionSafety.PauseAdmitsNobody | internal/webui/distribution.go:174-181 | after a pause only newcomers of the round in progress are contacted, and later rounds only poll |
| DistributionSafety.EveryoneIsServed | internal/webui/distribution.go:78-140 | a round that ends without cancellation has polled every running member, paused or not, and probed every newcomer if accepting |
| DistributionOutcome.ToldAlways | internal/webui/distribution.go:95-139 | throughout a round each goroutine and member agrees with the answers of its peer so far |
| DistributionOutcome.AnswersAreKept | internal/webui/distribution.go:105-139 | after a round that ends without cancellation every newcomer with a good probe was started and is what its start answered, one with a bad probe is left out, a running member is what its poll answered, and nobody else changed |
| ProgressChannel.InvAlways | pkg/gosilver/gosilver.go:158-192 | in every state of every run the buffer is bounded, in order, and only the last emitted entry can be final |
| ProgressChannel.EmitNeverBlocks | pkg/gosilver/gosilver.go:158-171 | whatever the consumer does, an emit can always take its next step |
| ProgressChannel.ConsumerSeesInOrder | pkg/gosilver/gosilver.go:158-171 | delivered and buffered entries are the emitted ones in order, less those dropped, and end with the latest |
| ProgressChannel.DrainedSeesFinalStatus | pkg/gosilver/gosilver.go:172-192 | a consumer that drains the channel to its close sees the final status last |
| ProgressChannel.EmittedAreEntries | pkg/gosilver/gosilver.go:172-225 | what is emitted is one entry per report, completion or failure, with the status and number of that event |
| ProgressChannel.DrainedSeesOutcome | pkg/gosilver/gosilver.go:172-192 | the last entry such a consumer sees is completed, cancelled or failed according to the last event that said anything, with the number it goes with |

## Left out

- Sockets, deadlines, JSON, discovery, the web interface, command execution and process handling: I/O, or no property beyond one body.
- CRC32: the checksum is an arbitrary function; the integrity theorem assumes that the network delivers a data frame or damages it in a way the checksum detects.
- A source file that changes during a transfer, and the `Unchanged` checks: the swarm theorem is about one epoch of the source.
- `IndexValid`, `pickFor`, `peerByConn`, `acquireUpload`, `ReleaseUploadSlot` and `ApplyControl`: simpler relatives of what is modelled; a wait for an upload slot appears as the gap between a grant and its answer, and as a parameter of `Exchange.GetChunk`.
- `f.Sync`, the overwrite check and the rename after the join of `RunTo`, its table of active sources and its speed samples: file system and display.
- Floating point: scores and speeds are reals, and `math.Pow(0.5, x)` is an arbitrary function.
- Peer records are values in a map: that a reference to a peer can outlive its registration is not captured; all accesses in the modelled methods go through the map.
- Tracker.Session.SetPeerZone: the zone that an address suggests is an arbitrary function of the address.
- Tracker.Session.BeSendSub: the files of earlier downloads that it closes are not part of the state.
- Tracker.Session.BeSendMain: starting the coordinator is not part of it.
- Tracker.Session.WantRequest: whether the response could be sent is a parameter.
- TrackerSafety.EpochAlways: assumes that a file is prepared on cleared content only, that the sender does not become a receiver meanwhile, and that nobody reports chunks under the central id; `TrackerSafety.PreparedExactly` and `TrackerSafety.CentralRemovalLosesReports` show why.
- Tracker.Session.CoordinateOnce: assumes that no peer has the empty id, which registration refuses (internal/gsp_sdk/server/handle/handle.go:135).
- Swarm.Integrity: assumes that every start of a receiver is harmless; `Swarm.StartIsSafeExactlyWhen` shows that nothing weaker will do.
- Exchange.GetChunk: whether the wait for an upload slot succeeded and whether the source file is unchanged are parameters, and the texts of its refusals are stand-ins.
- Exchange.Fetch: borrowing the connection and the request itself are not part of it, and JSON is an arbitrary pair of functions.
- Chunks.TransferChunk: has no header, index or checksum; the exchange on the wire is `Exchange.Fetch`.
- Bundle.ProbeTarget: write access is a parameter and its temporary files are not part of the disk; the target is an absolute path that `Resolve` already found inside the allowed root.
- The tar byte format and `CopyContext`: an archive is a sequence of records whose bytes arrive whole or not at all; a cancelled or broken archive is a shorter one that did not end properly.
- Bundle.Extract: temporary files are not part of the disk, because each is renamed or removed before the next record; the mode of a directory is not recorded, because one that already exists keeps its own; a fault is a limit on how deep directories can be made or a failed copy.
- Prepare.PrepareSource: the temporary tar file, its size and its removal are not part of it; the archive is the sequence of its records.
- The limit of eight concurrent goroutines in a distribution round and the admitted and excluded counters: throttling and display.
- Calls made by a distribution goroutine after cancellation may reach the peer in the model, though their context makes most of them fail.
- A caller that gives a socket back twice, or goes on using it: the model's callers release what they borrowed, once.
- `internal/queue/queue.go`: a stub that the tracker replaces.
