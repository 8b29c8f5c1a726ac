# SendBeam: a verified model of resumable block transfer

This project models SendBeam's resumable transfer in Dafny, from the two transfer engines down to
the disk, and proves what holds over every run of it. SHA-256 is an ideal hash (the digest of a byte
string determines it), MACs and key derivations are ideal tokens, and an opened frame is one the peer
really sealed under that key and counter. Clocks, nonces, I/O faults, the network and the order in
which goroutines get their locks are inputs of the model: every theorem is about all of them.

How it is laid out:

* `Wire`, `Geometry`, `SafePath` - messages, digests, block geometry, path and manifest validation.
* `Chunker` - re-chunking a byte stream into block-aligned pieces.
* `SenderModel`, `ReceiverModel` - the two engines as state machines; `SenderObject` and
  `ReceiverObject` are the objects that update their fields in place, each method proved to do what
  the state machine does.
* `SenderWindow`, `SenderCoverage`, `SenderRetry`, `ReceiverSafety`, `ReceiverAnswers`,
  `ReceiverEffects` - what each engine keeps on its own, how a lost block is sent again, and what the
  receiver answers; `Engine`, `EngineResults`, `ReceiverLog`, `ReceiverReplies`, `Control` - both engines
  on a network that drops, duplicates, reorders, delays and forges frames and changes paths at any
  time; `Cutover`, `CutoverResults` - ordered delivery between path changes.
* `Completion`, `CompletionReplies`, `CompletionFrames`, `CompletionRuns`, `CompletionResults`,
  `CompletionTheorem`, `CompletionStarts` - every transfer completes once the path loses nothing.
* `Relay`, `RelayFlow`, `RelayResults` - the credit-gated relay connection and two of them talking.
* `Journals`, `Storage`, `Durable` - the journal, a disk with volatile and durable state, and the
  durable destination with every call given as the list of disks it passes through; `DurableSafety`,
  `DurableResults`, `DurablePromotion`, `DurableDiscard`, `DurableEngine` - what holds at every crash
  point of every sequence of sessions; `DurableCredential` - where a stored credential comes from;
  `DurableDelivery` - every receive can be finished; `DurableReplay` - the engines and the destination
  put together; `DurableObject` - the destination object.
* `ResumeAuth`, `ResumeSession`, `ResumeAgreement`, `Base64` - the resume handshake, its session
  object, many sessions against an active network, and the spelling of nonces and proofs.
* `Handshake` - two honest sessions, which always can finish; `Preamble` - the handshake inside sealed
  frames, and its counters; `PreambleHandshake` - two honest preambles, which always settle; `KeyUse` - every key and counter
  pair of many rendezvous sessions, preambles and engines together.
* `Supervisor` - path selection; `SupervisorHistory` - the same read off the events alone.

Things the model found, each with the exact condition proved beside it:

* A transfer without a resume identity whose files are all empty can fail with an integrity error
  after a path change: the manifest is lost in the gap and Complete arrives first
  (`CutoverResults.UnansweredFails`, `CutoverResults.IntegrityExactly`).
* The frame size that can never be starved of relay credit is half a window plus one byte; one byte
  more can stall for good (`RelayResults.SendableExactly`).
* `Discard` removes the journal before the partials. If it is cut short while a crashed `Close` has
  left a promoted file under both its names, a later authenticated resume of the same transfer id
  truncates the delivered file (`DurableDiscard.DeliveredFileCanBeLost`, a run from an empty store).
  Cutting it short is harmless exactly when no partial of the transfer shares its file with a final
  name (`DurableDiscard.CutDiscardExactly`), and delivered files never change while discards are cut
  short only then (`DurablePromotion.FinalsNeverChange`). A comment in `promoteFile` says that `Open`
  has already refused a pre-existing destination; the code of `Open` does not look at the final path,
  and the model follows the code.
* A receiver that cannot send its answer reports an integrity error (`CutoverResults.LostAnswerFails`).
  The frames it answers are told by its state and the frame before the call: a manifest of a transfer
  with a resume identity, the first one with a sound seed or a copy of it; the hash of a complete
  block of an earlier file, of the open file up to the next block, or beyond it if the next one has
  not been asked for; and Complete while a block is missing that has not been asked for, or with the
  right digest past the last file (`ReceiverAnswers.Answers`, `ReceiverAnswers.AnswersExactly`). An
  ordered run is free of integrity errors exactly when no such frame is taken while the receiver
  cannot send (`CutoverResults.SendFaultExactly`).
* A frame that promotes its path is handed to the consumer twice (`SupervisorHistory.TrafficExactly`,
  `Supervisor.FrameIsStuck`). The engines ignore the second copy as a replay.
* A `Close` that is interrupted after its first promotion leaves a transfer that cannot be taken up
  again, only discarded: a session that resumes goes on exactly when every partial its journal claims
  something of is still there (`DurableDelivery.ResumeNegotiatesExactly`), and then it can deliver if
  no final name is taken (`DurableDelivery.InterruptedReceiveFinishes`, `DurableDelivery.ClosesExactly`).
* With the default window of eight blocks and the default three retries, no path change in whatever
  state can leave a transfer stuck or out of retries: three is what a block may need, if it was about to
  be resent when the path changed and then comes early (`CompletionStarts.TransferCompletesAfterCut`).
* Frames accepted before there was a path stay waiting, even with an active path, until the first
  `Activate` (`Supervisor.EarlyFramesExactly`, `Supervisor.StuckExactly`, `Supervisor.FrameIsStuck`).
* In int64 arithmetic the committed byte count of a complete file is right exactly when its size is
  at most the largest multiple of the block size in int64 (`Journals.CommittedBytesFitsExactly`); for
  a file of the largest int64 size in blocks of two bytes it is negative (`Journals.LargestFileWraps`).
* If the offerer's first preamble send fails and a frame is handled all the same, a counter is sealed
  twice; if a frame is handled before `Start`, the done channel is closed twice
  (`Preamble.OrderIsNeeded`).
* The last-in-block flag is missing on the final piece exactly when the stream ends on a frame
  boundary inside a block (`Chunker.FinalFlagExactly`, `Chunker.FinalFlagMissing`); it is always set when frames are as long as
  blocks, which is how the sender cuts (`Chunker.WholeBlocks`).

## Model

| member | source | states |
|---|---|---|
| SafePath.NormalizeTransferPath | packages/wire/safe_path.go:29-67 | the segment loop accepts exactly the safe relative paths and returns the canonical spelling |
| SafePath.NormalizeIdempotent | packages/wire/safe_path.go:29-67 | an accepted path is canonical: normalizing it again gives the same path |
| SafePath.AcceptedPathStaysBelowRoot | packages/wire/safe_path.go:29-67 | resolving an accepted path under any root directory ends strictly below that root |
| SafePath.ValidateManifest | packages/wire/safe_path.go:70-116 | the validation loop accepts exactly the manifests with contiguous indexes, exact geometry, case-distinct safe names, no size overflow and a matching total |
| SafePath.ScanSound | packages/wire/safe_path.go:78-108 | what the loop has accepted so far is well formed, distinct under folding and its running total never passes the int64 maximum |
| SafePath.ScanComplete | packages/wire/safe_path.go:78-108 | the loop rejects nothing that is well formed |
| SafePath.ValidateIdempotent | packages/wire/safe_path.go:70-116 | validating a validated manifest changes nothing |
| SafePath.BlockLengthsCoverFiles | packages/wire/safe_path.go:87-93 | the per-block lengths the receiver allocates sum to the file sizes |
| SafePath.AcceptedManifestIsExact | packages/wire/safe_path.go:70-116 | the block lengths of an accepted manifest sum to its total size, within int64 |
| Wire.CompletionDigestExactly | packages/wire/transfer_set.go:11-21 | two file lists announce the same completion digest exactly when they agree in length and file by file |
| Chunker.ReChunk | packages/wire/transfer_chunker.go:25-87 | for every chunking the loops emit the simple cut of the concatenated stream |
| Chunker.EmitFull | packages/wire/transfer_chunker.go:53-66 | a chunk is cut into every full frame it completes, the tail is kept |
| Chunker.Flush | packages/wire/transfer_chunker.go:71-86 | end of stream flushes the remainder as one last piece |
| Chunker.PayloadsConcatenate | packages/wire/transfer_chunker.go:25-87 | the payloads put together are the stream |
| Chunker.PiecesAreAligned | packages/wire/transfer_chunker.go:32-51 | every piece starts where the previous ended, inside its block, and never crosses it |
| Chunker.WholeBlocks | packages/wire/transfer_chunker.go:25-87 | with frames as long as blocks: one piece per manifest block, flagged last, holding exactly that block |
| Chunker.FinalFlagExactly | packages/wire/transfer_chunker.go:61-85 | the final piece is flagged unless the stream ends on a frame boundary inside a block |
| Chunker.FinalFlagMissing | packages/wire/transfer_chunker.go:61-85 | two bytes in frames of two inside a block of four: the only piece is not flagged |
| Chunker.FlagMeansBlockEnd | packages/wire/transfer_chunker.go:40-51 | a piece that fills its block is flagged, and no other but the final one is |
| SenderWindow.ReachableKeepsInv | packages/wire/transfer_sender.go:200-381 | the window, queue, plan and tally invariant holds after every interleaving of steps of Run, messages, timeouts, pauses, path changes and cancellation |
| SenderWindow.WindowDiscipline | packages/wire/transfer_sender.go:745-816 | in every run the window is bounded, a block is queued at most once and exactly when marked, both are empty at each file switch, and the byte accounts balance |
| SenderWindow.Conservation | packages/wire/transfer_sender.go:533-567 | acknowledged plus in-flight plus unsent bytes is the file's total, duplicate acks included |
| SenderWindow.PlanIsExact | packages/wire/transfer_sender.go:619-655 | a first resume_state is accepted exactly when it belongs to this manifest and covers every file once within bounds; the plan is its marks; a refusal leaves no plan |
| SenderWindow.DuplicateResumeState | packages/wire/transfer_sender.go:589-669 | an identical later resume_state changes nothing, any other fails the transfer without touching the plan |
| SenderCoverage.BlocksPartition | packages/wire/transfer_sender.go:334-341 | in every run the blocks sent of a passed file are exactly those from the resume mark on, and no held block is ever sent |
| SenderRetry.AskedIsQueued | packages/wire/transfer_sender.go:802-816 | a nack of an in-flight block of the active file, or its ack timeout, puts it in the queue |
| SenderRetry.QueuedStays | packages/wire/transfer_sender.go:745-775 | a queued block stays queued until its turn comes and in the window until it is acknowledged |
| SenderRetry.RetriesAreResends | packages/wire/transfer_sender.go:777-800 | in every run the count a block carries is how often it was resent since it was admitted or the path last changed |
| SenderRetry.QueuedBlockIsResent | packages/wire/transfer_sender.go:745-858 | in every run a queued block is sealed again within a bounded number of steps, or the sender gives up within as many, the latter exactly when a block whose turn comes no later has used up its resends |
| SenderRetry.ClearExactly | packages/wire/transfer_sender.go:777-800 | that condition in terms of the history: somebody who comes no later has been resent as often as allowed |
| SenderObject.Sender.Advance | packages/wire/transfer_sender.go:200-381 | Run between two points where it can be interrupted does what the state machine does |
| SenderObject.Sender.LoopStep | packages/wire/transfer_sender.go:713-775 | one pass of the loop: skip held blocks, wait, retry, admit or leave the file |
| SenderObject.Sender.Resend | packages/wire/transfer_sender.go:777-800 | a retry restarts the block or exhausts the transfer |
| SenderObject.Sender.SendStep | packages/wire/transfer_sender.go:836-858 | one fragment or the block hash is sealed under the next counter |
| SenderObject.Sender.OnAck | packages/wire/transfer_sender.go:533-567 | an ack removes the block and counts its bytes once; old files are ignored, later ones fail |
| SenderObject.Sender.QueueRetry | packages/wire/transfer_sender.go:802-816 | an in-flight block is queued unless it already is |
| SenderObject.Sender.BuildPlan | packages/wire/transfer_sender.go:619-655 | the loop over the marks computes the plan or refuses, changing nothing |
| SenderObject.Sender.Handle | packages/wire/transfer_sender.go:386-456 | one inbound frame: replays ignored, forgeries fail, messages dispatched |
| SenderObject.Sender.RequeueAll | packages/wire/transfer_sender.go:460-486 | the loop over the window resets every retry count and queues every block exactly once, in whatever order |
| SenderObject.Sender.TransportChanged | packages/wire/transfer_sender.go:460-502 | a path change requeues the window and repeats the manifest and Complete where needed |
| ReceiverSafety.HandleSound | packages/wire/transfer_receiver.go:153-241 | one authentic or forged frame with any outside fault keeps the receiver's invariant |
| ReceiverSafety.CommitSound | packages/wire/transfer_receiver.go:566-603 | committing the next block keeps sinks, digest, log and acks consistent |
| ReceiverSafety.OpenNextFileSound | packages/wire/transfer_receiver.go:395-445 | opening files, finishing those that need no blocks, keeps the invariant |
| ReceiverSafety.FinishFileSound | packages/wire/transfer_receiver.go:447-467 | a finished file is complete and matches the manifest digest |
| ReceiverAnswers.AnswersExactly | packages/wire/transfer_receiver.go:153-241 | a guard on the receiver's state and the frame tells exactly the frames it answers: taking one while nothing can be sent, and no other, differs from taking it normally, and ends in an integrity error |
| ReceiverEffects.HashEffect | packages/wire/transfer_receiver.go:514-603 | the hash of a block in hand: repeated blocks are acked, an early one is noted and the next one asked for, the next one is committed, acked, and followed by a request for its successor if that came early |
| ReceiverReplies.EveryReplyAnswers | packages/wire/transfer_receiver.go:514-640 | in every run against any network, with faults anywhere: an ack repeats the position of the hash it answers, a nack names the first missing block of the open file, Done answers Complete after the last file, and a failure states the reason it failed with |
| ReceiverReplies.AnswerIsExpected | packages/wire/transfer_receiver.go:211-241 | a receiver that can send says the expected thing first to exactly the frames it has an answer to, and nothing but a failure to others |
| ReceiverReplies.SettledReplies | packages/wire/transfer_receiver.go:690-703 | a settled receiver answers a repeated Complete with another Done and is silent otherwise |
| ReceiverModel.HandleWellFormed | packages/wire/transfer_receiver.go:153-241 | every call re-establishes what the handlers rely on |
| ReceiverObject.Receiver.Handle | packages/wire/transfer_receiver.go:153-163 | consuming one frame does to the object what the state machine does |
| ReceiverObject.Receiver.Process | packages/wire/transfer_receiver.go:211-241 | counters only move forward, replays are ignored, a settled receiver re-answers Complete |
| ReceiverObject.Receiver.ApplyManifest | packages/wire/transfer_receiver.go:243-329 | first manifest adopted, identical copies re-answered, different ones refused |
| ReceiverObject.CheckSeed | packages/wire/transfer_receiver.go:336-365 | the seed check accepts exactly the seeds bound to this manifest with every file in range |
| ReceiverObject.Receiver.OpenNextFile | packages/wire/transfer_receiver.go:395-445 | the loop opens files until one still needs blocks |
| ReceiverObject.Receiver.FinishCurrentFile | packages/wire/transfer_receiver.go:447-467 | a file is left only when its digest matches and its sink closes |
| ReceiverObject.Receiver.OnBlockData | packages/wire/transfer_receiver.go:469-512 | a fragment is discarded, refused or appended to the block buffer at the next offset |
| ReceiverObject.Receiver.OnBlockHash | packages/wire/transfer_receiver.go:514-560 | a complete block with the right hash is handed on, a stale hash discarded |
| ReceiverObject.Receiver.CommitBlock | packages/wire/transfer_receiver.go:566-603 | digest, write, progress, ack, in that order |
| ReceiverObject.Receiver.OnComplete | packages/wire/transfer_receiver.go:705-738 | Complete closes the destination and answers Done only when every file is done |
| ReceiverObject.Receiver.TransportChanged | packages/wire/transfer_receiver.go:167-177 | a path change drops the unverified block and nothing else |
| Engine.ReachableKeepsInv | packages/wire/transfer_receiver.go:211-241 | both engines' invariants and the relation between them hold in every run against any network |
| EngineResults.SinksHoldCommittedBlocks | packages/wire/transfer_receiver.go:469-603 | in every run each sink holds whole blocks only, each block was written once, in order, at its offset, finished files are what the digest covers, and only committed blocks are acked |
| ReceiverLog.WritesAreConsecutive | packages/wire/transfer_receiver.go:566-603 | in every run against any network the n-th write to a file is the n-th block after those it held at the start, and they reach exactly the next block needed |
| EngineResults.StableSinksArePrefixes | packages/wire/transfer_receiver.go:469-603 | with an unchanged source every sink is a prefix of its source file |
| EngineResults.SuccessMeansDelivered | packages/wire/transfer_sender.go:437-449 | if Run returns success the receiver verified every file, passed the last one and closed its destination |
| EngineResults.AckedNeverAheadOfSinks | packages/wire/transfer_sender.go:307-381 | in every run, even if the source changed, the sender's acknowledged bytes are in the receiver's sinks |
| EngineResults.NegotiationAgrees | packages/wire/transfer_sender.go:289-341 | past the negotiation the plan is exactly what the destination held, and the baseline the sender adds up is the one the running receiver computes from its own terms and recorded when it advertised them |
| EngineResults.SealedOnce | packages/wire/transfer_sender.go:964-973 | in every run, failed sends, control messages and retransmissions included, neither side's send counter seals two frames under one counter |
| EngineResults.CountersNeverReused | packages/wire/transfer_receiver.go:806-820 | the counter and message of a sealed frame never change, and each side accepts strictly increasing counters |
| Control.ReceiverAnnounces | packages/wire/transfer_receiver.go:758-787 | in every run a receiver that fails seals the reason last, unless the peer had told it to stop |
| Control.SenderAnnounces | packages/wire/transfer_sender.go:777-800 | a sender that is canceled or out of retries seals that last |
| Control.SenderHears | packages/wire/transfer_sender.go:430-456 | a running sender that gets the peer's failure or cancel fails with that reason |
| Control.ReceiverHears | packages/wire/transfer_receiver.go:642-677 | so does a running receiver |
| Control.PauseReaches | packages/wire/transfer_sender.go:671-683 | a delivered pause or resume pauses or resumes the sender |
| Control.PausedSendsNothingNew | packages/wire/transfer_sender.go:713-775 | until it is resumed a sender paused inside a file completes at most the block in hand, whatever else happens |
| Cutover.LostCatchesUp | packages/wire/transfer_receiver.go:485-517 | a receiver that skips to the next block start is still skipping or has caught up with the stream |
| CutoverResults.NoIntegrityFailure | packages/wire/transfer_receiver.go:165-177 | with a stable source, ordered delivery, path changes announced inside the lost segment, and a receiver that can send whenever it takes a frame it answers, neither side ever settles with an integrity or digest error |
| CutoverResults.UnansweredFails | packages/wire/transfer_receiver.go:705-708 | without resume identity and without a block to send, such a run does fail |
| CutoverResults.IntegrityExactly | packages/wire/transfer_sender.go:458-502 | the promise holds on every such run exactly when the transfer has a resume identity or a block to send |
| CutoverResults.SendFaultExactly | packages/wire/transfer_receiver.go:153-163 | an ordered run with sends failing anywhere ends without an integrity or digest error exactly when the receiver never took a frame it answers while it could not send |
| CutoverResults.LostAnswerFails | packages/wire/transfer_receiver.go:371-393 | a resume_state that cannot be sent fails the receiver with an integrity error |
| Completion.SenderKeepsGood | packages/wire/transfer_sender.go:200-381 | whatever the sender does next, every block in flight is still queued, in hand, on its way, answered or noted, and its resends suffice |
| CompletionReplies.ReplyKeepsGood | packages/wire/transfer_sender.go:386-456 | the same for the next reply to arrive |
| CompletionFrames.FrameKeepsGood | packages/wire/transfer_receiver.go:211-241 | the same for the next frame to arrive |
| CompletionResults.IdleIsFinished | packages/wire/transfer_sender.go:860-894 | when neither side has anything left to do and nothing is on its way, both have succeeded |
| CompletionTheorem.EveryFairScheduleFinishes | packages/wire/transfer_sender.go:200-381 | over a path that loses nothing every fair schedule of the sender's steps and of frames and replies in order ends with both sides in success |
| CompletionTheorem.RoundRobinIsFair | packages/wire/transfer_sender.go:200-381 | taking turns is such a schedule |
| CompletionStarts.FreshTransferCompletes | packages/wire/transfer_sender.go:200-381 | a fresh transfer, resumed or not, completes under every fair schedule |
| CompletionStarts.TransferCompletesAfterCut | packages/wire/transfer_sender.go:460-502 | after any ordered run the path may change and all that was on its way be lost: under every fair schedule on the new path the transfer completes |
| Relay.Conn.HandleReady | packages/engine/relay/conn.go:91-107 | only the first relay_ready grants the window |
| Relay.Conn.TrySend | packages/engine/relay/conn.go:120-133 | a frame is sent exactly when the end is open, ready and has the credit, which it spends |
| Relay.Conn.HandleBinary | packages/engine/relay/conn.go:153-171 | a frame is delivered, buffered early, or discarded |
| Relay.Conn.OnData | packages/engine/relay/conn.go:136-150 | installing the consumer drains the early buffer and accounts for every frame |
| Relay.Conn.Consume | packages/engine/relay/conn.go:173-186 | consumed bytes are granted back in batches of half a window |
| Relay.AccountingConserves | packages/engine/relay/conn.go:173-186 | whatever is consumed is granted back or kept as residue below one batch |
| RelayFlow.ReachableKeepsInv | packages/engine/relay/conn.go:91-186 | both directions of two ends conserve window and frames in every run |
| RelayResults.CreditConserved | packages/engine/relay/conn.go:13-16 | credit, grants in transit, bytes in transit, bytes at the receiver and its residue make up one window |
| RelayResults.EarlyBufferNeverDrops | packages/engine/relay/conn.go:160-168 | an open end never discards a frame, so the early buffer never overflows |
| RelayResults.HealthyRunLosesNothing | packages/engine/relay/conn.go:120-186 | while writes succeed and nobody closes, nothing is lost |
| RelayResults.EveryFrameHasOnePlace | packages/engine/relay/conn.go:120-186 | every frame sent is on the wire, buffered, being consumed or delivered, exactly once |
| RelayResults.EarlyFramesInOrder | packages/engine/relay/conn.go:136-171 | a consumer installed later gets the frames that had arrived, complete and in order |
| RelayResults.AlwaysEventuallySendable | packages/engine/relay/conn.go:120-133 | pending work settles in boundedly many steps in any order, and then any frame up to half a window plus one fits |
| RelayResults.SendableExactly | packages/engine/relay/conn.go:13-16 | the sizes a sender is never starved of are exactly those up to half a window plus one byte |
| Journals.CheckFiles | packages/wire/journal.go:340-382 | the validation loop accepts exactly the well-formed file entries |
| Journals.RecordKeepsValid | packages/wire/journal.go:613-630 | recording forward progress keeps the journal valid exactly when the clock is not behind its creation |
| Journals.CommittedBytesIsPos | packages/wire/journal.go:635-645 | the committed byte count is the start of that block, capped at the file size |
| Journals.CommittedBytesFitsExactly | packages/wire/journal.go:640-643 | the int64 product gives that count exactly when the file is not fully committed or its size is at most the largest multiple of the block size in int64 |
| Journals.LargestFileWraps | packages/wire/journal.go:640-643 | a well-formed, fully committed file of the largest int64 size in two-byte blocks gets a negative count |
| Journals.Held.Commit | packages/wire/journal.go:613-630 | a checkpoint moves forward within bounds and drops the old digest state, or nothing changes |
| Journals.Held.AttachCheckpoint | packages/wire/journal.go:426-438 | a digest state is attached only for exactly the committed blocks |
| DurableSafety.SaveKeeps | packages/wire/journal.go:655-690 | replacing the journal: at every point a crash finds the old or the new one, never a torn one |
| DurableSafety.WriteBlockOk | packages/engine/transfer/durable.go:1218-1236 | every disk during a block write, with any fault, keeps each claim within the synced prefix |
| DurableSafety.CrashKeeps | packages/engine/transfer/durable.go:681-827 | what a crash leaves still backs every claim |
| DurableSafety.ReachableOk | packages/engine/transfer/durable.go:681-827 | the disk and the running session are consistent after every sequence of sessions, faults, aborts, crashes and discards |
| DurableResults.JournalNeverAheadOfData | packages/engine/transfer/durable.go:788-827 | at every crash point the journal on disk is whole and claims at most the synced prefix, or the file was promoted |
| DurableResults.RestoreEqualsRehash | packages/engine/transfer/durable.go:955-974 | restoring a stored digest and hashing the prefix again give the same seed |
| DurableResults.ProgressNeedsAuthorization | packages/engine/transfer/durable.go:581-619 | progress is adopted or advertised only in a session that authenticated a resume of exactly that transfer |
| DurableResults.SecretNeverChanges | packages/engine/transfer/durable.go:839-885 | a stored credential never changes, and a journal gains one only in the session that created it |
| DurableCredential.CredentialExactly | packages/engine/transfer/durable.go:839-885 | at every crash point of every run the journal on disk has a credential exactly when the session that created it negotiated as far as the rename, and it is the value that session gave |
| DurableCredential.FirstNegotiationGrants | packages/engine/transfer/durable.go:873-885 | the first successful negotiation of the creating session stores what it was given |
| DurableCredential.SessionHolds | packages/engine/transfer/durable.go:839-885 | a running session holds that same credential |
| DurableEngine.DurablePrefixIsSource | packages/engine/transfer/durable.go:1218-1236 | with honest senders the durable prefix is a prefix of the source at every crash point |
| DurableEngine.PromotedFilesAreTheSource | packages/engine/transfer/durable.go:1042-1094 | after any crash and resume rounds a successful Close has put each source under its final name |
| DurableEngine.ProgressNeverLost | packages/engine/transfer/durable.go:1135-1160 | no abort, error, crash or foreign session loses recorded progress; only an explicit discard does |
| DurableEngine.SeedsAreHonest | packages/engine/transfer/durable.go:894-977 | what a session hands to the engine is exactly what the engine relies on |
| DurableDelivery.FirstReceiveFinishes | packages/engine/transfer/durable.go:518-632 | into a store with nothing of the transfer, one session without faults delivers every file byte for byte |
| DurableDelivery.InterruptedReceiveFinishes | packages/engine/transfer/durable.go:681-780 | whatever crashes, faults and aborts have left, if the claimed partials are there and the final names free, one more authorized session delivers every file byte for byte |
| DurableDelivery.ResumeNegotiatesExactly | packages/engine/transfer/durable.go:894-977 | an authorized session that resumes goes on exactly when every claimed partial is still there |
| DurableDelivery.ClosesExactly | packages/engine/transfer/durable.go:1042-1129 | a finished session closes exactly when no final name is taken |
| DurableDelivery.AdoptedExactly | packages/engine/transfer/durable.go:560-632 | an existing journal is taken up exactly by an authorized session at its own destination for its own manifest |
| DurableDelivery.DiscardMakesRoom | packages/engine/transfer/durable.go:369-381 | a discard leaves nothing of the transfer and everything else as it was |
| DurableReplay.EngineIsHonest | packages/wire/transfer_receiver.go:566-603 | with an unchanged source, what the two engines write through any sessions, crashes and resumes meets all the destination assumes of an honest sender |
| DurableReplay.DurableStateIsSource | packages/engine/transfer/durable.go:1218-1236 | from a store without the transfer, at every crash point of any engine-driven sessions the prefix its journal claims of a file is the beginning of what the sender streams |
| DurableReplay.StartedEngineDrives | packages/engine/transfer/durable.go:894-977 | a negotiated session gives the engine a sound start, and every run of that engine is one the previous results are about |
| DurablePromotion.CloseIsSafe | packages/engine/transfer/durable.go:1042-1129 | at every point of Close each file is complete at its partial or final path, no final name was touched, and the journal goes last |
| DurablePromotion.CrashedCloseIsSafe | packages/engine/transfer/durable.go:1042-1129 | the same of whatever a crash during Close leaves |
| DurablePromotion.FreshStoreIsFine | packages/engine/transfer/durable.go:83-103 | a fresh store beside any existing files satisfies the starting conditions of these results |
| DurablePromotion.FinalsNeverChange | packages/engine/transfer/durable.go:1106-1129 | a file under a final name keeps its name and bytes for good, as long as no discard is cut short while a partial of its transfer shares its file with a final name |
| DurablePromotion.CutDiscardDelivered | packages/engine/transfer/durable.go:369-381 | a cut-short discard leaves every shared partial covered by a complete journal exactly when nothing of the transfer is shared |
| DurableDiscard.CutDiscardExactly | packages/engine/transfer/durable.go:369-381 | cutting a discard short keeps every delivered file under every later run exactly when no partial of the transfer shares its file with a final name |
| DurableDiscard.SharedIsHarmed | packages/engine/transfer/durable.go:714-755 | whatever the file index and content, a shared partial lets an in-order authenticated resume change the delivered file |
| DurableDiscard.DeliveredFileCanBeLost | packages/engine/transfer/durable.go:1042-1129 | a run from an empty store that delivers a file, crashes in Close, cuts a discard short and loses the file |
| DurableDiscard.ExampleIsOneBlock | packages/wire/journal.go:250-287 | a concrete one-byte transfer to which that run applies |
| DurableObject.HashPrefix | packages/engine/transfer/durable.go:1004-1036 | short reads or not, the digest is fed exactly the first n bytes, or the call fails |
| DurableObject.Destination.Write | packages/engine/transfer/durable.go:1218-1236 | write, sync, checkpoint, through exactly the disks of the model |
| DurableObject.Destination.CommitBlocks | packages/engine/transfer/durable.go:788-827 | checkpoint in memory, then budget, then journal on disk |
| DurableObject.Destination.Prepare | packages/engine/transfer/durable.go:518-632 | a journal is created when missing, adopted when authorized, else refused |
| DurableObject.Destination.Open | packages/engine/transfer/durable.go:681-780 | a partial is cut to its checkpoint or created exclusively |
| DurableObject.Destination.SeedsOf | packages/engine/transfer/durable.go:943-975 | the loop over the files rebuilds every seed or fails closed |
| DurableObject.Destination.Close | packages/engine/transfer/durable.go:1042-1094 | promotes every file in order, stops at the first failure, drops the journal last |
| DurableObject.Destination.PromoteFile | packages/engine/transfer/durable.go:1106-1129 | link and unlink, or rename, never over an existing name |
| ResumeAuth.TranscriptInjective | packages/wire/resumeauth.go:183-207 | the transcript determines transfer id, fingerprint and both nonces |
| ResumeAuth.AtMostOneNonceTwoSteps | packages/wire/resumeauth.go:534-640 | every message sequence draws at most one nonce and records at most two steps |
| ResumeAuth.DuplicateIsIdempotent | packages/wire/resumeauth.go:558-602 | an exact duplicate is answered identically and changes nothing until failure |
| ResumeAuth.FailureIsTerminal | packages/wire/resumeauth.go:801-806 | a failed session returns the same error forever and never yields keys |
| Handshake.HonestNeverFails | packages/wire/resumeauth.go:558-591 | two sessions of one transfer and credential never fail, however their messages are lost, repeated and reordered, and derive only the keys of that credential and both nonces |
| Handshake.HandshakeFinishes | packages/wire/resumeauth.go:605-761 | from wherever they stand, a start and one message of each kind finish the handshake on both sides with equal keys |
| ResumeSession.Session.Start | packages/wire/resumeauth.go:534-553 | the offerer draws its nonce and sends resume_init; the joiner cannot start |
| ResumeSession.Session.Handle | packages/wire/resumeauth.go:558-591 | duplicates first, then the state machine of the role |
| ResumeSession.Session.Find | packages/wire/resumeauth.go:595-602 | the loop finds the accepted step with exactly these bytes |
| ResumeSession.Session.AcceptChallenge | packages/wire/resumeauth.go:643-675 | a challenge is accepted only with the joiner's proof over this transcript |
| ResumeSession.Session.AcceptInit | packages/wire/resumeauth.go:727-761 | the joiner answers with a fresh nonce and its proof |
| ResumeAgreement.Agreement | packages/wire/resumeauth.go:605-761 | whoever completes has a peer on the identical transcript; an offerer's peer completed with the same keys |
| ResumeAgreement.AttemptsAreUnique | packages/wire/resumeauth.go:783-799 | with fresh nonces no two sessions of one role share a transcript |
| Base64.DecodeEncode | packages/wire/resumeauth.go:412-423 | decoding an encoding gives the bytes back |
| Base64.ValidLengthExactly | packages/wire/resumeauth.go:412-421 | the length check accepts exactly the canonical encodings of n bytes |
| Preamble.NeverSealedTwice | packages/wire/resume_preamble.go:163-203 | in the driver's order each counter is sealed once and the done channel closed exactly on settling |
| Preamble.OrderIsNeeded | packages/wire/resume_preamble.go:106-122 | a first call is safe under every continuation exactly when it keeps that order |
| PreambleHandshake.HonestPreamblesNeverFail | packages/wire/resume_preamble.go:127-157 | over an ordered channel that may repeat the last frame, the two preambles never report an error and hand over only the shared keys |
| PreambleHandshake.NewFrameIsProgress | packages/wire/resume_preamble.go:127-203 | every new frame an unsettled end takes brings the pending messages down |
| PreambleHandshake.AllTakenIsSettled | packages/wire/resume_preamble.go:151-156 | once the offerer was started and all frames are in, both have settled on the same keys |
| PreambleHandshake.PreamblesSettle | packages/wire/resume_preamble.go:106-157 | from any point no more frames than are pending settle both |
| KeyUse.OneEndSealsOnce | packages/engine/transfer/driver.go:573-584 | one end, from the rendezvous through its preamble, if it has one, to the last frame of its engine, never seals two frames under one key and counter |
| KeyUse.NoPairUsedTwice | packages/wire/aead.go:42-64 | over any number of sessions, resumed or not, no directional key and counter pair is used twice in their rendezvous, preambles and engines |
| Preamble.ResultIsSessions | packages/wire/resume_preamble.go:151-156 | the keys handed to the engine are those the session derived |
| Preamble.TakenOnce | packages/wire/aead.go:93-102 | in every run the counters taken as new are strictly increasing, so no authentic frame is taken twice |
| Preamble.ResumePreamble.StartHandshake | packages/wire/resume_preamble.go:106-122 | starting does what the model's Start does: one seal at most, the counter moves only if the frame went out, a session error settles the preamble |
| Preamble.ResumePreamble.HandleFrame | packages/wire/resume_preamble.go:127-157 | one frame is opened in sequence, answered once, and settles the preamble exactly on a result or an error |
| Supervisor.OneActivePath | packages/engine/supervisor/supervisor.go:133-173 | at most one path is active, it is the recorded one, and deliveries of a path form one unbroken segment |
| Supervisor.RunsForward | packages/engine/supervisor/supervisor.go:133-173 | Closed and Failed are each final, closing is final, the epoch never falls and has risen if another path is active, and a path that was active still is or can never deliver again |
| Supervisor.AbandonedPathIsSilent | packages/engine/supervisor/supervisor.go:247-305 | a path that was active and was replaced, whether it had delivered or not, never delivers again |
| Supervisor.EarlyFramesExactly | packages/engine/supervisor/supervisor.go:389-402 | in every run each frame accepted before there was a path is exactly once and in order among those sent or waiting: all sent once some path was activated, all waiting until then |
| Supervisor.StuckExactly | packages/engine/supervisor/supervisor.go:272-305 | with an active path, frames are stuck waiting exactly when some were accepted early and every promotion came from traffic |
| Supervisor.FrameIsStuck | packages/engine/supervisor/supervisor.go:247-305 | a frame sent before the first path is ready still waits after a frame of the peer promoted that path, and that frame is delivered twice |
| SupervisorHistory.HistoryOfPaths | packages/engine/supervisor/supervisor.go:85-173 | in every run the state of each path, the active path, the epoch and the hooked paths are those an observer reads off the events alone |
| SupervisorHistory.TrafficExactly | packages/engine/supervisor/supervisor.go:192-270 | in every run each accepted frame is sent once on the path promoted last, or waits; and the consumer gets each frame of that path once while it is active, and twice the frame that promoted it |
| Supervisor.PathSupervisor.CloseAllBut | packages/engine/supervisor/supervisor.go:155-160 | the loop closes every other path that is not final |
| Supervisor.PathSupervisor.Promote | packages/engine/supervisor/supervisor.go:133-173 | Activate in place: switches and drains, or only moves the epoch, or does nothing; a returned epoch is that of the recorded path |
| Supervisor.PathSupervisor.PromoteOnData | packages/engine/supervisor/supervisor.go:272-305 | a frame is to be delivered from the active path, or from a ready path, which it promotes while every other path is closed |
| Supervisor.PathSupervisor.Receive | packages/engine/supervisor/supervisor.go:256-267 | the frame goes to the consumer once, or twice if it promoted its path |
| Supervisor.PathSupervisor.Send | packages/engine/supervisor/supervisor.go:216-243 | a frame goes out on the active path, waits when there is none yet, and is refused once closed |

## Left out

- CutoverResults.IntegrityExactly: is stated for transfers whose block indexes fit the 32-bit header field; beyond that the field wraps in the code and in the model, and what the engines then do is not characterised.
- CutoverResults.NoIntegrityFailure: leaves out forged frames, which the engines answer with an integrity failure by design; answers that cannot be sent are covered by CutoverResults.SendFaultExactly.
- SafePath.ValidateManifest: folds ASCII letters only when it looks for duplicate names, and there is no Unicode normalisation.
- SafePath.ScanSound: states distinctness under the same ASCII folding.
- SenderObject.Sender.TransportChanged: repeats the manifest and Complete in the same step as the requeue, where the code sends them after releasing its lock.
- DurableReplay.EngineIsHonest: ties engine and destination by the blocks written; a session is prepared with the sender's manifest and negotiated once, and the order of its open, finish and close calls is left free, since the destination's results hold for any order.
- CompletionStarts.TransferCompletesAfterCut: is about windows of at most eight blocks and three retries or more, the code's defaults, and about a new path on which all that was on its way is lost; with a longer window the receiver's notes of early blocks can overflow, and an ack timeout brings such a block back.
- PreambleHandshake.PreamblesSettle: is about a channel that loses nothing; a settled joiner answers no more, so a lost last message leaves the offerer waiting until its caller gives up.
- Durable.DiscardCall: removes the partial tree of a transfer in one step, as if os.RemoveAll were atomic, and keys partials by manifest index instead of by name.
- Sizes of sealed control messages, their JSON encoding and 64-bit wrap-around of the frame counters.
- A sink write that fails in the engine model leaves the sink as it was; partial writes are part of the storage model.
- Durable receives without a transfer id, which keep temporary partials and no journal.
- Symbolic links and special files on destination paths, directory creation and the removal of empty directories, and the listing and inspection of stored transfers.
- The size budget is a yes or no per checkpoint; destination identity is a number per location.
- Names made by link and rename are durable when the call returns, and the name of a new file is durable once the file has been synced; directory syncs are not modelled separately.
- Delivery order where buffered frames are replayed outside the lock, in the relay's consumer hook and in the driver's router.
- Waiting in the supervisor's Send for a new path, and its timeouts.
- Key exchange, key derivation, encryption and hashing themselves.
- Wall-clock behaviour: acknowledgement timeouts, Complete retransmission and the Done deadline are steps that may happen at any time.
- Signaling, discovery, WebRTC, desktop, command line and web code, pairing and trust.
