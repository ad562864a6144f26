# Broadcast and federation protocols, modelled and proved

This project models the hand-written protocols, schedulers and bounded buffers of a conferencing
system that has a Node control plane, a Go media forwarder and a Go broadcast packager, and proves
what they keep over every run.

| file | what it models |
|---|---|
| `Federation.dfy`, `FederationProgress.dfy` | two forwarders that serialise their SDP offers over one peer connection with a request/grant turn; that no request or wish is forgotten and every turn can be finished |
| `ProgramTime.dfy`, `ProgramClock.dfy` | the 48-kHz program grid and the scheduler that merges audio blocks and video frames |
| `Rollover.dfy`, `RolloverRun.dfy`, `RolloverProgress.dfy`, `RolloverBudget.dfy` | encoder replacement behind the scheduler, composed with the raw lanes' sequence demand; the replacement loop with its processes, and that it gets through; the cadence of replacements |
| `RawLane.dfy` | the slot buffer and index channel between scheduler and encoder pipe, with all its workers |
| `HlsEpoch.dfy` | generation numbering in the playlists |
| `HlsStage.dfy`, `HlsRetention.dfy`, `HlsPublisher.dfy` | the steps that fill the served directory, what they leave visible, and the worker that takes them |
| `HlsSuccess.dfy`, `HlsInvalidation.dfy`, `HlsGenerations.dfy`, `HlsLife.dfy` | when publications succeed; the removal of everything when an encoder stops; all generations that share a directory; whole lives of a generation as witnesses |
| `SourceClock.dfy`, `Quarantine.dfy`, `RenderFence.dfy` | the sender-report clock, its outlier automaton and the epoch fences on borrowed output |
| `FrameAssembly.dfy` | VP8 reassembly |
| `AudioMix.dfy`, `AudioProgram.dfy` | the PCM rings, the unprocessed mix, and the mixer over whole runs |
| `VideoPool.dfy` | the picture slots and the byte account |
| `OpusPacket.dfy` | the Opus framing parser against a printer, and the packet timeline |
| `TokenBudget.dfy`, `ScopedBudget.dfy` | the transport token buckets and the three-scope budget with eviction |
| `GrantAuthority.dfy` | issuing, authorising and revoking grants, interleaved at every await |
| `Failover.dfy` | writer fencing |
| `Common.dfy` | options, and counting the elements of sequences and sets |

How the parts are built:

- Code that changes an object step by step is a class with that object's fields. Each method's contract
  ties the new state to a specification function of the old one, and the lemmas about whole runs are
  about those functions.
- Concurrent protocols are step systems. A step is one critical section, one send or one delivery; an
  `Execution` (or `Run`) is any sequence of enabled steps, so a lemma about it covers every interleaving.
- Callbacks (`authorized()`, guards, clocks, signatures, the private file tree) are parameters or are
  chosen freely at every step.
- Go integers are `int`, with truncating division and the 16-, 32- and 64-bit wrap-arounds written out.
  Balances of the token buckets are `real`.
- `View()` of a class is the value of its fields. Fields marked `ghost` are history only.

Four statements one might expect are false of the code, and the exact truth is proved instead:

- "Both agents are never in have-local-offer together" fails: the initiator may answer, become stable
  and offer again while its answer is still in flight. `Federation.BothCanOffer` exhibits such a
  reachable state, `Federation.BothOfferExactly` says when it happens, and `Federation.OffersNeverCross`
  proves what section 4 of RFC 3264 asks for: no agent ever receives an offer while its own is unanswered.
- "A visible playlist never names a missing file" fails while a stopped encoder's files are removed, in
  the order of a Go map. `HlsInvalidation.CanDangle` exhibits it, `HlsInvalidation.DanglesExactly` and
  `HlsInvalidation.SafeOrderExactly` say when and under which orders; before that it holds
  (`HlsStage.NeverDangles`).
- "Every segment keeps its media sequence and discontinuity number" fails for playlists that the parser
  lets through with the MAP line or the media-sequence tag below a segment. `HlsEpoch.MapBelowSegments`
  and `HlsEpoch.SequenceBelowSegments` exhibit them and `HlsEpoch.NumbersAreStable` proves the condition in
  both directions.
- "A name never returns with different content" fails for init objects between any two generations
  (`HlsGenerations.InitContentDiffers`). `HlsGenerations.ContentGuaranteedExactly` proves the condition in
  both directions: same generation, or a segment.

## Model

| member | source | states |
|---|---|---|
| `Federation.FederationPeer.TakeRemoteGrant` | media-edge-agent/federation.go:369-379 | the stored request becomes the one outstanding grant exactly when the initiator is ready, stable, idle and owes none |
| `Federation.FederationPeer.StartNegotiation` | media-edge-agent/federation.go:285-339 | offers, asks for a turn, or only remembers the need, in exactly the source's cases; a failed CreateOffer keeps the turn |
| `Federation.FederationPeer.AcceptSignal` | media-edge-agent/federation.go:200-283 | an offer or answer moves the signalling state, uses up the turn, or is refused with the source's three reasons |
| `Federation.FederationPeer.ContinueNegotiation` | media-edge-agent/federation.go:353-367 | the thread sends the grant it could take, or else starts a negotiation exactly if one is needed |
| `Federation.FederationPeer.AcceptControlMessage` | media-edge-agent/federation.go:426-503 | the hello, ack, request and grant cases with their refusals and their replies |
| `Federation.FederationPeer.BecomeReady` | media-edge-agent/federation.go:505-511 | ready exactly once both halves of the handshake are in |
| `Federation.StepKeeps` | media-edge-agent/federation.go:200-379 | every local, send and delivery step of either agent keeps the system invariant, and no delivery is refused |
| `Federation.ExecutionConsistent` | media-edge-agent/federation.go:200-379 | the invariant holds in every state of every interleaving |
| `Federation.NeverRefused` | media-edge-agent/federation.go:220-232 | between two conforming agents "unscheduled", "ungranted", "crossed a granted local turn" and the invalid request or grant never occur |
| `Federation.AtMostOneTurn` | media-edge-agent/federation.go:297-316 | requested, in-flight, held and granted turns together are at most one, and exactly one while either side counts on it |
| `Federation.OffersNeverCross` | media-edge-agent/federation.go:220-232 | every execution is a run of the half-duplex offer/answer machine; never are both sides' offers unanswered |
| `Federation.BothOfferExactly` | media-edge-agent/federation.go:285-339 | both sides hold a local offer if and only if the initiator does and its own answer is still queued to the responder, at the head of the queue |
| `Federation.BothCanOffer` | media-edge-agent/federation.go:285-339 | a reachable state in which both sides are in have-local-offer |
| `FederationProgress.StepAttends` | media-edge-agent/federation.go:285-379 | every step of either agent leaves whatever it owes with a thread that has been started |
| `FederationProgress.NothingIsForgotten` | media-edge-agent/federation.go:353-379 | in every state of every execution a stored request of an initiator that is ready and stable has a continuing thread pending; a wish to negotiate with nothing in its way has a thread pending or its CreateOffer has failed; a finished handshake is about to be marked |
| `FederationProgress.GrantedAtOnce` | media-edge-agent/federation.go:466-481 | in every execution, a request delivered to an initiator that is ready, stable, not offering and owes no grant puts exactly that grant among its sends at once |
| `FederationProgress.TurnCompletes` | media-edge-agent/federation.go:281-379 | from every reachable state with an open turn, both sides ready and no failed offer, steps that only finish what was begun (sends, deliveries and scheduled threads) lead to the responder's offer |
| `ProgramTime.FrameTimeExact` | native-broadcast-packager/source_program_clock.go:81-91 | the quotient/remainder form equals the exact rounded-down product: no drift |
| `ProgramTime.FrameTimeShift` | native-broadcast-packager/source_program_clock.go:85-89 | the video grid repeats exactly every second |
| `ProgramTime.FrameSpacing` | native-broadcast-packager/source_program_clock.go:81-91 | consecutive frames are between 800 and 48001 samples apart at every rate |
| `ProgramTime.FrameTimeMonotone` | native-broadcast-packager/source_program_clock.go:81-91 | frame order and time order coincide |
| `ProgramTime.VideoTimeDefined` | native-broadcast-packager/source_program_clock.go:82-90 | the checked form answers exactly on the frames within the time budget |
| `ProgramClock.DurationSamplesExact` | native-broadcast-packager/source_clock.go:63-65 | the split conversion of a duration to samples is exact |
| `ProgramClock.Clock.constructor` | native-broadcast-packager/source_program_clock.go:44-65 | a scheduler starts with both cursors at the start sample |
| `ProgramClock.Clock.Handoff` | native-broadcast-packager/source_program_clock.go:116-144 | one turn of the loop with its exact outcome: time budget, nothing due, too late, revoked or output failed, and otherwise the earlier event, audio on ties |
| `ProgramClock.Clock.CatchUp` | native-broadcast-packager/source_program_clock.go:115-147 | the loop: every emitted event was permitted and went through, and it stops at the first turn that does not continue |
| `ProgramClock.Clock.Step` | native-broadcast-packager/source_program_clock.go:96-148 | emits the schedule's next events, none after the wall-clock target nor after the first refused check or failed hand-off; every outcome exactly when it occurs: revoked, rolled back, time budget, lag, output failed or success, which leaves none due; "catchup budget" is unreachable |
| `ProgramClock.ScheduleOrdered` | native-broadcast-packager/source_program_clock.go:115-140 | hand-offs are in nondecreasing time, audio first on ties, at any distance |
| `ProgramClock.ScheduleComplete` | native-broadcast-packager/source_program_clock.go:115-140 | the hand-offs are exactly the grid events between the old and new cursors: none skipped, none invented |
| `ProgramClock.NextNondecreasing` | native-broadcast-packager/source_program_clock.go:115-140 | the next due time never goes back |
| `ProgramClock.CatchupSuffices` | native-broadcast-packager/source_program_clock.go:44-48 | under the constructor's limits at most thirteen events can be due, so sixteen turns suffice |
| `Rollover.ProgramRollover.WriteProgram` | native-broadcast-packager/source_program_rollover.go:136-186 | the owner's cursors, the whole-second rebase and the raw lanes' verdict, in every case |
| `Rollover.WholeSecond` | native-broadcast-packager/source_program_rollover.go:167-172 | when audio stands at a whole second, exactly the frames of the earlier seconds are out |
| `Rollover.AudioFits` | native-broadcast-packager/source_program_raw.go:132-137 | a rebased audio block is the block the lane expects |
| `Rollover.VideoFits` | native-broadcast-packager/source_program_raw.go:133-137 | a rebased frame is the frame the lane expects, in the lane's checked arithmetic |
| `Rollover.StepSound` | native-broadcast-packager/source_program_rollover.go:136-282 | every hand-off, scene change, close, fence, release and adoption, also into a closed owner, keeps scheduler, owner and lanes aligned |
| `Rollover.EveryGenerationGapless` | native-broadcast-packager/source_program_rollover.go:136-186 | whatever is replaced when, what each encoder generation has received is audio 0, 960, 1920, … and frames 0, 1, 2, … without a gap; how much of it, the next three rows say |
| `Rollover.DeliveredExactly` | native-broadcast-packager/source_program_rollover.go:136-186 | in every execution a hand-off is delivered, dropped or denied each exactly when: delivered if and only if it is permitted, an encoder accepts and has room, and the base is set or this is audio at a whole second |
| `Rollover.BaseIsFirstSecond` | native-broadcast-packager/source_program_rollover.go:167-172 | the base is the first whole-second block permitted while an encoder accepted since the last adoption, and is set as soon as there was one |
| `Rollover.AcceptingEncoderHasAll` | native-broadcast-packager/source_program_rollover.go:136-186 | in every execution an accepting encoder has nothing from before its first whole second of audio and, counted exactly, every block and every frame the scheduler has handed on from that second on |
| `Rollover.SequenceCheckNeverFires` | native-broadcast-packager/source_program_raw.go:130-139 | neither the owner's nor a lane's sequence demand is ever violated |
| `RolloverRun.StepKeeps` | native-broadcast-packager/source_program_rollover.go:201-330 | every step of the loop, the processes, the scheduler, time and a concurrent Close keeps owner, loop and processes in order |
| `RolloverRun.StepTied` | native-broadcast-packager/source_program_rollover.go:164-184 | every step keeps the owner's encoders and the processes the same: the i-th one let go is process i, the present one is the loop's |
| `RolloverRun.AtMostOneUnreaped` | native-broadcast-packager/source_program_rollover.go:247-253 | at any moment at most one encoder process is unreaped, one being constructed included, with drains that time out, late or failed constructions and a Close at any point |
| `RolloverRun.FinishedMeansReaped` | native-broadcast-packager/source_program_rollover.go:202-208 | when the owner reports itself finished no process is left |
| `RolloverRun.CreationsNumbered` | native-broadcast-packager/source_program_rollover.go:268-279 | the n-th creation, failed and late ones included, is given epoch n, below 128, and finds all earlier processes reaped |
| `RolloverRun.GuardsHold` | native-broadcast-packager/source_program_rollover.go:251-279 | when the loop lets an encoder go the owner has it and no longer accepts; when it adopts one the owner has none, even if it was closed in between |
| `RolloverRun.EveryProcessGapless` | native-broadcast-packager/source_program_rollover.go:136-330 | over every run of the whole loop every encoder process ever created has been given exactly the gapless grids of its own, and one that was never adopted nothing |
| `RolloverRun.CreationsPaced` | native-broadcast-packager/source_program_rollover.go:254-271 | replacements start no earlier than reserved; two in a row are a second apart and the ninth is a minute after the first, up to the lateness of the first one's timer, and the same holds without that allowance one place further on |
| `RolloverProgress.StepConstructed` | native-broadcast-packager/source_program_rollover.go:262-282 | every step keeps that all encoders the owner ever had were really constructed |
| `RolloverProgress.ReplacementCompletes` | native-broadcast-packager/source_program_rollover.go:201-330 | from every reachable state in which the loop has not given up, the owner is open with a generation to spare and no construction has failed, some steps lead to a running, accepting replacement with the scheduler undisturbed, whatever the cadence budget holds |
| `RolloverProgress.NoReplacementWithoutCause` | native-broadcast-packager/source_program_rollover.go:213-242 | in every run, while the encoder runs and the owner hands it everything the loop waits or leaves for good: nothing in order is replaced |
| `Rollover.HandoffsFollowSchedule` | native-broadcast-packager/source_program_rollover.go:162-166 | replacements never disturb the scheduler's own stream |
| `RolloverBudget.RolloverBudget.Compact` | native-broadcast-packager/source_rollover_budget.go:20-27 | the in-place compaction keeps exactly the starts after the bound, in order |
| `RolloverBudget.RolloverBudget.ReserveStart` | native-broadcast-packager/source_rollover_budget.go:12-33 | the array form refines the sequence form: same grants, delays and remaining starts |
| `RolloverBudget.ReserveFaithful` | native-broadcast-packager/source_rollover_budget.go:12-33 | a request, granted or refused, never loses a start that still matters |
| `RolloverBudget.StartsSpaced` | native-broadcast-packager/source_rollover_budget.go:16-19 | granted starts are at least a second apart, over every run of requests |
| `RolloverBudget.AtMostEightPerMinute` | native-broadcast-packager/source_rollover_budget.go:20-31 | the ninth granted start is at least a minute after the first, anywhere in any run |
| `RolloverBudget.RefusedExactly` | native-broadcast-packager/source_rollover_budget.go:20-31 | a valid request is refused if and only if eight starts of the whole history lie in the minute before it |
| `RolloverBudget.GrantedExactly` | native-broadcast-packager/source_rollover_budget.go:12-33 | in terms of the granted starts alone: a request whose time has not gone back is granted the earliest start a second after the last one, unless the eighth start back is less than a minute before it |
| `RawLane.SlotArray.EnqueueLocked` | native-broadcast-packager/source_program_raw.go:140-167 | the first free slot takes the block, or silence if its guard is void, and its index is sent |
| `RawLane.SlotArray.InspectQueued` | native-broadcast-packager/source_program_raw.go:233-241 | exactly the queued slots with a void guard are replaced by silence |
| `RawLane.SlotArray.Wipe` | native-broadcast-packager/source_program_raw.go:217-231 | every slot, or every slot that is not borrowed, is freed and blanked |
| `RawLane.StepSound` | native-broadcast-packager/source_program_raw.go:130-271 | every step of the producer, writer, watcher and closer keeps slots, channel and pipe in agreement |
| `RawLane.PipeIsFaithfulPrefix` | native-broadcast-packager/source_program_raw.go:169-213 | the pipe always holds a prefix of the accepted blocks in order, each verbatim, or wholly silence exactly if its guard was found void, cut at most inside the last |
| `RawLane.VoidedExactly` | native-broadcast-packager/source_program_raw.go:156-243 | a block is replaced exactly if its guard was found void when it was enqueued, inspected in its slot, or borrowed |
| `RawLane.EverythingDelivered` | native-broadcast-packager/source_program_raw.go:169-213 | from every reachable state of a lane that is not closed the writer alone delivers every accepted block, verbatim unless it was found void |
| `RawLane.SendNeverBlocks` | native-broadcast-packager/source_program_raw.go:150-150 | whenever a slot is free the index channel has a free cell |
| `RawLane.BorrowedSlotUntouched` | native-broadcast-packager/source_program_raw.go:215-231 | nobody but the writer changes the slot it has borrowed |
| `HlsEpoch.ParsePlaylist` | native-broadcast-packager/source_hls_stage.go:100-152 | the parser's loop accepts exactly the playlists of the specified shape and returns their segments |
| `HlsEpoch.ShapeExactly` | native-broadcast-packager/source_hls_stage.go:100-152 | the parser accepts exactly this grammar: a header, known lines, one map, one media sequence, one target duration, at most one version, one to seven different segments, a duration before each and nowhere else |
| `HlsEpoch.ShapeFacts` | native-broadcast-packager/source_hls_stage.go:109-150 | whatever the parser accepts has one map, one media-sequence tag, one to seven segments and no discontinuity of its own |
| `HlsEpoch.CheckEpoch` | native-broadcast-packager/source_hls_epoch.go:29-44 | accepts exactly the playlists whose segments are consecutive, canonically named and inside the generation's range |
| `HlsEpoch.AddTags` | native-broadcast-packager/source_hls_epoch.go:56-66 | the loop writes the tagged form |
| `HlsEpoch.Playlist` | native-broadcast-packager/source_hls_epoch.go:20-72 | when a playlist is accepted, what is published and which window it reports |
| `HlsEpoch.NumbersAreStable` | native-broadcast-packager/source_hls_epoch.go:46-70 | of an accepted playlist a client numbers every segment by its name and its generation if and only if the MAP line leads or the generation is the first, and the media-sequence tag leads or is zero below all segments |
| `HlsEpoch.SegmentKeepsItsNumbers` | native-broadcast-packager/source_hls_epoch.go:17-72 | a segment has the same media sequence and discontinuity number in every such playlist of every generation that lists it |
| `HlsEpoch.GenerationsRise` | native-broadcast-packager/source_hls_epoch.go:17-45 | media-sequence ranges of generations are disjoint and increasing |
| `HlsEpoch.MapBelowSegments` | native-broadcast-packager/source_hls_epoch.go:57-63 | a playlist the parser accepts whose segments are misnumbered because its MAP line is last |
| `HlsEpoch.SequenceBelowSegments` | native-broadcast-packager/source_hls_epoch.go:29-38 | an accepted playlist of the first generation whose segment is misnumbered because its media-sequence tag is last |
| `HlsStage.StepCoherent` | native-broadcast-packager/source_hls_stage.go:370-430 | every single commit, touch and removal keeps the directory coherent |
| `HlsStage.NeverDangles` | native-broadcast-packager/source_hls_stage.go:276-430 | until the invalidation begins, after every single step of every run, failures and revocations included, no visible playlist names a missing file; bytes and files are within their limits always |
| `HlsRetention.LastThreeRetained` | native-broadcast-packager/source_hls_stage.go:370-430 | until the invalidation begins, the objects of the last three successful changed publications are visible after every single step, also when a publication failed or its fence was revoked between rename and check |
| `HlsRetention.NamesKeepTheirContent` | native-broadcast-packager/source_hls_stage.go:331-366 | within a generation a media name never returns with different content |
| `HlsPublisher.ReadPlansPublishable` | native-broadcast-packager/source_hls_stage.go:379-394 | the readings that get through are exactly those that are present, well formed and not behind their window |
| `HlsPublisher.Publisher.FileBytes` | native-broadcast-packager/source_hls_stage.go:183-189 | the loop's sum is the total size of what is published |
| `HlsPublisher.Publisher.CommitFile` | native-broadcast-packager/source_hls_stage.go:276-329 | a file becomes visible exactly when the stage is open, the fence holds before the rename and size, count and byte budget allow; a fence that fails after the rename leaves it visible and reports an error |
| `HlsPublisher.Publisher.CopyMedia` | native-broadcast-packager/source_hls_stage.go:331-366 | succeeds if and only if the object is visible and its source unchanged, or not visible, present, within its limits and under both fences; a visible one is kept and touched, a missing one copied |
| `HlsPublisher.Publisher.CopyAll` | native-broadcast-packager/source_hls_stage.go:399-406 | every referenced object is in place before any playlist; succeeds exactly when each in its turn can be copied |
| `HlsPublisher.Publisher.WriteMedia` | native-broadcast-packager/source_hls_stage.go:408-413 | the media playlists in order; succeeds exactly when each in its turn fits and both its fences hold |
| `HlsPublisher.Publisher.WriteIndex` | native-broadcast-packager/source_hls_stage.go:414-420 | the index last, then the key and the windows; succeeds exactly when it fits and both fences hold |
| `HlsPublisher.Publisher.Sweep` | native-broadcast-packager/source_hls_stage.go:421-428 | removes everything not seen in the last three cycles, in any order; succeeds exactly when all of it can be removed |
| `HlsPublisher.Publisher.PublishChanged` | native-broadcast-packager/source_hls_stage.go:398-429 | a changed publication ends idle with exactly itself logged, or stopped, and which of the two is decided by the files, fences and limits alone |
| `HlsPublisher.Publisher.Publish` | native-broadcast-packager/source_hls_stage.go:370-430 | every outcome of the source: denied, inventory, not ready, malformed, rolled back, unchanged, failed, published, each exactly when it occurs; a changed publication is published if and only if every named object is unchanged or can be copied, every fence holds, all fits in order and every expired file can be removed; the directory moved only through the model's single steps |
| `HlsSuccess.RoomSuffices` | native-broadcast-packager/source_hls_stage.go:331-430 | with standing fences, unchanged sources, every expired file removable and room for everything named, a changed publication succeeds, names nothing missing and leaves everything visible unchanged |
| `HlsSuccess.SuccessiveSucceed` | native-broadcast-packager/source_hls_stage.go:334-341 | two publications in a row, whatever their windows share, both succeed while the sources stay and there is room; an object named by both keeps its content |
| `HlsPublisher.Publisher.Invalidate` | native-broadcast-packager/source_hls_stage.go:451-467 | removes the published files in any order; what stays is exactly what could not be removed, and only then is there an error |
| `HlsInvalidation.CanDangle` | native-broadcast-packager/source_hls_stage.go:451-467 | for every number of renditions and each of them, a reachable state in which its visible playlist names a removed segment |
| `HlsLife.WholeLife` | native-broadcast-packager/source_hls_stage.go:370-467 | a generation can publish all its renditions and be removed without a trace |
| `HlsInvalidation.DanglesExactly` | native-broadcast-packager/source_hls_stage.go:451-467 | during and after the invalidation the directory dangles if and only if a remaining playlist names a path already removed |
| `HlsInvalidation.CleanEndServesNothing` | native-broadcast-packager/source_hls_stage.go:451-467 | when the invalidation returns without error nothing is visible |
| `HlsInvalidation.SafeOrderExactly` | native-broadcast-packager/source_hls_stage.go:457-463 | an order of removals never dangles at any point if and only if every file goes no earlier than the files that name it |
| `HlsInvalidation.TopDownInvalidation` | native-broadcast-packager/source_hls_stage.go:457-463 | index, then playlists, then media would be such an order for whatever was published |
| `HlsGenerations.CheckedInRange` | native-broadcast-packager/source_hls_epoch.go:29-45 | a playlist that passed its epoch check has all its segments in its generation's range |
| `HlsGenerations.SegmentNamesAreForever` | native-broadcast-packager/source_hls_epoch.go:13-18 | over all generations that share the directory a segment name stands for one content |
| `HlsGenerations.EmptyBetween` | native-broadcast-packager/source_program_encoder.go:211-222 | generations never mix: each begins with and leaves an empty directory |
| `HlsGenerations.InitServedWithPlaylist` | native-broadcast-packager/transcode_pipeline.go:324-329 | every generation serves a rendition's init object with its playlist, under a name that does not depend on the generation |
| `HlsGenerations.InitContentDiffers` | native-broadcast-packager/transcode_pipeline.go:324-329 | for every number of renditions, every rendition and every two generations there is a history in which both publish everything and the init object returns with different content |
| `HlsGenerations.ContentGuaranteedExactly` | native-broadcast-packager/source_hls_epoch.go:13-18 | a media name stands for the same file in generations e and f, in every history, if and only if e is f or the name is a segment's |
| `SourceClock.NtpSamplesExact` | native-broadcast-packager/source_clock.go:67-72 | the split NTP arithmetic is the exact truncated product of the signed 64-bit difference |
| `SourceClock.PlacementExact` | native-broadcast-packager/source_clock.go:106-125 | placement is anchored once, then exact in NTP time and within two seconds of arrival |
| `SourceClock.PlacedExactly` | native-broadcast-packager/source_clock.go:106-125 | a report is placed if and only if the program clock is open and has not gone back, there is an NTP time, it lands at or after zero, and sender and arrival are at most two seconds apart |
| `SourceClock.MediaClock.FailClock` | native-broadcast-packager/source_clock.go:312-317 | the first failure closes the clock, keeps its reason and forgets the measurements |
| `SourceClock.MediaClock.CloseClock` | native-broadcast-packager/source_clock.go:297-310 | closing forgets every measurement, once |
| `SourceClock.MediaClock.BindSource` | native-broadcast-packager/source_clock.go:145-157 | one SSRC and one of two rates per generation |
| `SourceClock.MediaClock.CheckCurrent` | native-broadcast-packager/source_clock.go:159-174 | live exactly before both deadlines |
| `SourceClock.MediaClock.EnterQuarantine` | native-broadcast-packager/source_clock.go:217-231 | an outlier suspends the map, once per quarantine advances the epoch, and the third in a row closes |
| `SourceClock.MediaClock.AcceptReport` | native-broadcast-packager/source_clock.go:242-277 | an accepted report moves the RTP state and counts towards recovery |
| `SourceClock.MediaClock.SettleReport` | native-broadcast-packager/source_clock.go:237-277 | a measured report is accepted unless placement fails or disagrees with the map |
| `SourceClock.MediaClock.SourceSenderReport` | native-broadcast-packager/source_clock.go:183-278 | the whole decision on one report, by the rules of the next two rows |
| `SourceClock.MeasuredExactly` | native-broadcast-packager/source_clock.go:192-232 | from the report's own numbers: fitting if and only if both clocks moved on by at most 12 s and disagree by at most 960 samples at 48 kHz or 96 at 90 kHz plus half a percent; an outlier if and only if beyond that and within 4800 |
| `SourceClock.ReportOutcome` | native-broadcast-packager/source_clock.go:183-278 | a report becomes the last accepted one, enters quarantine, is ignored as a repetition or ends the generation, each exactly when these rules and its placement say so |
| `SourceClock.MediaClock.MapTimestamp` | native-broadcast-packager/source_clock.go:283-295 | the map on 32-bit timestamps |
| `SourceClock.RunTracks` | native-broadcast-packager/source_clock.go:183-278 | in every run the elapsed RTP time is the sender's true unwrapped distance |
| `SourceClock.MapAffine` | native-broadcast-packager/source_clock.go:283-295 | for every true position near the last accepted report, the map of its low 32 bits is anchor + (X - X0) * 48000 / rate, whatever was accepted, rejected or repeated and across any wraps; it answers exactly when ready and within 12 s |
| `SourceClock.MapFixed` | native-broadcast-packager/source_clock.go:280-283 | anchor, rate and origin never move within a generation |
| `SourceClock.MapMonotoneAcrossRun` | native-broadcast-packager/source_clock.go:280-295 | two positions mapped at any two moments of a run keep their order |
| `SourceClock.ElapsedBounded` | native-broadcast-packager/source_clock.go:193-236 | the elapsed RTP time grows by at most 1 087 202 ticks per accepted report |
| `SourceClock.MapFitsInt64` | native-broadcast-packager/source_clock.go:289-293 | for up to 176 million accepted reports the product of the map stays inside 64 bits |
| `Quarantine.EpochStep` | native-broadcast-packager/source_clock.go:217-229 | each entry into quarantine advances the epoch by exactly one and nothing else moves it |
| `Quarantine.EpochCountsQuarantines` | native-broadcast-packager/source_clock.go:217-229 | the epoch is the number of quarantines so far |
| `Quarantine.EpochMonotone` | native-broadcast-packager/source_clock.go:217-229 | the epoch never goes back |
| `Quarantine.RejectionFreezes` | native-broadcast-packager/source_clock.go:214-229 | a rejected report neither refreshes a deadline nor moves RTP state, anchor or report count |
| `Quarantine.ReadyNeedsTwoReports` | native-broadcast-packager/source_clock.go:267-273 | after an outlier nothing maps until two reports were accepted with no outlier between them |
| `Quarantine.TwoReportsSuffice` | native-broadcast-packager/source_clock.go:265-273 | with the second of two accepted reports and no outlier between them the quarantine is over, in every run |
| `Quarantine.LapsesExactly` | native-broadcast-packager/source_clock.go:159-174 | in every run a clock lapses exactly twelve seconds after the last accepted report, or its binding if there was none, and exactly twelve seconds into a quarantine |
| `Quarantine.ClockComesUp` | native-broadcast-packager/source_clock.go:145-295 | at either rate a binding and two placed reports that fit, each in time, bring a fresh clock up, mapping by the first placement |
| `RenderFence.RenderGuard.AddFence` | native-broadcast-packager/source_render_guard.go:37-44 | a fence is added, or the guard is marked overfull for good |
| `RenderFence.RenderGuard.Holds` | native-broadcast-packager/source_render_guard.go:25-35 | a guard holds exactly if it is not overfull and each of its fences says so when asked |
| `RenderFence.StepFenced` | native-broadcast-packager/source_video_time.go:24-94 | with any clock moving between a reading and its acceptance, every tile keeps a fence of the epoch that timed it |
| `RenderFence.GuardedPixelsAreCurrent` | native-broadcast-packager/source_video_time.go:62-94 | whenever a guard passes, each picture behind it was timed in the epoch its clock had when its fence was asked |
| `RenderFence.PassesExactly` | native-broadcast-packager/source_video_time.go:24-85 | in every run a guard with at most 80 pictures passes if and only if each picture's source is, when asked, open with a live 90-kHz clock that is ready in the picture's own epoch |
| `RenderFence.ClosesExactly` | native-broadcast-packager/source_video_time.go:62-69 | a source is closed by its revocation or a reading that denies it and by nothing else: a reading never falls behind the epoch in use |
| `RenderFence.TimedPictureKept` | native-broadcast-packager/source_video_time.go:70-85 | a picture timed by the clock is kept under the epoch of that reading, beside the earlier ones of the same epoch |
| `RenderFence.QuarantineInvalidatesForever` | native-broadcast-packager/source_render_guard.go:12-35 | output with a picture from before its source's quarantine never passes its guard again, whenever its fences are asked |
| `RenderFence.OverfullNeverPasses` | native-broadcast-packager/source_render_guard.go:37-44 | a composition with more than 80 pictures is never handed on |
| `FrameAssembly.Assembler.Assemble` | native-broadcast-packager/source_frames.go:93-111 | the gap search and the concatenation |
| `FrameAssembly.Assembler.Take` | native-broadcast-packager/source_frames.go:57-111 | duplicates, conflicting heads or markers, caps, storing and completion for one packet of the present frame |
| `FrameAssembly.Assembler.PushPacket` | native-broadcast-packager/source_frames.go:35-112 | expiry, newer and older timestamps, then the packet |
| `FrameAssembly.PushCapped` | native-broadcast-packager/source_frames.go:80-89 | each packet keeps the exact byte count and all caps |
| `FrameAssembly.AlwaysCapped` | native-broadcast-packager/source_frames.go:80-89 | stored fragments and bytes never exceed the caps in any run |
| `FrameAssembly.FramesAreSound` | native-broadcast-packager/source_frames.go:35-112 | a returned frame is the concatenation, consecutive modulo 2^16, of same-timestamp payloads that arrived, from a head to a marker |
| `FrameAssembly.OtherIgnored` | native-broadcast-packager/source_frames.go:36-50 | a packet that does not parse, or of another frame that is not newer, leaves a frame under way exactly as it is |
| `FrameAssembly.AnyOrderReassembles` | native-broadcast-packager/source_frames.go:35-112 | any order with any repetitions of a valid frame's packets, among any unparsable packets and packets of other frames that are not newer, at most 64 of its own before the head and within the deadline, yields exactly that frame at the packet that completes it and nothing before |
| `AudioMix.PcmRing.StorePacket` | native-broadcast-packager/source_audio_mix.go:130-138 | the ring in place after storing a packet |
| `AudioMix.PcmRing.TakeBlock` | native-broadcast-packager/source_audio_mix.go:201-218 | a block is read and its slots are cleared in place |
| `AudioMix.WriteRepresents` | native-broadcast-packager/source_audio_mix.go:114-139 | an accepted packet is heard at its own times from the cursor on and changes no time before it |
| `AudioMix.TakeRepresents` | native-broadcast-packager/source_audio_mix.go:201-241 | playing a block keeps the ring equal to the time map |
| `AudioMix.RingRefinesTime` | native-broadcast-packager/source_audio_mix.go:114-139 | for every run, slot i mod size holds the sample stored for time i or silence, and what was played is what had been stored for its time |
| `AudioMix.LateNeverShifts` | native-broadcast-packager/source_audio_mix.go:131-132 | a late packet changes neither what was played nor any past time, and a wholly late one nothing at all |
| `AudioMix.OpenExactly` | native-broadcast-packager/source_audio_mix.go:114-130 | in every run a source is closed by its packets exactly when one was empty, longer than 120 ms, outside program time, earlier than the end of one before it or beyond the window |
| `AudioMix.AddBlock` | native-broadcast-packager/source_audio_mix.go:201-218 | one source's gain-weighted contribution is added to the sums |
| `AudioMix.MixBlock` | native-broadcast-packager/source_audio_strategy.go:90-94 | every output sample is the truncated, clamped sum over all sources, walked in any order |
| `AudioMix.OutputExact` | native-broadcast-packager/source_audio_strategy.go:90-94 | a sum is divided by 32768 towards zero and cut off at the ends of 16 bits |
| `AudioMix.SoleSource` | native-broadcast-packager/source_audio_mix.go:201-218 | a source alone at full gain comes out verbatim, muted or at gain zero not at all, each side by its own gain |
| `AudioMix.SumNeverOverflows` | native-broadcast-packager/source_audio_mix.go:214-215 | the sums of up to 80 sources stay inside 64 bits |
| `AudioMix.OrderInaudible` | native-broadcast-packager/source_audio_mix.go:220-221 | any order of the same sources gives the same sum |
| `AudioProgram.BlockIsMixOfHeard` | native-broadcast-packager/source_audio_mix.go:178-243 | for every run with sources added, regained, muted, written late, refused and closed, the block at cursor c follows the one before it and has at i the clamped sum over the open sources of gain times what each has for time c + i; it is silence only if a summed source lost its authority |
| `VideoPool.VideoInput.WriteRGBA` | native-broadcast-packager/source_video_mix.go:106-133 | admission, the clock's reading, a rebound epoch and a suspended clock, in place; slots stay exactly the waiting ones and the one shown |
| `VideoPool.VideoInput.WriteFrame` | native-broadcast-packager/source_video_mix.go:130-137 | clock denial closes, a stale picture is dropped, any other goes to the pool |
| `VideoPool.VideoInput.PutFrame` | native-broadcast-packager/source_video_mix.go:138-162 | the slot search and replacement refine the list form |
| `VideoPool.VideoInput.FreeSlot` | native-broadcast-packager/source_video_mix.go:138-144 | a slot is found exactly while fewer pictures than slots are held |
| `VideoPool.VideoInput.Show` | native-broadcast-packager/source_video_mix.go:305-316 | the advance loop in place refines the list form |
| `VideoPool.VideoInput.PopPending` | native-broadcast-packager/source_video_mix.go:318-324 | the earliest waiting picture becomes the one shown |
| `VideoPool.VideoInput.DiscardFrames` | native-broadcast-packager/source_video_time.go:87-94 | every slot is blanked, the clock position stays |
| `VideoPool.VideoInput.Close` | native-broadcast-packager/source_video_mix.go:326-337 | every slot is wiped before the storage is let go |
| `VideoPool.ArrivalCosts` | native-broadcast-packager/source_video_mix.go:145-162 | what a full pool gives up is only the furthest picture or the arrival, never the one shown or the next one due |
| `VideoPool.AdvanceShowsLatest` | native-broadcast-packager/source_video_mix.go:305-316 | shows the latest retained picture that is due and young enough, and leaves waiting exactly those not due |
| `VideoPool.RenderShowsLatest` | native-broadcast-packager/source_video_mix.go:243-262 | after any run, a render shows the latest picture ever accepted that is due, young enough and was not given up by a full pool, with its own pixels |
| `VideoPool.OpenExactly` | native-broadcast-packager/source_video_mix.go:106-137 | in every run a source is open exactly as long as every picture was permitted, of its size, timed, later than all before and not too far ahead, every render permitted and later than the one before, and nothing revoked it |
| `VideoPool.NextDeadlineKept` | native-broadcast-packager/source_video_mix.go:145-151 | however many pictures arrive, the next one due stays next until the program reaches it |
| `VideoPool.NextDeadlineMet` | native-broadcast-packager/source_video_mix.go:145-151 | the first render to reach it shows it or a later one that is due: no producer can freeze the screen |
| `VideoPool.VideoMixer.Add` | native-broadcast-packager/source_video_mix.go:84-104 | a source is admitted if and only if it is in order and all its slots fit; the new source's slots are counted into an account that stays exact |
| `VideoPool.VideoMixer.CountSlots` | native-broadcast-packager/source_video_mix.go:98-101 | the bytes counted slot by slot are what an open source owns |
| `VideoPool.VideoMixer.CloseSource` | native-broadcast-packager/source_video_mix.go:326-345 | closing wipes the source's slots and returns exactly their bytes; no other source is touched |
| `VideoPool.VideoMixer.WriteTo` | native-broadcast-packager/source_video_mix.go:106-133 | a write that closes its source gives its bytes back, any other leaves the account as it is |
| `VideoPool.VideoMixer.CloseAll` | native-broadcast-packager/source_video_mix.go:353-366 | closing the mixer closes every source and leaves nothing accounted |
| `OpusPacket.ScanPadding` | native-broadcast-packager/source_opus_packet.go:33-54 | the padding loop |
| `OpusPacket.ScanLengths` | native-broadcast-packager/source_opus_packet.go:64-79 | the length loop |
| `OpusPacket.SourceOpusSamples` | native-broadcast-packager/source_opus_packet.go:7-86 | the parser's loops compute the specification that the next two rows are about |
| `OpusPacket.PrintedIsAccepted` | native-broadcast-packager/source_opus_packet.go:7-86 | every well-formed packet of codes 0 to 3, CBR or VBR, padded or not, is accepted with frame length times frame count (section 3.2 of RFC 6716) |
| `OpusPacket.AcceptedIsPrinted` | native-broadcast-packager/source_opus_packet.go:7-86 | every accepted byte string is the printing of a well-formed packet, at most 120 ms, with that duration |
| `OpusPacket.OpusTimeline.AcceptPacket` | native-broadcast-packager/source_opus_packet.go:100-109 | one packet on the timeline |
| `OpusPacket.PreSkipExact` | native-broadcast-packager/source_opus_packet.go:100-109 | over any run pre-skip removes exactly min(preSkip, total) |
| `OpusPacket.SpansNeverOverlap` | native-broadcast-packager/source_opus_packet.go:100-109 | a span starts no earlier than everything handed on before it ends, in unwrapped time |
| `OpusPacket.TakenExactly` | native-broadcast-packager/source_opus_packet.go:100-109 | in unwrapped time a packet of whole frames is taken if and only if its timestamp can be read as a moment at or after the end of the audio so far and at most ten minutes after the last packet's start |
| `TokenBudget.HlsBudget.RefillNow` | src/broadcast-hls-budget.js:36-49 | tops both balances up, or closes on a bad clock |
| `TokenBudget.HlsBudget.Request` | src/broadcast-hls-budget.js:51-55 | granted exactly when the level at that time holds one request, and debits it |
| `TokenBudget.HlsBudget.Bytes` | src/broadcast-hls-budget.js:67-71 | granted exactly when the level at that time holds the bytes, and debits them |
| `TokenBudget.HlsBudget.Full` | src/broadcast-hls-budget.js:65-65 | full exactly when both balances are at their caps after a refill |
| `TokenBudget.LevelGrows` | src/broadcast-hls-budget.js:44-47 | the level at a later time is the earlier level grown: refilling composes |
| `TokenBudget.RefillUnobservable` | src/broadcast-hls-budget.js:36-49 | refilling early changes no later level |
| `TokenBudget.FullStaysFull` | src/broadcast-hls-budget.js:65-65 | a full bucket cannot be told from a fresh one |
| `ScopedBudget.HlsScopedBudget.Tick` | src/broadcast-hls-scoped-budget.js:64-73 | reads the clock once, or closes |
| `ScopedBudget.HlsScopedBudget.Sweep` | src/broadcast-hls-scoped-budget.js:94-94 | drops exactly the full buckets outside the keys, in any visiting order |
| `ScopedBudget.HlsScopedBudget.Debit` | src/broadcast-hls-scoped-budget.js:98-103 | three availability questions, then three debits, at one frozen time |
| `ScopedBudget.HlsScopedBudget.TakeFrom` | src/broadcast-hls-scoped-budget.js:87-104 | the whole take |
| `ScopedBudget.PerformRefines` | src/broadcast-hls-scoped-budget.js:87-104 | a take debits deployment, tenant and audience together or none, touches no other scope, and is granted exactly when all three afford it and there is room |
| `ScopedBudget.RoomExactly` | src/broadcast-hls-scoped-budget.js:92-96 | there is no room exactly when too many other scopes are mid-refill |
| `ScopedBudget.TableBounded` | src/broadcast-hls-scoped-budget.js:92-97 | the table never outgrows its capacity |
| `ScopedBudget.OpenExactly` | src/broadcast-hls-scoped-budget.js:64-73 | in every run the budget is open exactly as long as every clock reading was there, in range and not earlier than one before it |
| `ScopedBudget.RunConserves` | src/broadcast-hls-scoped-budget.js:87-104 | over any run, final level plus grants is at most initial level plus refill, per scope |
| `ScopedBudget.RateLimited` | src/broadcast-hls-scoped-budget.js:87-104 | over any run and interval, in the policy's own numbers: a scope with positive limits is granted at most its burst plus bits/8 per second in bytes, and its requests plus that many per second in requests |
| `ScopedBudget.RatesInUnits` | src/broadcast-hls-budget.js:31-33 | the bucket's caps and rates are the policy's: an eighth of the bits a second in bytes, refilled by the millisecond |
| `ScopedBudget.IdleScopeAffords` | src/broadcast-hls-scoped-budget.js:87-104 | a scope left alone for t ms affords at least the lesser of its burst and bits t / 8000 bytes, and of its requests and requests t / 1000 |
| `ScopedBudget.FreshScopeAffords` | src/broadcast-hls-scoped-budget.js:82-97 | a scope never used affords exactly its burst and one second's requests |
| `ScopedBudget.IdleTakeGranted` | src/broadcast-hls-scoped-budget.js:87-104 | after t idle milliseconds a take of bytes within what all three limits yield in that time is granted, unless the table is crowded |
| `ScopedBudget.ZeroLimitGrantsNothing` | src/broadcast-hls-scoped-budget.js:56-62 | a zero byte limit grants no byte and a zero request limit no request, in any run |
| `ScopedBudget.EvictionUnobservable` | src/broadcast-hls-scoped-budget.js:82-97 | after any run the next take is answered as an unbounded family of buckets would, unless refused for room |
| `GrantAuthority.StepSound` | src/broadcast-grant-authority.js:264-361 | every stretch of code between two awaits keeps the authority's invariant |
| `GrantAuthority.QuotaHolds` | src/broadcast-grant-authority.js:158-167 | under every interleaving, issued-unexpired plus pending grants stay within the subject, tenant and program limits |
| `GrantAuthority.AdmittedExactly` | src/broadcast-grant-authority.js:264-303 | in every execution a fresh grant is taken on if and only if it is not yet over, its epoch was never revoked and each of its three scopes has fewer live and pending grants than its limit |
| `GrantAuthority.SingleUseOnce` | src/broadcast-grant-authority.js:393-480 | a single-use grant is authorised at most once |
| `GrantAuthority.RecordedExactly` | src/broadcast-grant-authority.js:343-360 | a signature that arrives makes its grant authorisable exactly when its epoch, its reservation and its key still stand |
| `GrantAuthority.AuthorisedExactly` | src/broadcast-grant-authority.js:425-480 | a verified token is authorised if and only if its grant is recorded as issued, unexpired at the caller's time, under the token's key, of an epoch not revoked and in scope; single use spends it |
| `GrantAuthority.EveryUseProper` | src/broadcast-grant-authority.js:425-480 | in every execution every authorisation was of an issued grant, unexpired, under its own key and in scope |
| `GrantAuthority.IssuedIsAuthorised` | src/broadcast-grant-authority.js:264-480 | a grant that may be issued, is signed and presented in scope before it expires is authorised |
| `GrantAuthority.EpochRevocationFinal` | src/broadcast-grant-authority.js:535-548 | after an epoch is revoked no grant of it is authorised, even if its signature or verification was under way |
| `GrantAuthority.RotationFinal` | src/broadcast-grant-authority.js:550-558 | after a rotation no earlier or still-signing grant is authorised |
| `GrantAuthority.RevocationFinal` | src/broadcast-grant-authority.js:526-533 | a grant revoked by name, pending or issued, is never authorised again |
| `GrantAuthority.RecordTable.RevokeMatching` | src/broadcast-grant-authority.js:540-546 | the loop revokes exactly the matching issued records |
| `GrantAuthority.RecordTable.PruneRecords` | src/broadcast-grant-authority.js:582-589 | the loop expires and drops exactly the records past their times |
| `Failover.FailoverCoordinator.EmitEvent` | src/broadcast-failover-coordinator.js:535-550 | a full outbox throws and changes nothing |
| `Failover.FailoverCoordinator.PromoteTo` | src/broadcast-failover-coordinator.js:495-518 | installs a lease under a new revision before it announces it |
| `Failover.FailoverCoordinator.StopProgram` | src/broadcast-failover-coordinator.js:520-533 | drops both leases and stops before it announces it |
| `Failover.FailoverCoordinator.AcquireRole` | src/broadcast-failover-coordinator.js:305-320 | refused while stopped or while a lease lives; otherwise promotes or stops |
| `Failover.FailoverCoordinator.HeartbeatOf` | src/broadcast-failover-coordinator.js:322-341 | only the active triple extends its lease; an unhealthy one starts the grace period |
| `Failover.FailoverCoordinator.FenceRole` | src/broadcast-failover-coordinator.js:362-368 | the fence is announced before the lease is dropped |
| `Failover.FailoverCoordinator.EvaluateRole` | src/broadcast-failover-coordinator.js:343-375 | healthy, grace, stop or takeover, with the state left behind when announcing throws |
| `Failover.FailoverCoordinator.AuthorizeWriter` | src/broadcast-failover-coordinator.js:377-388 | allows exactly the active, unexpired triple of a program that is not stopped |
| `Failover.StepFences` | src/broadcast-failover-coordinator.js:305-375 | every step, thrown or not, keeps, drops or replaces a lease under a larger revision |
| `Failover.ReplacedNeverReturns` | src/broadcast-failover-coordinator.js:305-388 | a replaced or fenced triple is never authorised again, in either role |
| `Failover.RevisionsStrictlyIncrease` | src/broadcast-failover-coordinator.js:495-508 | leases of both roles carry distinct, strictly increasing revisions |
| `Failover.LeaseOrigin` | src/broadcast-failover-coordinator.js:495-508 | every lease was installed by one step under a revision above all before it and has been its role's lease ever since |
| `Failover.WritersSucceed` | src/broadcast-failover-coordinator.js:377-388 | of two triples authorised for a role at any two moments the later is the same or carries a larger revision, and the earlier is then never authorised again |
| `Failover.FullOutboxKeepsWriter` | src/broadcast-failover-coordinator.js:362-368 | with a full outbox an evaluation leaves the role's lease, the revision and every authorisation as they were |
| `Failover.NothingAfterStop` | src/broadcast-failover-coordinator.js:520-533 | nothing is authorised after a stop, even if announcing it failed or an evaluation promotes afterwards |
| `Failover.AcquireNeverDisplaces` | src/broadcast-failover-coordinator.js:305-311 | within a lease's time no acquire displaces it |
| `Failover.PromotedForLeaseTime` | src/broadcast-failover-coordinator.js:495-509 | a takeover or acquisition authorises the new writer for exactly the lease time, announced or not |
| `Failover.HealthyWriterStays` | src/broadcast-failover-coordinator.js:322-375 | over every run in which nothing is done against it, a writer stays authorised, while the program runs, exactly until the lease time after its last healthy heartbeat |
| `Failover.EvaluationDecides` | src/broadcast-failover-coordinator.js:343-375 | an evaluation of a role without a healthy writer keeps all during the grace period; after it a candidate takes over for one lease time, unless the source failed, the deadline has passed or there is none, and then the program stops |
| `Failover.AcquisitionDecides` | src/broadcast-failover-coordinator.js:305-320 | an acquisition of a role without a live lease makes the candidate the writer for one lease time, and without one stops the program |
| `Failover.FailureRemembered` | src/broadcast-failover-coordinator.js:333-336 | in every run the first unhealthy heartbeat starts the grace period; until a healthy one neither later unhealthy ones nor early evaluations move its beginning or the lease's end |
| `Failover.FailingWriterReplaced` | src/broadcast-failover-coordinator.js:343-375 | a writer that keeps failing is replaced by the evaluation after the grace period that has a candidate and comes before the deadline |

## Left out

- Pion, ICE, SDP, WebSocket and DataChannel internals: only the signalling state, the FIFO paths and the
  failure of CreateOffer are modelled; an agent that closes takes no further step.
- FederationProgress.TurnCompletes: speaks of states in which no CreateOffer has failed; after a failure the
  source tries again only when something else asks for a negotiation, and so does the model.
- Federation track forwarding (which senders an answer accepts): reduced to whether a retry is needed.
- What an encoder process does inside (RolloverRun models only its life), FFmpeg arguments, pipes, file locks, inode and symlink checks: the served directory is an
  owned map and a private file's identity is a value.
- HlsStage: a rename that succeeds while reading the file back fails, which would leave a file the
  publisher does not know of.
- Playlist text: the parser's lexical rules (numbers, EXTINF values, dates) decide the kind of a line, and
  the 65536-byte limit is one flag.
- HlsPublisher.Publisher.Publish: is not called again after it returned an error, as
  source_hls_stage.go:368 asks of its caller.
- The adaptive clock, the least-squares fit, the resampler, ducking and the limiter: their claims are
  about IEEE rounding.
- SourceClock.MapAffine: it and the lemmas over its runs assume a sender whose RTP position moves by less
  than 2^31 between accepted reports; a longer jump cannot be told from its low 32 bits.
- ScopedBudget.RateLimited: it and the other budget laws are over real numbers; rounding of JavaScript
  numbers is not modelled, and keyed digests are taken to be distinct for distinct scopes.
- GrantAuthority: tokens are unforgeable, grant ids are fresh, time does not run backwards, and calls
  refused before they change anything are not steps; payload comparison is one flag.
- Failover: `restore`, the ordering of candidates and the classification of failures; the chosen candidate
  is a parameter.
- VP8 descriptor parsing and the re-delivery of a whole frame after its completion (the source assembles
  it again).
- Scene layout, blitting, overlays and the second authorisation pass of a video render; a source that
  loses authority there is a `Revoke` step.
- RolloverRun: the initial construction, which fails synchronously; the readiness timeout is one reason
  among others to leave the loop.
- OpusPacket: the compressed audio itself.
- HTTP endpoints, metrics, schemas, JWT, device proofs, and the simple quotas and counters: they would
  only add easier members.
