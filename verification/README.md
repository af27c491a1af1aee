# CableCheck, verified

CableCheck runs on two PCs joined by one Ethernet cable: PC1 coordinates, PC2 works for it.
They talk over a framed control connection, run ping, TCP, UDP and cable tests, hand the
reports over, and fold the evidence into a verdict about the cable. This project models the
parts of that program that keep state, exchange messages or decide something, and proves what
they promise: for every input, every interleaving and every run.

Check it with `dafny verify dfyconfig.toml`.

| files | what they hold |
|---|---|
| `Transfer`, `TransferReceiver`, `TransferSender` | the report transfer's gates and its two parties, as loops and as steps |
| `TransferProtocol`, `TransferTheorems` | both parties composed over FIFO links and the session's routing buffer |
| `SessionState`, `Session`, `SessionRuns` | the transition table, every event-loop handler as one step, and what all runs of one side keep |
| `SessionLaws`, `SessionReports` | what each handler does to every field, and when reports, verdicts and declines go out over all runs |
| `SessionLoop` | the handlers as methods on the session object, each proved to take exactly that step |
| `SessionPair` | coordinator and worker joined by two FIFO links |
| `Registry`, `MessageIds`, `Framing` | in-flight calls, message IDs with duplicate detection, length-prefixed frames |
| `Evidence`, `Rules`, `Classification`, `Score`, `Evaluator` | facts, the 33 rules, the verdict, the score, and how they move together |
| `RuleLaws`, `ScoreLaws` | every rule and every deduction in numbers, at the shipped thresholds |
| `Samples`, `TrialAggregation`, `Collapse` | order statistics, repeat-trial aggregation, throughput collapses |
| `Monitor`, `Soak`, `Bitrate` | link monitor, soak plan, bit-rate text |
| `Decimal`, `Machine`, `Wrappers` | decimal numerals, integer limits, `Option` and `Result` |

How to read it. A step function on values (`TransferReceiver.Receive`, `Session.Handle`,
`Registry.Next`, `Monitor.Next`) specifies one atomic step: an event-loop handler, or a section
under one mutex. Where the program updates fields in place, a class holds those fields, and
each of its methods is proved to reach exactly the state the step function gives. Runs are
sequences of enabled steps, and the theorems are about all of them. What the program does not
decide (whether a write succeeds, what a disk or a clock does, which bytes arrive) comes in as
a parameter over which every theorem quantifies.

Things the proofs brought out, beyond what the documentation says:

- The transfer's routing buffer of 64 frames never overflows with an honest sender, even while
  a refused attempt drains behind its retry; and 64 is exact, since some run fills it
  (`RoutingLosesNothing`, `RoutingBoundIsReached`).
- A `ready` frame cannot cost a strike against any peer, honest or not (`ReadyIsNeverStruck`);
  `start_confirmation` needs an honest coordinator over FIFO links (`ReadinessIsNeverStruck`).
- The isolated-outlier cap on throughput can only act with exactly two completed trials
  (`CapNeedsExactlyTwoTrials`).
- The flap test of the link monitor adds two in 64 bits and is wrong only where that
  sum wraps, at the two top counter values (`FlapIsExactBelowTheWrap`, `FalseFlapAtTheWrap`).
- The bit-rate parser also accepts the Kelvin sign as K, because it lower-cases to `k`.
- The soak plan does not carry a cycle's own incomplete mark into the session results; they are
  incomplete exactly when the run returns an error (`Soak.SoakPlan.Run`).

## Model

| member | source | states |
|---|---|---|
| `Transfer.SafeNamesAreTheAllowlist` | internal/reporting/transfer.go:88-101 | a name is safe exactly when it is one of the three report files |
| `Transfer.ValidateManifest` | internal/reporting/transfer.go:142-158 | accepts exactly the manifests whose names are allowlisted, whose sizes are within the per-file cap and whose sum is within the total cap |
| `Transfer.ManifestLimits` | internal/reporting/transfer.go:142-158 | the gate, with its names and caps written out |
| `Transfer.BuildManifest` | internal/reporting/transfer.go:105-138 | succeeds exactly when every report file is absent or regular and within 8 MiB and all fit 16 MiB together; it then lists every regular one in canonical order with its true size and digest, passes the receiver's gate and has distinct names |
| `TransferReceiver.ReceiveKeepsInvariant` | internal/reporting/transfer_recv.go:97-222 | any frame or channel error, with any local failure, keeps the receiver's invariant on disk, acks and reached entry |
| `TransferReceiver.OpeningVerdict` | internal/reporting/transfer_recv.go:42-68 | the first frame decides: a lost channel or a chunk ends it without an ack, an unacceptable manifest or directory is declined, anything else starts the first file or, for no files, ends it |
| `TransferReceiver.ChunkVerdict` | internal/reporting/transfer_recv.go:116-220 | exactly which chunk is declined, rejected, accepted or kept without an ack, by its own name, offset, length and digest |
| `TransferReceiver.DeclinedChunkEnds` | internal/reporting/transfer_recv.go:126-192 | a foreign name or an oversize chunk ends the transfer and commits nothing |
| `TransferReceiver.RejectedChunkRetriesOnce` | internal/reporting/transfer_recv.go:155-211 | a gap or a wrong digest drains and waits once for a restart, and gives the file up the second time |
| `TransferReceiver.AcceptedChunkCommits` | internal/reporting/transfer_recv.go:200-220 | the exact last chunk commits the bytes received, removes the `.part` and moves to the next file |
| `TransferReceiver.UnfinishedChunkIsKept` | internal/reporting/transfer_recv.go:193-199 | a chunk before the last is appended and nothing else happens |
| `TransferReceiver.LocalFailuresEndIt` | internal/reporting/transfer_recv.go:144-216 | a failing open, write or commit declines the transfer and commits nothing |
| `TransferReceiver.ReceiverIsSafe` | internal/reporting/transfer_recv.go:42-222 | against any frame sequence: committed files are allowlisted with their manifest size and digest, no `.part` outgrows its entry, committed plus partial bytes stay within 16 MiB, at most two rejecting acks per entry, a decline is the last ack, and no `.part` survives a return |
| `TransferReceiver.RunIsAfter` | internal/reporting/transfer_recv.go:42-68 | running the loop to its closing error reaches the very state the step-by-step account gives |
| `TransferReceiver.ReturnedReceiverIsSafe` | internal/reporting/transfer_recv.go:42-68 | the same safety of a receiver that has returned, over the manifest it was sent, with nothing partial left |
| `TransferReceiver.ReportReceiver.StoreChunk` | internal/reporting/transfer_recv.go:184-220 | writing one in-sequence chunk, finishing, verifying and committing takes the specified step |
| `TransferReceiver.ReportReceiver.TakeChunk` | internal/reporting/transfer_recv.go:116-173 | one frame of a file, draining included, takes the specified step |
| `TransferReceiver.ReportReceiver.ReceiveOneFile` | internal/reporting/transfer_recv.go:97-222 | the attempt loop for one file ends where folding the step function ends |
| `TransferReceiver.ReportReceiver.ReceiveReports` | internal/reporting/transfer_recv.go:42-68 | however the loop returns: its disk, acks and return value are those of folding the step function over everything delivered, only exact manifest entries are committed, no `.part` is left, bytes stay within 16 MiB, at most two rejects per entry, and a decline is the last ack |
| `TransferSender.StreamFileChunks` | internal/reporting/transfer_send.go:91-131 | the read loop sends exactly the chunks of the file, an empty last chunk included, or those before the point where opening, reading, cancellation or sending ends it |
| `TransferSender.ChunksReassemble` | internal/reporting/transfer_send.go:91-131 | offsets are contiguous, every chunk but the last holds exactly 256 KiB and the last one less, only the last is marked last, and the data concatenates to the file |
| `TransferSender.SendOneFile` | internal/reporting/transfer_send.go:67-86 | one retry, one ack per attempt, exactly the frames of the step-by-step sender; a pass that gives out or a missing ack fails it |
| `TransferSender.AckDecides` | internal/reporting/transfer_send.go:67-86 | which ack ends the transfer, moves to the next file, succeeds, retries or fails, each exactly |
| `TransferSender.AcceptedFilesAreSentOnce` | internal/reporting/transfer_send.go:49-86 | with every file accepted at once, every chunk of every file goes out exactly once, in order, and the transfer succeeds |
| `TransferSender.RejectedTwiceFails` | internal/reporting/transfer_send.go:67-86 | a file rejected twice is streamed twice and fails the transfer |
| `TransferSender.SendReports` | internal/reporting/transfer_send.go:41-57 | nothing goes out exactly when the manifest cannot be sent or built, which the directory alone decides; the manifest describes exactly the files then streamed, and frames and result are those of the step-by-step sender |
| `TransferSender.SendFiles` | internal/reporting/transfer_send.go:49-56 | the file loop stops for the same reason and at the same chunk as the step-by-step sender |
| `TransferProtocol.ChunkOutcome` | internal/reporting/transfer_recv.go:116-222 | what the receiver does with the next chunk of the current attempt, for any data the wire made of it |
| `TransferProtocol.StepKeepsInv` | internal/reporting/transfer_send.go:41-131 | every step of the composed system keeps the joint invariant of sender, links, buffer and receiver |
| `TransferProtocol.PendingAckDecides` | internal/reporting/transfer_send.go:67-86 | in the composed system the ack the sender waits for carries the receiver's own verdict on that attempt |
| `TransferTheorems.RoutingLosesNothing` | internal/peer/transfer.go:85-101 | in every run, with any corruption of data, no frame is dropped: sent-but-unread frames never exceed the 64 slots |
| `TransferTheorems.BacklogWithoutLeftovers` | internal/peer/transfer.go:12 | while no refused attempt drains, the backlog is at most 34: a manifest and the 33 chunks of an 8 MiB file |
| `TransferTheorems.RoutingBoundIsReached` | internal/peer/transfer.go:12 | some run with an honest sender fills all 64 slots |
| `TransferTheorems.CommittedFilesAreFaithful` | internal/reporting/transfer_recv.go:200-220 | whatever the wire did, every committed file equals its source |
| `TransferTheorems.SuccessMeansDelivered` | internal/reporting/transfer_send.go:41-57 | a sender that returns success has every file committed byte for byte on the other side, and nothing else is committed |
| `TransferTheorems.AcksMatchAttempts` | internal/reporting/transfer_send.go:67-86 | the ack the sender reads is about its current file or declines the transfer, and a new attempt starts with no ack outstanding |
| `TransferTheorems.RunsAreBounded` | internal/reporting/transfer_send.go:41-131 | no run goes on for ever |
| `TransferTheorems.SenderIsNeverStuck` | internal/reporting/transfer_send.go:67-86 | a sender that waits for an ack gets one: some step is enabled until it has returned |
| `TransferTheorems.GoodRunsDeliverEverything` | internal/reporting/transfer_send.go:41-131 | with one clean attempt per file, lengths kept and a working disk, every finished run is a success with all files committed byte for byte |
| `SessionState.TerminalStates` | internal/peer/state.go:57-82 | exactly completed, aborted and failed have no way out |
| `SessionState.RowsAndColumnsAgree` | internal/peer/state.go:57-71 | the moves allowed are exactly those of the table, row by row |
| `SessionState.CompletionRequiresTesting` | internal/peer/state.go:57-71 | no path repeats a state or leaves a terminal one, and every completed path ends ready, testing, generating_report, completed |
| `SessionRuns.HandleKeeps` | internal/peer/loop.go:55-163 | every handler, against any frame, keeps phase, finish and executor invariants |
| `SessionRuns.ShutdownLandsWhereChosen` | internal/peer/session.go:582-608 | in any run of either side, every finish the loop chooses is a legal move and shutdown lands in it |
| `SessionRuns.ReadyIsNeverStruck` | internal/peer/ready.go:44-62 | in any run, against any peer, a ready frame costs no strike |
| `SessionRuns.ExecutorIsSound` | internal/peer/exec.go:19-217 | in any run: the decodable requests that reached testing are answered exactly once or own the one slot, answers are on the wire unless a write failed, the window callback alternates and ends closed, and the idle timeout is wide exactly while the window is open |
| `SessionRuns.ChunksAfterManifestAreFree` | internal/peer/transfer.go:85-144 | after an accepted or declined manifest no chunk in any continuation costs a strike |
| `SessionReports.CoordinatorTransfersWhenItShould` | internal/peer/exec.go:253-318 | in any run of PC1: a transfer runs only if reports are to be sent; if they are, its verdict goes out only after a transfer has run and ended; in report generation it transfers or its verdict is out; it never acknowledges a report |
| `SessionReports.WorkerDeclinesWhenItMust` | internal/peer/transfer.go:108-144 | in any run of PC2: a transfer runs only with a receive callback; without one the acks on the wire are exactly one decline for each manifest taken up |
| `SessionLaws.WarnLaw` | internal/peer/loop.go:168-183 | a strike sends one warning and counts one; the third ends the session as aborted with a farewell; nothing else changes |
| `SessionLaws.AnnounceLaw` | internal/peer/ready.go:15-39 | what a local start does to every field, for each outcome of its writes; PC1 confirms with 3.5 s lead |
| `SessionLaws.PeerReadyLaw` | internal/peer/ready.go:44-82 | what a ready frame does to every field, in every state |
| `SessionLaws.StartConfirmLaw` | internal/peer/ready.go:88-106 | only the worker in ready starts to count down; elsewhere a strike |
| `SessionLaws.TickLaw` | internal/peer/ready.go:137-171 | the last step of the countdown enters testing and starts the plan on PC1 |
| `SessionLaws.RequestLaw` | internal/peer/exec.go:19-88 | which requests are dismissed with an answer and which take the slot, and what that does to the executor |
| `SessionLaws.OpDoneLaw` | internal/peer/exec.go:178-217 | a finished op frees the slot, is answered once, and closes the window exactly after a window end or a failed window start |
| `SessionLaws.PlanLaw` | internal/peer/exec.go:253-292 | a successful plan starts the transfer exactly when reports are to be sent and otherwise sends its verdict at once; a failed one ends the session as failed with a farewell; a cancelled one only stops running |
| `SessionLaws.ReceivingLaw` | internal/peer/transfer.go:108-144 | with a receive callback a manifest starts the transfer, in report generation, and sends nothing |
| `SessionLaws.DecliningLaw` | internal/peer/transfer.go:108-144 | without one it is declined, no transfer starts, and later transfer frames are still no strike |
| `SessionLaws.MisplacedManifestLaw` | internal/peer/transfer.go:108-144 | on PC1, or outside testing and report generation, it is a strike |
| `SessionLaws.TransferLaw` | internal/peer/transfer.go:150-167 | the end of a transfer stops routing, warns exactly on failure, and sends PC1's verdict unless it is already out |
| `SessionLaws.CompleteLaw` | internal/peer/exec.go:320-346 | when a complete frame finishes either side, what is sent back, and that the payload is kept |
| `SessionLaws.DispatchLaw` | internal/peer/loop.go:101-163 | which handler each frame reaches |
| `SessionLaws.ShutdownLaw` | internal/peer/session.go:582-608 | the farewell goes out exactly if chosen, an open window is closed with its callback, and the state chosen is entered if legal |
| `SessionLoop.PeerSession.StartCountdown` | internal/peer/ready.go:111-123 | arms GO and those of 3, 2, 1 that are not already past |
| `SessionLoop.PeerSession.EnterReady` | internal/peer/ready.go:66-82 | only the coordinator schedules, and only when its start_confirmation was written |
| `SessionLoop.PeerSession.AnnounceReady` | internal/peer/ready.go:15-39 | announces once: the flag and the move out of waiting follow the written ready frame, straight to ready if the peer already announced |
| `SessionLoop.PeerSession.TakePeerReady` | internal/peer/ready.go:44-62 | a first ready is noted while waiting and moves a waiting side to ready; a repeat changes nothing; anywhere else it strikes |
| `SessionLoop.PeerSession.TakeStartConfirmation` | internal/peer/ready.go:88-106 | arms the worker in ready from the announced lead time, strikes elsewhere, drops what does not decode |
| `SessionLoop.PeerSession.TickCountdown` | internal/peer/ready.go:137-158 | counts one step; GO enters testing and launches the plan on PC1 only |
| `SessionLoop.PeerSession.TakeTestRequest` | internal/peer/exec.go:19-88 | a worker in testing answers on the spot or takes the one slot, opening the window where asked; elsewhere a strike |
| `SessionLoop.PeerSession.AnswerOnTheSpot` | internal/peer/exec.go:36-79 | cancels, overlaps and window misuse are answered at once; nothing else is |
| `SessionLoop.PeerSession.FinishOp` | internal/peer/exec.go:178-217 | frees the slot it owns, closes the window where due, and answers |
| `SessionLoop.PeerSession.FinishPlan` | internal/peer/exec.go:253-292 | takes exactly the plan step, whose effect on every field `SessionLaws.PlanLaw` states |
| `SessionLoop.PeerSession.TakeComplete` | internal/peer/exec.go:320-346 | PC1 needs its own complete out first, PC2 answers from testing or report generation; both finish completed with the payload |
| `SessionLoop.PeerSession.TakeManifest` | internal/peer/transfer.go:108-144 | the worker enters report generation, then starts and routes to its receiver or declines, either way marking the transfer as run |
| `SessionLoop.PeerSession.RouteFrame` | internal/peer/transfer.go:85-101 | a transfer frame strikes only when no transfer runs or ran |
| `SessionLoop.PeerSession.FinishTransfer` | internal/peer/transfer.go:150-167 | routing stops, a failure only warns, PC1 sends its one complete |
| `SessionLoop.PeerSession.WarnFrame` | internal/peer/loop.go:168-183 | the third strike ends the session with a farewell |
| `SessionLoop.PeerSession.TakeFrame` | internal/peer/loop.go:101-163 | each message type reaches its handler; handshake frames strike; the rest change nothing |
| `SessionLoop.PeerSession.TearDownNow` | internal/peer/session.go:582-608 | farewell if due, window closed with its callback, then the chosen terminal state |
| `SessionLoop.PeerSession.Run` | internal/peer/loop.go:15-31 | over any run the object keeps its invariant: a session that shut down is in the state its loop chose with the window closed, any finish chosen is legal, every request taken up was answered once or owns the slot, the window callback alternates, and the idle timeout is wide exactly while the window is open; PC1 transfers only if it is to and its verdict then waits for that, PC2 receives only with a callback and otherwise declines each manifest it takes up |
| `SessionLoop.PeerSession.HandleEvent` | internal/peer/loop.go:55-86 | every enabled event keeps the object valid and takes its step |
| `SessionPair.PairStepKeeps` | internal/peer/loop.go:15-163 | every step of either honest side, on either link, keeps the agreement of their logs |
| `SessionPair.TestingNeedsBothReady` | internal/peer/ready.go:15-158 | in every interleaving, a side that tests does so after both ready frames were written and its peer's was handled |
| `SessionPair.StartConfirmationIsUnique` | internal/peer/ready.go:66-106 | start_confirmation is sent at most once, never by the worker, and finds the worker in ready |
| `SessionPair.ReadinessIsNeverStruck` | internal/peer/loop.go:168-183 | no ready or start_confirmation frame ever costs a strike |
| `SessionPair.CompletionAgreement` | internal/peer/exec.go:253-346 | if PC1 finishes as completed, so has PC2, each holding exactly the one verdict the other sent |
| `Registry.StepKeeps` | internal/peer/rpc.go:39-87 | register, unregister, take, send, receive and close keep the registry's invariant |
| `Registry.ChannelsAreUsedOnce` | internal/peer/exec.go:236-248 | in every interleaving a channel gets one send or one close, never both; the loop's send finds room in an open channel; a reply reaches only its own call |
| `Registry.TeardownResolvesEveryCall` | internal/peer/rpc.go:76-87 | after teardown the registry stays empty and no call is left waiting |
| `Registry.ReplyReachesItsCall` | internal/peer/exec.go:236-248 | a reply to a pending call is taken and sent to that call alone, which is then no longer pending; every other call and channel stays |
| `Registry.RegisterLaw` | internal/peer/rpc.go:39-47 | a call is pending under its ID exactly if the registry is open; every other call stays |
| `Registry.LeftCallsAreForgotten` | internal/peer/rpc.go:50-64 | in every run a call that unregistered is out of the registry and no later reply is taken for it |
| `Registry.PendingCalls.RegisterCall` | internal/peer/rpc.go:39-47 | refuses once closed; takes exactly the Register step |
| `Registry.PendingCalls.UnregisterCall` | internal/peer/rpc.go:50-54 | takes exactly the Unregister step |
| `Registry.PendingCalls.TakeCall` | internal/peer/rpc.go:58-64 | takes exactly the Take step |
| `Registry.PendingCalls.SendResult` | internal/peer/exec.go:236-248 | under the invariant the buffered send neither blocks nor panics |
| `Registry.PendingCalls.ClosePendingCalls` | internal/peer/rpc.go:76-87 | the deletion loop closes each pending channel once and nothing else |
| `MessageIds.SplitInvertsMint` | internal/protocol/envelope.go:182-192 | splitting inverts minting for exactly the non-empty roles, for every 64-bit sequence |
| `MessageIds.PaddedForm` | internal/protocol/envelope.go:130-132 | numbers are padded to eight digits and longer ones printed in full |
| `MessageIds.SequencedForm` | internal/protocol/envelope.go:182-192 | a non-empty role, a hyphen and a 64-bit decimal make a sequenced ID |
| `MessageIds.OnlySequencedForm` | internal/protocol/envelope.go:182-192 | and nothing else does |
| `MessageIds.SequencedLaw` | internal/protocol/envelope.go:161-178 | a sequenced ID is refused exactly when its number is not above every accepted one of its role |
| `MessageIds.UnsequencedLaw` | internal/protocol/envelope.go:161-178 | any other ID is refused exactly while it is among the last 128 accepted; the empty one never |
| `MessageIds.MessageIDMaker.Next` | internal/protocol/envelope.go:130-132 | the next 64-bit sequence number, in a form that splits back |
| `MessageIds.RingAndMarksDecide` | internal/protocol/envelope.go:161-178 | ring first, then the role's mark, is the law: above the high-water mark, or not among the last 128 accepted |
| `MessageIds.DuplicateDetector.Observe` | internal/protocol/envelope.go:161-178 | accepts exactly by that law and remembers exactly what it accepted |
| `MessageIds.EveryDeliveredFrameIsAccepted` | internal/peer/session.go:404-416 | with mint and write one step, in every interleaving and with any gaps, every frame read is accepted as long as fewer than 2^64 IDs were minted; without that bound exactly when the numbers read climb |
| `MessageIds.WrappedIdIsRefused` | internal/protocol/envelope.go:130-132 | the number after 2^64-1 is zero and is refused once anything of the role was accepted |
| `MessageIds.AcceptedIffInMintOrder` | internal/peer/session.go:396-403 | frames of one role are all accepted exactly when they reach the wire in mint order |
| `Framing.PrefixReadsBack` | internal/protocol/framing.go:154-158 | the big-endian prefix reads back for every 32-bit length |
| `Framing.PrefixIsBigEndian` | internal/protocol/framing.go:175-199 | the most significant byte comes first |
| `Framing.StreamsReadBack` | internal/protocol/framing.go:128-199 | reading any concatenation of in-limit frames gives those envelopes in order and uses up exactly their bytes |
| `Framing.BadLengthNeedsOnlyTheHeader` | internal/protocol/framing.go:154-158 | an out-of-range length is refused on four bytes, whatever follows |
| `Framing.GoodLengthIsRead` | internal/protocol/framing.go:142-168 | from 2 bytes to 1 MiB the body is read and decoded, and a short one uses up all that arrived |
| `Framing.PoisonIsPermanent` | internal/protocol/framing.go:128-138 | after the first failure every read fails with the original cause and consumes nothing |
| `Framing.Conn.ReadOne` | internal/protocol/framing.go:142-168 | reads and decodes exactly one frame or uses up what arrived of it |
| `Framing.Conn.ReadEnvelope` | internal/protocol/framing.go:128-138 | takes exactly the specified read, poisoning included |
| `Framing.Conn.WriteEnvelope` | internal/protocol/framing.go:175-199 | prefix and body in one buffer; an oversized envelope never touches the wire |
| `Rules.RulePHY08` | internal/evaluate/rules.go:304-341 | the worst severity among the tested pairs |
| `Rules.RuleTR06` | internal/evaluate/rules.go:515-556 | the worse direction, the sustained rate alone convicting |
| `Rules.RulePERF01` | internal/evaluate/rules.go:633-665 | the worse available direction, after the isolated-outlier cap |
| `RuleLaws.CrcLaw` | internal/evaluate/rules.go:182-221 | PHY-02 at the shipped thresholds: which CRC-class counts warn, are poor or fail |
| `RuleLaws.LinkLaw` | internal/evaluate/rules.go:169-269 | PHY-01, PHY-03, PHY-04 and PHY-05: link state, carrier transitions, renegotiations and half duplex |
| `RuleLaws.SpeedLaw` | internal/evaluate/rules.go:271-302 | PHY-06 and PHY-07: below the expected speed, at half of it, and together with CRC errors |
| `RuleLaws.CableLaw` | internal/evaluate/rules.go:304-341 | PHY-08: which pair states fail, are poor or warn |
| `RuleLaws.CounterLaw` | internal/evaluate/rules.go:343-403 | PHY-09, PHY-10 and PHY-11: frame-size errors, carrier and PHY errors, UDP loss with CRC errors |
| `RuleLaws.PingLaw` | internal/evaluate/rules.go:405-513 | TR-01 to TR-05: ping loss, full-size loss, fragmentation, duplicates, gaps and spikes |
| `RuleLaws.RetransLaw` | internal/evaluate/rules.go:515-556 | TR-06 at the shipped thresholds: over 1% sustained is poor, any trial from 0.01% warns |
| `RuleLaws.UdpLaw` | internal/evaluate/rules.go:558-631 | TR-07, TR-08 and TR-09: UDP loss at target rate on unsaturated hosts, jitter and reordering |
| `RuleLaws.BandLaw` | internal/evaluate/throughput.go:8-25 | the throughput bands of each link speed |
| `RuleLaws.CapLaw` | internal/evaluate/throughput.go:44-60 | a poor aggregate becomes a warning exactly when one of at least two trials fell short on a clean wire |
| `RuleLaws.CleanLaw` | internal/evaluate/throughput.go:63-76 | the wire is clean exactly when both sides measured reliably and no physical rule found anything |
| `RuleLaws.ThroughputLaw` | internal/evaluate/rules.go:633-665 | PERF-01 reaches a severity exactly when an available direction does |
| `RuleLaws.StabilityLaw` | internal/evaluate/rules.go:667-732 | PERF-02 and PERF-04: variation and asymmetry |
| `RuleLaws.CollapseLaw` | internal/evaluate/rules.go:697-715 | PERF-03: collapses warn and from three on are poor |
| `RuleLaws.HostLaw` | internal/evaluate/rules.go:734-758 | HOST-01 and HOST-02: CPU over 90% and a virtual interface |
| `RuleLaws.UsbLaw` | internal/evaluate/rules.go:760-771 | HOST-03: a USB adapter marks the host exactly when throughput fell short |
| `RuleLaws.RingMarkerLaw` | internal/evaluate/rules.go:773-830 | HOST-04: receive-ring drops over a hundred, or over one in a million |
| `RuleLaws.MissingEvidenceLaw` | internal/evaluate/rules.go:832-920 | LIM-01 and LIM-02: critical evidence missing, coverage reduced |
| `RuleLaws.RunLimitsLaw` | internal/evaluate/rules.go:922-959 | LIM-03, LIM-04 and LIM-05: a partial run, an assumed UDP rate, an unreachable data port |
| `RuleLaws.FamilyLaw` | internal/evaluate/rules.go:28-64 | every rule's category, and which findings a busy host can cause |
| `RuleLaws.ListLaw` | internal/evaluate/rules.go:28-64 | each of the 33 rules stands in the list once, in its documented place |
| `Classification.LimitationsOnlyDowngrade` | internal/evaluate/evaluator.go:62-99 | inserting a LIM finding anywhere in any list: LIM-01/03/05 turn EXCELLENT and GOOD into INCONCLUSIVE, LIM-02 EXCELLENT into GOOD, nothing else moves |
| `Classification.ClassIsDecided` | internal/evaluate/evaluator.go:62-99 | each of the six classes by an if-and-only-if over the list itself: which categories, severities, rules and host-sensitive findings it holds, the host-limited branch included |
| `Classification.WorstAtLeast` | internal/evaluate/evaluator.go:104-117 | the worst severity reaches a level exactly when some ladder finding of those categories does |
| `Classification.WorstFinding` | internal/evaluate/evaluator.go:104-117 | the highest ladder severity of the given categories |
| `Classification.CollectFindings` | internal/evaluate/evaluator.go:38-44 | the findings of the rules, in order |
| `Classification.ClassifyFindings` | internal/evaluate/evaluator.go:62-99 | computes the class `ClassIsDecided` characterises |
| `Score.ScoreFor` | internal/evaluate/score.go:12-109 | the decrementing computation is 100 minus the sum of the deductions, rounded and held in the class band |
| `ScoreLaws.WireDeductions` | internal/evaluate/score.go:19-34 | what the wire costs: 2 a CRC error up to 40, 15 a carrier event up to 45, 10 for a renegotiation, 25 for half duplex, 15 for reduced speed with errors |
| `ScoreLaws.DirectionDeductions` | internal/evaluate/score.go:37-61 | what ping loss, retransmissions and UDP loss of one direction cost |
| `ScoreLaws.PerformanceDeductions` | internal/evaluate/score.go:68-102 | what variation, collapses, throughput and asymmetry cost on hosts within their CPU limit |
| `ScoreLaws.SingleSymptoms` | internal/evaluate/score.go:12-109 | a run whose only flaw is half duplex has a raw score of 75, only full-size loss 80 |
| `ScoreLaws.RawAddsUp` | internal/evaluate/score.go:12-109 | raw score and deductions add up to 100, with performance excused exactly on a host limit |
| `ScoreLaws.RoundLaw` | internal/evaluate/score.go:107 | rounding is to the nearest integer, halves away from zero |
| `ScoreLaws.BandLaws` | internal/evaluate/score.go:126-135 | the band of each class in numbers |
| `Score.LowerClassScoresLower` | internal/evaluate/score.go:126-135 | with ordered bands a lower class never scores higher |
| `Score.ScoreNamesTheClass` | internal/evaluate/thresholds.go:136-140 | with ordered bands equal scores mean the same class |
| `Evidence.DefaultPolicyIsOrdered` | internal/evaluate/thresholds.go:74-142 | the shipped policy meets every order the results below ask for |
| `Evaluator.Evaluate` | internal/evaluate/evaluator.go:38-53 | findings, class and score of the facts |
| `Evaluator.PhysicalEvidenceIsNotSoftened` | internal/evaluate/evaluator.go:62-70 | records that agree on the inputs of the physical rules and differ in anything else get the same class whenever one is FAILED or physically POOR; FAILED means a physical FAILED finding and nothing else |
| `Evaluator.SameInputsSameWire` | internal/evaluate/rules.go:169-403 | those inputs, reliable error counters, link state, speeds, ping loss, UDP loss at target rate and cable pairs, are all the physical rules see |
| `Evaluator.LosingTheCap` | internal/evaluate/throughput.go:44-55 | without a clean wire a direction is assessed no better and never silenced |
| `Evaluator.MoreErrorsNeverImprove` | internal/evaluate/rules.go:169-403 | any more physical errors, on either side and of any kind, keep a ladder verdict on the ladder and no better, and never raise the score |
| `Evaluator.MoreCrcErrorsNeverImprove` | internal/evaluate/rules.go:182-221 | the same for raising one side's CRC-class delta alone, also where that takes the isolated-outlier cap away |
| `TrialAggregation.Aggregate` | internal/evaluate/facts.go:298-366 | both directions gathered and reduced in one pass over all trials, as the laws below describe |
| `TrialAggregation.AvailableIffAllTrialsAreIn` | internal/evaluate/facts.go:298-366 | a direction is available exactly when a trial of it completed, none is incomplete and no expected one is missing; its counts are those of the list, and an unavailable one carries nothing |
| `TrialAggregation.ReceiverRatesDecide` | internal/evaluate/facts.go:310-313 | the sender's rate of a trial whose receiver rate is positive changes nothing |
| `TrialAggregation.TheOtherReductions` | internal/evaluate/facts.go:298-366 | the variation is the lower median, collapses and CPU loads are maxima over the completed trials of the direction, the sender's CPU from its own host alone; each is attained |
| `TrialAggregation.RetransmissionsConvictByMajority` | internal/evaluate/facts.go:300-366 | TR-06 is POOR in an available direction exactly when a strict majority of its trials that report retransmissions exceed the boundary |
| `TrialAggregation.BurstsWarn` | internal/evaluate/rules.go:515-531 | it warns or worse exactly when some completed trial reached the warning rate |
| `TrialAggregation.ThroughputFallsByHalf` | internal/evaluate/facts.go:300-366 | the aggregate rate is below any boundary exactly when at least half of the completed trials are, each by its receiver rate where positive and else its sender rate |
| `TrialAggregation.AggregateShortfallIsHalf` | internal/evaluate/throughput.go:32-38 | the aggregate misses the pass ratio exactly when at least half of the completed trials do |
| `TrialAggregation.CapNeedsExactlyTwoTrials` | internal/evaluate/throughput.go:44-55 | the isolated-outlier cap changes a severity only with exactly two completed trials, one of them short |
| `Samples.LowerMedianBelow` | internal/evaluate/facts.go:605-611 | the lower median is below a boundary exactly when at least half the samples are |
| `Samples.LowerMedianAbove` | internal/evaluate/facts.go:605-611 | it is above one exactly when a strict majority is |
| `Samples.WorstOf` | internal/evaluate/facts.go:617-623 | at least every sample, and one of them or zero |
| `Collapse.CollapsesAreTheLowRuns` | internal/tcpmetrics/collapse.go:28-73 | events are the ordered, disjoint, maximal runs below half the median with exact minimum; lengths sum to the low intervals, at most half of all |
| `Collapse.MedianIsTheMiddle` | internal/tcpmetrics/collapse.go:45-50 | the median is halfway between the two middle values of the sorted sample, with at most half the samples on either side |
| `Collapse.LowIsBelowHalf` | internal/tcpmetrics/collapse.go:55-58 | an interval is low exactly when it carried less than half of that |
| `Collapse.SlowStartIsLeftOut` | internal/tcpmetrics/collapse.go:28-33 | with two or more intervals the first changes nothing whatever it holds; a single one never collapses |
| `Collapse.WhatIsAnalysed` | internal/tcpmetrics/collapse.go:34-53 | there is something to analyse exactly when no rate is invalid or negative and at least half of the intervals carried data |
| `Collapse.CollapseEvents` | internal/tcpmetrics/collapse.go:28-73 | the loop computes those events, none for invalid or negative rates or a zero median |
| `Collapse.CollapseIntervalCount` | internal/evaluate/facts.go:557-582 | sums positive lengths, saturating, from carried events or a fresh analysis |
| `Collapse.RecountAgrees` | internal/evaluate/facts.go:557-582 | carried and recounted evidence give the same number: the low intervals |
| `Monitor.ClosingReportsTheDifference` | internal/network/monitor.go:294-319 | closing reports, in 64 bits, how far the counter advanced since the opening poll; that is the difference of the two counters exactly when the counter did not end lower and lost a multiple of 2^64 on the way, so always when it never went backwards |
| `Monitor.HistoryIsTheRecord` | internal/network/monitor.go:257-280 | in every run the history only grows, by the polls' events, whatever the channel held or dropped |
| `Monitor.SelfInflictedMeansInside` | internal/network/monitor.go:257-319 | an event is self-inflicted exactly when its poll ran inside the window |
| `Monitor.NothingIsLost` | internal/network/monitor.go:324-330 | every event is buffered, taken or counted as dropped, and the buffer never exceeds 64 |
| `Monitor.FlapIsExactBelowTheWrap` | internal/network/monitor.go:372 | the flap test means two or more transitions except exactly where its 64-bit sum wraps |
| `Monitor.FalseFlapAtTheWrap` | internal/network/monitor.go:372-381 | at counter 2^64-2 a poll without any transition is recorded as a renegotiation |
| `Monitor.DetectedKinds` | internal/network/monitor.go:335-384 | each kind of event occurs exactly on its own change of the two snapshots, at most once, in the fixed order, carrying both snapshots and the tag |
| `Monitor.FullChannelsDropTheNewest` | internal/network/monitor.go:324-330 | events fill the channel up to 64 in order and the rest are counted as dropped |
| `Monitor.ToggleLaw` | internal/network/monitor.go:294-319 | setting the window it already has polls nothing; changing it polls once, and opening starts the count at zero |
| `Monitor.DetectEvents` | internal/network/monitor.go:335-384 | computes the events `DetectedKinds` characterises |
| `Monitor.LinkMonitor.PollLocked` | internal/network/monitor.go:257-280 | one poll detects, tags, counts and records |
| `Monitor.LinkMonitor.EmitOne` | internal/network/monitor.go:324-330 | a full channel drops and counts |
| `Monitor.LinkMonitor.Poll` | internal/network/monitor.go:244-251 | takes exactly the Poll step |
| `Monitor.LinkMonitor.SetCableTestWindow` | internal/network/monitor.go:294-319 | takes exactly the SetWindow step and returns the reported count |
| `Soak.SoakPlan.RunCycle` | internal/testsuite/soak.go:239-283 | yields a cycle exactly when every step of it succeeded, with exactly what its steps recorded |
| `Soak.SoakPlan.CommitCycle` | internal/testsuite/soak.go:286-296 | folds one whole cycle into the results: records appended, notes and skips appended, flags joined |
| `Soak.SoakPlan.RunRound` | internal/testsuite/soak.go:195-231 | one turn of the loop: go on, stop, or stop with an error, and what it committed |
| `Soak.SoakPlan.Run` | internal/testsuite/soak.go:143-233 | at every exit the results are the concatenation of the committed cycles, and incomplete exactly when an error is returned |
| `Soak.CommittedAreComplete` | internal/testsuite/soak.go:195-231 | committed cycles are the rounds in order, each complete, and the loop went on past all but the last |
| `Soak.CommittedCycleSucceeded` | internal/testsuite/soak.go:239-283 | a committed cycle had its opening counters, its ping, every TCP repeat both ways, its UDP step where enabled and its closing counters succeed, and holds what they recorded, forward trials before reverse ones |
| `Soak.CompleteLaw` | internal/testsuite/soak.go:239-283 | and a cycle of which all of these succeed is complete |
| `Soak.LastRoundDecides` | internal/testsuite/soak.go:187-231 | the first round the loop does not go on past decides whether its cycle counts and whether the plan errs |
| `Soak.EveryRoundCounts` | internal/testsuite/soak.go:187-231 | if it goes on past every round, every cycle counts and there is no error |
| `Soak.HoldingConcat` | internal/testsuite/soak.go:286-296 | cycles are folded in whole, by appending in order; a flag of any of them is kept |
| `Soak.CycleAtMost` | internal/testsuite/suite.go:503-529 | a cycle records at most its repeats in each direction |
| `Soak.CheckPassesIffNothingIsMissing` | internal/evaluate/facts.go:419-428 | the expected-trial check passes exactly when every committed cycle recorded all its trials |
| `Bitrate.ParseBitrate` | internal/model/bitrate.go:42-130 | accepts exactly the well-formed texts worth 1 to 2^64-1 and returns their worth, with no step leaving 64 bits |
| `Bitrate.ParsedValueIsExact` | internal/model/bitrate.go:42-130 | an accepted text yields exactly its decimal value times the unit |
| `Bitrate.TextReadsBack` | internal/model/bitrate.go:136-151 | parsing the printed form gives back every value from 1 to 2^64-1 |
| `Bitrate.TextUsesTheLargestUnit` | internal/model/bitrate.go:136-151 | printed in the largest unit of which the value has one and needs at most one decimal digit, with that digit exactly when the unit does not divide it |
| `Bitrate.CaseDoesNotMatter` | internal/model/bitrate.go:75-94 | after any text, upper- and lower-case suffixes parse alike, the Kelvin sign as k |
| `Bitrate.WholeTexts` | internal/model/bitrate.go:75-101 | a whole number with a suffix is accepted exactly when the suffix is a unit and the product is from 1 to 2^64-1, and is worth that product |
| `Bitrate.BareFractionsAreRefused` | internal/model/bitrate.go:77-80 | a fraction without a unit is refused |
| `Bitrate.StepsDivideUnit` | internal/model/bitrate.go:104-114 | the divisibility test is exactly "no more fraction digits than the unit has places" |

## Left out

- JSON and SHA-256: JSON is any codec that decodes what it encoded; the digest is any function, injective where faithfulness needs it.
- Timing: clocks, deadlines, heartbeats and the countdown's wall-clock anchors; a deadline is a read of which fewer bytes arrive, and a tick is a step that may come at any time. Nothing is claimed about the worker already being in testing when the first request or a complete arrives.
- In the composed transfer: ack writes and frame sends that fail (each party's own loop has them), and a report file that changes between the manifest and a retry's second reading.
- SessionLoop.PeerSession.RouteFrame: the 64-slot buffer behind the route and its drop when full are in `TransferProtocol`, not in this object.
- SessionLoop.PeerSession.TakeFrame: frames with a duplicate ID, another protocol version or a foreign test ID are dropped before it; the duplicate test is `MessageIds`.
- SessionLoop.PeerSession.TearDownNow: waiting for the running op and closing the connection are not modelled; closing the pending calls is `Registry`.
- Sockets, the handshake, stdin, process groups, sysfs reads and external tools.
- Heartbeat bookkeeping: it changes no session state modelled here.
- A write that reports failure is taken as not delivered in the session model; partial writes appear only in `Framing.Conn.WriteEnvelope`.
- Evaluator.MoreErrorsNeverImprove: counters are unbounded naturals, so it does not cover a counter sum that wraps 64 bits.
- Evaluator.MoreCrcErrorsNeverImprove: the same holds of its counters.
- Floating point: measured quantities are reals; rounding, NaN and infinities appear only as the invalid sample of `Collapse` and the truncation and rounding the program asks for. Converting a negative rate to a bit rate, which Go leaves to the platform, is taken as zero.
- Rules other than PHY-08, TR-06 and PERF-01 that loop over the two directions are written as the worse of the two, without a loop of their own.
- Evidence strings, finding texts, recommendations, rendering and the command line.
- Extracting the non-TCP facts from a report, and the carrier-event subtraction for a cable test.
- The event timeline of a soak run, and full-size ping, which soak cycles never run.
- Stale `.part` files from an earlier run: the receiving directory starts without any.
- Request step announcements, progress frames and cancelling the running op's context: they change nothing the handlers decide.
