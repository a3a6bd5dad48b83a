# KVServe: verified transfer and compression core

KVServe moves KV-cache blocks from a prefill engine to a decode engine and may
compress them on the way. This Dafny project models the parts of it that are easy
to get wrong and proves what they promise, for every input, every run and every
interleaving:

- the **compression session helper** (`Session*.dfy`, `ReceiverSlots.dfy`): an
  asyncio state machine in which every stretch between two `await`s is one action;
  it decides when producer blocks may be freed;
- the **NCCL transport** (`Payloads.dfy`, `SendQueue.dfy`, `RecvBudget.dfy`,
  `NcclSystem.dfy`, `NcclProgress.dfy`, `NcclTensors.dfy`): a rotating retry queue on
  one side, staging credits with one oversize and one priority exception on the other;
- **transfer planning** (`TransferPlan.dfy`, `BlockCopies.dfy`, `ConsumerBlocks.dfy`,
  `Batching.dfy`, `ChunkWindows.dfy`): copies between different tensor-parallel sizes,
  coalescing, what they leave on the consumer, batching, chunk windows;
- the **compression data path** (`Hadamard.dfy`, `Butterfly.dfy`,
  `Quantization.dfy`, `ChannelKernels.dfy`, `TokenKernels.dfy`, `BitPack.dfy`,
  `WireMetadata.dfy`, `Wire.dfy`, `LayerLayout.dfy`, `LayerPipeline.dfy`,
  `Codebook.dfy`). Numbers are exact integers and reals where the code uses bf16,
  f16 or f32.

`dafny verify dfyconfig.toml` checks everything. `Wrappers.dfy` and `Powers.dfy` hold
shared helpers; `Numbers.dfy` minima, maxima and tensor sizes.

Code that works by changing state is modelled twice: as a class or a method with the
program's own fields, loops and arrays, and as the function its contract ties it to;
the theorems are about that function. Handlers that wait are split at their waits and
nowhere else.

## Hypotheses

A theorem that needs a promise of peers or foreign code states it as a precondition:

- `SessionAccounting.UniqueKey`: an open brings a session key of its own. Send
  accounting needs nothing else.
- `SessionFreeing.Honest`: opens carry fresh identities, a chunk id is pulled once and
  is below the session's total, a transfer is announced at most once and never dropped
  as well, at most `need_send` opens claim it, and an open whose announcement has
  arrived runs before that announcement expires. The last promise is the helper's own
  and it does not enforce it. `SessionExpiry.SweepIsSafeExactly` shows that it is
  exactly what a sweep needs: from any state of an honest run, a sweep can be followed
  by an honest run that uses freed blocks if and only if an open polls the swept state.
- `SessionAbort.AbortQuiescence`: the key stays in `_closed` from the abort's start on.
  It does until the acknowledgement whenever the end of the drain is handled less than
  60 seconds after the drain's own timeout, so `SessionAbort.PromptAbortQuiescence`
  needs only that promptness and the key closed from the acknowledgement on.
- `RecvBudget.PoliteEvent` and `RecvBudget.OrderlyEvent`: one outstanding payload of
  positive size per transfer id, or every id sent and scheduled once. Without distinct
  ids the send queue can block: `SendQueue.RepeatedIdBlocks`.
- `ConsumerBlocks.Ready`: true block lengths, consumer blocks that share no address,
  producers that hold their heads of every block of a request's sequence, and head counts
  for which the plan as called is right.
- `LayerPipeline.Lossless` and `LayerPipeline.Sized`: the codec decodes what it encoded
  whatever layer id it is given (the code encodes with the last layer's id and decodes
  with the first's), and stages keep the size of a layer.
- `Codebook.WellPosed`: the sum of squared centers and every scale stay clear of the
  1e-20 floor.

## Where code and expectation differ

- `_build_transfer_params_sync` calls the planner without the KV-head count. For true
  block lengths a consumer is then served its own heads, once and in bounds, exactly when
  `TransferPlan.HeadCountUnneeded` holds (`TransferPlan.HeadCountDispensable`):
  - both caches sharded, or both replicated: always;
  - a replicated producer cache: exactly when the consumers are at least as many as the
    heads; `TransferPlan.ReplicatedToShardedGap` gives a concrete gap. In lengths alone,
    exactly when both block lengths are equal (`TransferPlan.FillsExactly`);
  - a sharded producer facing replicated consumers: only for the first consumer of each
    producer. The others fail the source bound assertion or get a wrong head; a case
    where both assertions hold is `TransferPlan.ShardedToReplicatedWrong`.

  `_validate_asymmetric_region_lengths` refuses exactly those sharded-to-replicated
  lengths (`TransferPlan.ValidationSeparates`), but only the raw request path at
  mooncake_connector.py:2430 calls it; the open job of the helper (2982-3001) and the
  in-process open (2048-2070) do not. With the head count the plan is an exact cover in
  all cases (`TransferPlan.ExactCover`).
- A list in the quantization parameters that looks like a tensor placeholder does not
  survive the wire: `Wire.WireRoundTrip` is an equivalence, `Wire.ImpostorIsLost` an
  input that is built and cannot be restored.

## Model

| member | source | states |
|---|---|---|
| `SessionFreeing.FreeingIsSafe` | kvsfuse-vllm0.30.0/mooncake/session_process.py:445-658 | in every honest run a transfer gets at most one completion event; from then on no session of it is live and no open or encode job on its blocks is outstanding; a transfer whose needed sends all finished has its event |
| `SessionEvents.EventOrigin` | kvsfuse-vllm0.30.0/mooncake/session_process.py:641-648 | in every run each event was appended by one action for a transfer announced before, names the request of that announcement, is "sending_expired" exactly when a sweep sent it, more than 480 seconds after the announcement, and otherwise "sending" for a send state whose last needed send just finished |
| `SessionEvents.EventKindFits` | kvsfuse-vllm0.30.0/mooncake/session_process.py:641-658 | in every state of every honest run an event says "sending" exactly when the sends its transfer needs have all finished |
| `SessionEvents.FreedCounters` | kvsfuse-vllm0.30.0/mooncake/session_process.py:465-470 | once freed, a transfer is never claimed or sent again |
| `SessionClaims.ClaimsConserved` | kvsfuse-vllm0.30.0/mooncake/session_process.py:465-516 | in every run the claims ever made on a send state are those still held plus the sends finished, and `need_send` is what the first claim said |
| `SessionAccounting.SendAccounting` | kvsfuse-vllm0.30.0/mooncake/session_process.py:465-516 | in every run with unique session keys, whatever is pulled twice or late, opened beyond need, announced again, dropped or swept, `sending` equals claimed-but-unregistered opens plus live sessions, and every registered session is finished exactly once whichever way it ends |
| `SessionAccounting.RetiredAccounts` | kvsfuse-vllm0.30.0/mooncake/session_process.py:629-658 | finishing a live session once keeps every count |
| `SessionAccounting.ForgetDead` | kvsfuse-vllm0.30.0/mooncake/session_process.py:650-658 | the key of a session that is no longer registered indexes nothing, so late discards and completions change nothing |
| `SessionFreeing.ClaimsWithinNeed` | kvsfuse-vllm0.30.0/mooncake/session_process.py:465-470 | in honest runs claims never exceed `need_send`, and a session leaves the index with its last chunk or last handler |
| `SessionFreeing.FreedIsQuiet` | kvsfuse-vllm0.30.0/mooncake/session_process.py:641-658 | the invariant alone implies that a freed transfer has no live session and no job |
| `SessionFreeing.EventFinal` | kvsfuse-vllm0.30.0/mooncake/session_process.py:720-738 | one more completion event for an unfreed transfer without claims keeps all events final |
| `SessionFreeing.FreedStays` | kvsfuse-vllm0.30.0/mooncake/session_process.py:641-658 | completion events are never withdrawn along a run |
| `SessionExpiry.SweepIsSafeExactly` | kvsfuse-vllm0.30.0/mooncake/session_process.py:720-738 | from a good state a sweep can be followed by an honest run with freed blocks in use exactly when an open polls the state it frees |
| `SessionExpiry.SweepKeepsGood` | kvsfuse-vllm0.30.0/mooncake/session_process.py:720-738 | a sweep keeps the freeing invariant exactly when no open polls the state it frees |
| `SessionExpiry.SweepOvertakesOpen` | kvsfuse-vllm0.30.0/mooncake/session_process.py:432-470 | any open polling the swept state whose key is not closed can wake up next, keeping every promise, and puts a job on freed blocks |
| `SessionRuns.SweepCanOvertakeOpen` | kvsfuse-vllm0.30.0/mooncake/session_process.py:432-443 | a concrete run in which only the wake-up is late and a job runs on freed blocks |
| `SessionRuns.HonestRunFrees` | kvsfuse-vllm0.30.0/mooncake/session_process.py:445-516 | a concrete run with one slot and one chunk that keeps every promise, opens, pulls, encodes and frees its transfer, so the theorems above are not empty |
| `SessionAbort.AbortQuiescence` | kvsfuse-vllm0.30.0/mooncake/session_process.py:660-718 | after an error-free acknowledgement no open or encode job of the key exists, nor is one submitted, as long as the key has stayed in `_closed` since the abort began, whatever else is dispatched and however long it takes |
| `SessionAbort.PromptAbortQuiescence` | kvsfuse-vllm0.30.0/mooncake/session_process.py:660-718 | the same for an abort whose drain end is handled within 60 seconds of its timeout, with nothing assumed about the key before the acknowledgement |
| `SessionAbort.PromptDrainClosedThroughout` | kvsfuse-vllm0.30.0/mooncake/session_process.py:660-701 | such an abort has its key in `_closed` in every state from its start to its acknowledgement |
| `SessionAbort.CleanAckIsQuiet` | kvsfuse-vllm0.30.0/mooncake/session_process.py:689-712 | a drained abort whose key is closed leaves no job of the key |
| `SessionAbort.StaysWatched` | kvsfuse-vllm0.30.0/mooncake/session_process.py:685-701 | while the key is closed, every job of it is one the draining abort waits for |
| `SessionAbort.PromptDrainStaysClosed` | kvsfuse-vllm0.30.0/mooncake/session_process.py:660-701 | until 60 seconds after the drain would time out, the key of a draining abort is closed |
| `SessionAbort.ClosedSubmitsNothing` | kvsfuse-vllm0.30.0/mooncake/session_process.py:432-533 | no step of any handler submits a job for a closed key |
| `SessionAbort.SlotConservation` | kvsfuse-vllm0.30.0/mooncake/session_process.py:548-627 | free sender slots and slots held by chunk handlers are exactly the initial slots without duplicates in every reachable state |
| `SessionTimes.ClosedExactly` | kvsfuse-vllm0.30.0/mooncake/session_process.py:384-416 | in every run, when a request is dispatched the keys left in `_closed` are exactly those of which an abort started or a session completed less than 540 seconds ago |
| `SessionTimes.ClosedFor` | kvsfuse-vllm0.30.0/mooncake/session_process.py:629-664 | from a completion or an abort on, the key is closed for 540 seconds, whatever is dispatched |
| `SessionTimes.OpenWaits` | kvsfuse-vllm0.30.0/mooncake/session_process.py:432-470 | a waiting open submits its job exactly when the transfer is announced and the key not closed, and waits on exactly while neither holds and 480 seconds have not passed since it started |
| `SessionTimes.SweepExactly` | kvsfuse-vllm0.30.0/mooncake/session_process.py:720-738 | a transfer can be swept exactly when the announcement that readied it is more than 480 seconds old and nobody holds a claim |
| `SessionTimes.StaysForgotten` | kvsfuse-vllm0.30.0/mooncake/session_process.py:316-317 | a dropped or swept transfer stays out of the index until it is announced, published or opened again |
| `SessionOutcomes.PullOutcome` | kvsfuse-vllm0.30.0/mooncake/session_process.py:535-556 | a pull is counted exactly on a registered active session; any other registered session fails and leaves the index when nothing of it is in flight |
| `SessionOutcomes.SlotOutcome` | kvsfuse-vllm0.30.0/mooncake/session_process.py:557-564 | with a slot in hand a pull encodes exactly when its session is still active and its key open; otherwise the session fails and the slot is drained |
| `SessionOutcomes.EncodeOutcome` | kvsfuse-vllm0.30.0/mooncake/session_process.py:580-627 | an encoded chunk is counted and its slot returned; the session is complete and unregistered exactly when it was active and registered and this was its last chunk |
| `SessionOutcomes.EncodeFailed` | kvsfuse-vllm0.30.0/mooncake/session_process.py:597-620 | a failed encode job fails its session and has its slot drained |
| `SessionOutcomes.AbortEndsAll` | kvsfuse-vllm0.30.0/mooncake/session_process.py:703-712 | when an abort is answered every session of its key is cancelled or failed, and registered only while chunks of it are in flight |
| `SessionOutcomes.AbortCancelsTarget` | kvsfuse-vllm0.30.0/mooncake/session_process.py:677-684 | an abort's target with the same nonce is cancelled at once |
| `SessionOutcomes.AbandonExactly` | kvsfuse-vllm0.30.0/mooncake/session_process.py:517-524 | an open that gives up takes its transfer out of the index exactly when it put it there, nobody has announced or named it since, and no claim is held |
| `SessionOutcomes.DiscardExactly` | kvsfuse-vllm0.30.0/mooncake/session_process.py:650-658 | a session not registered under its key changes no count, a cancelled or failed one is a finished send, any other gives its claim back unsent |
| `SessionAbort.RunExtends` | kvsfuse-vllm0.30.0/mooncake/session_process.py:384-416 | references stay well formed, so any enabled action extends any run |
| `SessionService.Service.FinishSendMeta` | kvsfuse-vllm0.30.0/mooncake/session_process.py:641-648 | the counters, the index and the event after `_finish_send_meta` |
| `SessionService.Service.DiscardProducerSession` | kvsfuse-vllm0.30.0/mooncake/session_process.py:650-658 | the whole new book after a discard, also for a stale session |
| `SessionService.Service.CompleteProducerSession` | kvsfuse-vllm0.30.0/mooncake/session_process.py:629-639 | the whole new book and closed keys after a completion |
| `SessionService.Service.ApplyAnnouncement` | kvsfuse-vllm0.30.0/mooncake/session_process.py:296-307 | an announcement readies the state an early open created, or a new one |
| `SessionService.Service.ApplyPublication` | kvsfuse-vllm0.30.0/mooncake/session_process.py:308-315 | a publication names a state only when it has no request yet |
| `SessionService.Service.DispatchProducer` | kvsfuse-vllm0.30.0/mooncake/session_process.py:384-416 | expired keys are purged and the handler is indexed unless it is an abort |
| `SessionService.Service.PollReady` | kvsfuse-vllm0.30.0/mooncake/session_process.py:432-470 | an open claims, is refused by a closed key, abandons or keeps polling |
| `SessionService.Service.OpenAnswered` | kvsfuse-vllm0.30.0/mooncake/session_process.py:491-533 | registration, failure and the empty session after the open job |
| `SessionService.Service.ServeProducerChunk` | kvsfuse-vllm0.30.0/mooncake/session_process.py:535-556 | a pull is counted on an active session and fails any other |
| `SessionService.Service.TakeSlot` | kvsfuse-vllm0.30.0/mooncake/session_process.py:557-564 | a slot is taken and the session and key are checked again |
| `SessionService.Service.EncodeAnswered` | kvsfuse-vllm0.30.0/mooncake/session_process.py:580-627 | counting, completion and slot return after the encode job |
| `SessionService.Service.AbortProducer` | kvsfuse-vllm0.30.0/mooncake/session_process.py:660-685 | the target is the session under the key or else any with the same transfer, request and nonce; the key is closed, the target cancelled, and the handlers to drain are fixed |
| `SessionService.Service.FindTarget` | kvsfuse-vllm0.30.0/mooncake/session_process.py:665-676 | the search finds a session under the key, or one with the same transfer, request and nonce if there is any |
| `SessionService.Service.SessionsOf` | kvsfuse-vllm0.30.0/mooncake/session_process.py:704-709 | the snapshot lists exactly the registered sessions of the key, once each |
| `SessionService.Service.AbortDrained` | kvsfuse-vllm0.30.0/mooncake/session_process.py:701-718 | the closing loop cancels every session still registered under the key |
| `SessionService.Service.SweepSends` | kvsfuse-vllm0.30.0/mooncake/session_process.py:720-738 | exactly the expired, named, unclaimed transfers leave the index, one event each |
| `SessionService.SweepAllExact` | kvsfuse-vllm0.30.0/mooncake/session_process.py:720-738 | sweeping distinct transfers one action at a time comes to the same |
| `SessionService.ExpiredIsEnabled` | kvsfuse-vllm0.30.0/mooncake/session_process.py:720-738 | the test of the loop is the guard of the sweep action |
| `ReceiverSlots.ReceiverSlotConservation` | kvsfuse-vllm0.30.0/mooncake/session_process.py:1002-1037 | free receiver slots and those owned by consumer sessions are exactly the initial slots without duplicates in every interleaving, also while a failed session still issues pulls |
| `ReceiverSlots.NoSharedSlot` | kvsfuse-vllm0.30.0/mooncake/session_process.py:907-923 | two chunks, of one or of two sessions, never use one slot at a time |
| `ReceiverSlots.FinishMeansAll` | kvsfuse-vllm0.30.0/mooncake/session_process.py:904-975 | chunks are pulled in order, each once, and a session finishes only when all of them were pulled and answered and no decode is left |
| `ReceiverSlots.SlotsInUse` | kvsfuse-vllm0.30.0/mooncake/session_process.py:1029-1037 | as long as no decode of a session failed it owns exactly the slots of chunks in flight or being decoded: a decoded chunk's slot is free again at once |
| `ReceiverSlots.ReceiverQueue.IssueNext` | kvsfuse-vllm0.30.0/mooncake/session_process.py:907-923 | the first free slot becomes owned and in flight for the next chunk |
| `ReceiverSlots.ReceiverQueue.DecodeAndRelease` | kvsfuse-vllm0.30.0/mooncake/session_process.py:1029-1037 | a good decode returns the slot, a failed one keeps it owned |
| `ReceiverSlots.ReceiverQueue.ReturnOwned` | kvsfuse-vllm0.30.0/mooncake/session_process.py:1017-1026 | a closing session returns each owned slot once |
| `SendQueue.SenderInvariant` | kvserve_v1/transport/nccl_transport.py:246-288 | `_send_pending_bytes` is the bytes queued plus in flight, and per transfer id answered, held and queued items are the sends in enqueue order, in every state of every run |
| `SendQueue.ReinsertKeepsOrder` | kvserve_v1/transport/nccl_transport.py:262-270 | a refused item returns ahead of its own id's items and disturbs no other id |
| `SendQueue.RotationIsFair` | kvserve_v1/transport/nccl_transport.py:246-270 | with distinct ids the item at position k is the (k + 1)-st popped, whatever is refused or appended |
| `SendQueue.RefusalAdvances` | kvserve_v1/transport/nccl_transport.py:262-270 | exactly when an item behind a refused head gets closer |
| `SendQueue.RepeatedIdBlocks` | kvserve_v1/transport/nccl_transport.py:262-270 | two adjacent sends of one id put a refused head back in front |
| `SendQueue.WaitForSentDrains` | kvserve_v1/transport/nccl_transport.py:225-230 | when `wait_for_sent` returns, every send was answered and no byte is pending |
| `SendQueue.NcclSender.RotateRefused` | kvserve_v1/transport/nccl_transport.py:262-270 | the linear search reinserts at the specified place |
| `SendQueue.NcclSender.Answered` | kvserve_v1/transport/nccl_transport.py:253-277 | what each control response does to queue, counters and completions |
| `RecvBudget.CreditAccounting` | kvserve_v1/transport/nccl_transport.py:485-546 | `_recv_reserved_bytes` is always the bytes admitted and not released |
| `RecvBudget.ClampNeverBites` | kvserve_v1/transport/nccl_transport.py:485-497 | every release subtracts its payload's bytes exactly, and returns the priority exactly when the payload had a size and its request held it |
| `RecvBudget.ExpectedExactly` | kvserve_v1/transport/nccl_transport.py:508-517 | the requests that may have the priority are those of the last step begun, until it ends or times out; a crash of the load loop leaves them |
| `RecvBudget.AdmissionExactly` | kvserve_v1/transport/nccl_transport.py:519-546 | in every run an offer is refused exactly when bytes are staged, it does not fit beside them, and it is not an expected request finding the priority free; whatever fits is admitted and leaves the priority alone |
| `RecvBudget.StagingIsBounded` | kvserve_v1/transport/nccl_transport.py:519-546 | with one outstanding positive payload per id, reserved is at most max(capacity, largest) plus the one held payload of the priority request |
| `RecvBudget.StepIsNotStarved` | kvserve_v1/transport/nccl_transport.py:508-543 | the priority is free or with an admitted, unfinished request of the step; when no waiting request is admitted, any offer for one is |
| `RecvBudget.HeldCanAdvance` | kvserve_v1/connector/compressed_kv_connector.py:261-295 | an admitted payload of a waiting request can complete or be taken |
| `RecvBudget.FirstReady` | kvserve_v1/connector/compressed_kv_connector.py:271-272 | the first pending request with a buffered payload, and none before it |
| `RecvBudget.NcclReceiver.ReserveReceived` | kvserve_v1/transport/nccl_transport.py:519-546 | on the fields: admitted unless bytes are reserved, the sum exceeds the capacity and the priority cannot be had; the priority is taken only when the sum exceeds the capacity |
| `RecvBudget.NcclReceiver.ReleaseReceived` | kvserve_v1/transport/nccl_transport.py:485-497 | credit and priority after a release, nothing for an empty payload |
| `RecvBudget.NcclReceiver.Put` | kvserve_v1/transport/nccl_transport.py:614-672 | the reply and the new state for a PUT or PUT_BUNDLE: retry exactly when nothing can be reserved, out-of-memory returns the credit |
| `RecvBudget.NcclReceiver.CompleteNext` | kvserve_v1/transport/nccl_transport.py:570-591 | a completed receive is published, a failed one releases its credit |
| `RecvBudget.NcclReceiver.TakeReady` | kvserve_v1/connector/compressed_kv_connector.py:266-295 | one turn of the load loop drains and takes the first ready request |
| `NcclSystem.EndToEndOrder` | kvserve_v1/transport/nccl_transport.py:570-585 | published payloads are the successful ones of a prefix of the admitted, admitted are the OK-answered, per id answered ones are a prefix of the sends and loaded ones of the published, in every run |
| `NcclSystem.PublishedInSendOrder` | kvserve_v1/transport/nccl_transport.py:246-282 | without failures an id's payloads are published and loaded in send order, none skipped or repeated |
| `NcclSystem.StepAdvances` | kvserve_v1/connector/compressed_kv_connector.py:261-295 | the item at queue position k is the (k + 1)-st offered, and then admitted if it belongs to a waiting request of a step none of whose requests is admitted |
| `NcclSystem.WaitingIsOnItsWay` | kvserve_v1/transport/nccl_transport.py:246-270 | in every orderly run the payload of each waiting request, once sent, is held by the receiver, offered or queued |
| `NcclSystem.StepNeverStuck` | kvserve_v1/connector/compressed_kv_connector.py:261-295 | in every orderly run, while a waiting payload has been sent, some thread can move |
| `NcclProgress.StepCanFinish` | kvserve_v1/connector/compressed_kv_connector.py:261-295 | from every state of an orderly run in a step whose waiting payloads were sent, the run continues, without another send, to the step's end with every request of it loaded |
| `NcclProgress.Admit` | kvserve_v1/transport/nccl_transport.py:246-270 | from any queue position a waiting payload can be brought to the listener, and it or another of its step is then held |
| `NcclProgress.LoadHeld` | kvserve_v1/connector/compressed_kv_connector.py:266-295 | a held payload can complete, be drained and be taken, and the step waits for one request less |
| `NcclSystem.NotAdmittedBefore` | kvserve_v1/transport/nccl_transport.py:508-543 | with distinct sends an offered id has not been admitted before |
| `NcclTensors.PayloadDelivered` | kvserve_v1/transport/nccl_transport.py:403-445 | the non-empty tensors submitted match the buffers posted one for one in size and dtype, and the buffers then hold the payload |
| `NcclTensors.StreamDelivered` | kvserve_v1/transport/nccl_transport.py:643-749 | over one stream every accepted payload arrives whole and in order |
| `NcclTensors.CreditsAgree` | kvserve_v1/transport/nccl_transport.py:63-79 | the bytes enqueued, reserved and released for a payload are one number |
| `NcclTensors.CreditsAreBytesMoved` | kvserve_v1/transport/nccl_transport.py:63-79 | that number is the bytes NCCL moves for the payload |
| `NcclTensors.SubmitBundle` | kvserve_v1/transport/nccl_transport.py:403-408 | the loop submits the non-empty tensors in order |
| `NcclTensors.PostBundle` | kvserve_v1/transport/nccl_transport.py:710-725 | the loop posts the non-empty buffers in order |
| `TransferPlan.PairingSymmetric` | kvsfuse-vllm0.30.0/mooncake/session_ipc.py:34-41 | c is a target of p exactly when p is one of c, and targets are ranks |
| `TransferPlan.ExactCover` | kvsfuse-vllm0.30.0/mooncake/mooncake_connector.py:321-373 | for every nesting of sizes and head count exactly one paired producer writes each byte of a consumer block, every copy names the same global head and byte on both sides and stays inside both blocks |
| `TransferPlan.ReplicatedToSharded` | kvsfuse-vllm0.30.0/mooncake/mooncake_connector.py:337-353 | the head plan from replicated producers to sharded consumers |
| `TransferPlan.ShardedToReplicated` | kvsfuse-vllm0.30.0/mooncake/mooncake_connector.py:337-353 | the head plan from sharded producers to replicated consumers |
| `TransferPlan.ReplicatedLarger` | kvsfuse-vllm0.30.0/mooncake/mooncake_connector.py:354-356 | both replicated, more producers: one sender per consumer, of the consumer's head |
| `TransferPlan.ReplicatedSmaller` | kvsfuse-vllm0.30.0/mooncake/mooncake_connector.py:364-365 | both replicated, more consumers: the one producer holds the consumer's head |
| `TransferPlan.ShardedLarger` | kvsfuse-vllm0.30.0/mooncake/mooncake_connector.py:354-362 | both sharded, more producers: slices tile the consumer's block |
| `TransferPlan.ShardedSmaller` | kvsfuse-vllm0.30.0/mooncake/mooncake_connector.py:367-373 | both sharded, more consumers: each takes its slice of the producer's block |
| `TransferPlan.ValidatedCover` | kvsfuse-vllm0.30.0/mooncake/mooncake_connector.py:2743-2768 | for sharded caches accepted lengths imply both bound assertions and an exact cover |
| `TransferPlan.ReplicatedWithoutHeads` | kvsfuse-vllm0.30.0/mooncake/mooncake_connector.py:2743-2762 | without a head count exactly one paired replicated producer writes, and exactly the first local-length bytes |
| `TransferPlan.HeadCountDispensable` | kvsfuse-vllm0.30.0/mooncake/mooncake_connector.py:2743-2768 | for any nesting of sizes and head count and true block lengths, the plan as called, without a head count, names the right heads, stays in bounds and covers every byte once exactly when: replicated producers face at least as many consumers as heads, or sharded producers face sharded consumers or the first consumer of each producer |
| `TransferPlan.HeadCountDispensableReplicated` | kvsfuse-vllm0.30.0/mooncake/mooncake_connector.py:2743-2768 | the half about replicated producer caches |
| `TransferPlan.HeadCountDispensableSharded` | kvsfuse-vllm0.30.0/mooncake/mooncake_connector.py:2743-2768 | the half about sharded producer caches |
| `TransferPlan.BareToReplicated` | kvsfuse-vllm0.30.0/mooncake/mooncake_connector.py:366-373 | a sharded producer's slice is the replicated consumer's own head exactly for the first consumer of that producer |
| `TransferPlan.ValidationSeparates` | kvsfuse-vllm0.30.0/mooncake/mooncake_connector.py:392-448 | for true lengths of a sharded producer cache validation accepts exactly the sharded consumer caches |
| `TransferPlan.ValidationExactly` | kvsfuse-vllm0.30.0/mooncake/mooncake_connector.py:392-448 | unless the cache is taken as replicated, lengths are accepted exactly when the counts agree and every region has the same bytes over all ranks with different heads, and the assertion fails exactly when the sizes do not divide |
| `TransferPlan.ShardedToReplicatedWrong` | kvsfuse-vllm0.30.0/mooncake/mooncake_connector.py:2982-3001 | a concrete consumer that is sent another head in bounds, with lengths that only validation would refuse |
| `TransferPlan.FillsExactly` | kvsfuse-vllm0.30.0/mooncake/mooncake_connector.py:2743-2768 | both bound assertions hold and the block is filled exactly when the block lengths are equal |
| `TransferPlan.ReplicatedToShardedGap` | kvsfuse-vllm0.30.0/mooncake/mooncake_connector.py:2743-2762 | a concrete byte nobody writes, which the head plan would write |
| `TransferPlan.ValidateRegions` | kvsfuse-vllm0.30.0/mooncake/mooncake_connector.py:392-448 | accepted exactly when counts agree and every region's lengths fit the ratio, or the cache is replicated and no head count is given |
| `BlockCopies.TransferRefines` | kvsfuse-vllm0.30.0/mooncake/mooncake_connector.py:2706-2808 | all emitted descriptors of a transfer leave the destination bytes the block-by-block copies leave |
| `BlockCopies.EmittedRefines` | kvsfuse-vllm0.30.0/mooncake/mooncake_connector.py:2720-2808 | the same for one region and any aligned block lists |
| `BlockCopies.RunCopy` | kvsfuse-vllm0.30.0/mooncake/mooncake_connector.py:2769-2792 | a contiguous run copied block by block is one copy of the run |
| `BlockCopies.RunIsMaximal` | kvsfuse-vllm0.30.0/mooncake/mooncake_connector.py:2720-2735 | groups end exactly at the breaks |
| `BlockCopies.ResolvePairs` | kvsfuse-vllm0.30.0/mooncake/mooncake_connector.py:2671-2704 | matched block lists have equal lengths in every group |
| `BlockCopies.ResolvedContents` | kvsfuse-vllm0.30.0/mooncake/mooncake_connector.py:2650-2704 | in the request's own ids: part f of the consumer's k-th block from the end of a group is paired with part f of the producer's k-th from the end; null blocks of Mamba groups are left out and Mamba blocks are not split |
| `BlockCopies.NonNullParts` | kvsfuse-vllm0.30.0/mooncake/mooncake_connector.py:2659-2672 | dropping null blocks works block by block, so the others keep their order |
| `BlockCopies.ResolvesExactly` | kvsfuse-vllm0.30.0/mooncake/mooncake_connector.py:2627-2699 | a request is refused exactly when it names blocks and group counts differ or a group has too few producer blocks, and copied exactly when beyond that a block is left |
| `BlockCopies.DescriptorCount` | kvsfuse-vllm0.30.0/mooncake/mooncake_connector.py:2720-2808 | one descriptor per contiguous run when whole blocks are copied, one per block otherwise |
| `BlockCopies.ResolvedEnough` | kvsfuse-vllm0.30.0/mooncake/mooncake_connector.py:2671-2694 | a request that is not refused has at least the consumer's blocks in every group |
| `BlockCopies.BuildTransferParams` | kvsfuse-vllm0.30.0/mooncake/mooncake_connector.py:2609-2817 | fails exactly when an assertion does (a missing group, sizes that do not divide, a plan outside a block) on a tensor with blocks to copy; otherwise the loops emit the specified descriptors with the plan of each tensor and report exactly the mismatched requests |
| `BlockCopies.EmitRegion` | kvsfuse-vllm0.30.0/mooncake/mooncake_connector.py:2779-2808 | one region's groups in order |
| `ConsumerBlocks.ConsumerHoldsItsHeads` | kvsfuse-vllm0.30.0/mooncake/mooncake_connector.py:2624-2808 | end to end from block ids to bytes: once the coalesced descriptors of all paired producers have arrived, in any order and interleaving, every byte of every block of a request whose sequence is long enough is that byte of the consumer's own heads in the sequence's block as far from the end |
| `ConsumerBlocks.NothingElseWritten` | kvsfuse-vllm0.30.0/mooncake/mooncake_connector.py:2706-2808 | addresses outside the blocks of requests that can be served keep their bytes |
| `ConsumerBlocks.NoAssertionFails` | kvsfuse-vllm0.30.0/mooncake/mooncake_connector.py:2708-2768 | under the same hypotheses none of the connector's assertions fails |
| `ConsumerBlocks.TransferMoves` | kvsfuse-vllm0.30.0/mooncake/mooncake_connector.py:2769-2808 | byte by byte, the emitted descriptors move a byte from an address to another exactly when a block copy does |
| `ConsumerBlocks.ReadyInstance` | kvsfuse-vllm0.30.0/mooncake/mooncake_connector.py:2743-2762 | the hypotheses are met by two producers that each fill half of a block, for a consumer that has a prefix already |
| `Batching.SendBlocks` | kvsfuse-vllm0.30.0/mooncake/mooncake_connector.py:2819-2867 | batches concatenate to a prefix of the descriptors, to all of them on success; each holds at most 1024, over 64 MiB only alone, and could not have been longer; the first failing batch is the last |
| `Batching.NextBatch` | kvsfuse-vllm0.30.0/mooncake/mooncake_connector.py:2839-2857 | the inner loop finds a fitting, maximal batch or a negative length |
| `Batching.TransferLeavesBlockCopies` | kvsfuse-vllm0.30.0/mooncake/mooncake_connector.py:2706-2867 | coalesced and batched copies together leave what block-by-block copies leave |
| `ChunkWindows.WindowsTile` | kvsfuse-vllm0.30.0/mooncake/mooncake_connector.py:120-136 | every K/V part of every logical block lies in exactly one window |
| `ChunkWindows.WindowNonEmpty` | kvsfuse-vllm0.30.0/mooncake/mooncake_connector.py:120-136 | every window is non-empty and inside the blocks |
| `ChunkWindows.WindowsPair` | kvsfuse-vllm0.30.0/mooncake/mooncake_connector.py:3034-3044 | position k of the encode and of the decode window of one chunk id name corresponding blocks |
| `ChunkWindows.SessionWindowsPair` | kvsfuse-vllm0.30.0/mooncake/mooncake_connector.py:2989-3044 | whenever the open job does not refuse the block lists, every window of every group of the matched lists pairs position by position |
| `ChunkWindows.WindowsPairExactly` | kvsfuse-vllm0.30.0/mooncake/mooncake_connector.py:1921-1946 | suffix matching alone pairs all windows exactly when the producer list is long enough |
| `ChunkWindows.WindowsReassemble` | kvsfuse-vllm0.30.0/mooncake/mooncake_connector.py:3080-3103 | the windows of a part, in chunk order, spell out the block list |
| `ChunkWindows.MatchCompressionBlocks` | kvsfuse-vllm0.30.0/mooncake/mooncake_connector.py:1921-1946 | the suffix of every group, null blocks of Mamba groups left out |
| `Hadamard.TransformIsHadamard` | kvserve_v1/tilelang_ops/kv_hadamard_quant.py:565-576 | y_i is the sum over j of (-1)^popcount(i & j) x_j |
| `Hadamard.ForwardAt` | kvserve_v1/tilelang_ops/kv_hadamard_quant.py:557-580 | coefficient i of the forward kernels is scale times the sum over j of (-1)^popcount(i & j) sign_j x_j |
| `Hadamard.BackwardAt` | kvserve_v1/tilelang_ops/kv_hadamard_quant.py:697-715 | entry i of the inverse kernels is scale times row i of the matrix times the coefficients, times sign_i |
| `Hadamard.TransformTwice` | kvserve_v1/tilelang_ops/kv_hadamard_quant.py:697-707 | twice the transform is n times the vector |
| `Hadamard.TransformNorm` | kvserve_v1/tilelang_ops/kv_hadamard_quant.py:565-576 | the transform multiplies the squared norm by n |
| `Hadamard.BackwardForward` | kvserve_v1/tilelang_ops/kv_hadamard_quant.py:557-580 | sign, transform, scale followed by transform, scale, sign is the identity |
| `Hadamard.ErrorIsPreserved` | kvserve_v1/tilelang_ops/kv_hadamard_quant.py:709-715 | the restored vector's squared error is that of the coefficients |
| `Butterfly.PairsCoverOnce` | kvserve_v1/tilelang_ops/kv_hadamard_quant.py:566-571 | a level's index pairs are a disjoint cover of the indices |
| `Butterfly.LevelsTransform` | kvserve_v1/tilelang_ops/kv_hadamard_quant.py:565-576 | the levels in order compute the transform |
| `Butterfly.ButterflyLevel` | kvserve_v1/tilelang_ops/kv_hadamard_quant.py:566-576 | one level in place is the level function on every row, whatever the order of the threads |
| `Butterfly.Fwht` | kvserve_v1/tilelang_ops/kv_hadamard_quant.py:565-576 | the in-place loop leaves the transform of every row |
| `Quantization.ForwardTile` | kvserve_v1/tilelang_ops/kv_hadamard_quant.py:548-594 | a thread block writes the Hadamard rows and their channel extremes, padding rows left out |
| `Quantization.ChannelReduce` | kvserve_v1/tilelang_ops/kv_hadamard_quant.py:1301-1305 | tile-then-global reduction folds every row from the sentinels |
| `Quantization.ChannelExtremes` | kvserve_v1/tilelang_ops/kv_hadamard_quant.py:578-594 | that fold is the true minimum or maximum exactly when some value lies within the sentinel |
| `Quantization.HalfStep` | kvserve_v1/tilelang_ops/kv_hadamard_quant.py:896-919 | the symbol is the nearest of `levels` levels that divide max(max - min, 1e-5) evenly, and dequantizes to within max(max - min, 1e-5) / (2 (levels - 1)) |
| `Quantization.StepSpansRange` | kvserve_v1/tilelang_ops/kv_hadamard_quant.py:900-905 | the emitted step times levels - 1 is max(max - min, 1e-5) |
| `Quantization.EndLevels` | kvserve_v1/tilelang_ops/kv_hadamard_quant.py:916-919 | the minimum gets symbol 0 and the maximum levels - 1 |
| `Quantization.Clamped` | kvserve_v1/tilelang_ops/kv_hadamard_quant.py:916-919 | values outside the range get an end of 0 .. levels |
| `Quantization.RowErrorBound` | kvserve_v1/tilelang_ops/kv_hadamard_quant.py:686-715 | the squared error of a restored row is at most the sum over its entries of (max(max - min, 1e-5) / (2 (levels - 1)))^2 |
| `ChannelKernels.CompressChannel` | kvserve_v1/tilelang_ops/kv_hadamard_quant.py:1301-1317 | symbols, minima and steps of every row and channel |
| `ChannelKernels.RestoreChannel` | kvserve_v1/tilelang_ops/kv_hadamard_quant.py:684-715 | dequantization and the inverse transform of every row |
| `ChannelKernels.ChannelErrorBound` | kvserve_v1/tilelang_ops/kv_hadamard_quant.py:1301-1317 | the channel round trip: emitted minima and the maxima behind the emitted steps are the channels' true extremes within 1e10, steps times levels - 1 are the ranges, symbols are nearest levels, and each row's squared error is bounded by the ranges divided by 2 (levels - 1) |
| `TokenKernels.RowReduce` | kvserve_v1/tilelang_ops/kv_hadamard_quant.py:648-655 | the true extremes of a row |
| `TokenKernels.GroupReduce` | kvserve_v1/tilelang_ops/kv_hadamard_quant.py:1139-1151 | the fold over all coefficients of the heads of a group |
| `TokenKernels.GroupExtremes` | kvserve_v1/tilelang_ops/kv_hadamard_quant.py:1139-1151 | that fold is the group's true minimum or maximum exactly when some coefficient lies within the sentinel |
| `TokenKernels.FoldsAreRange` | kvserve_v1/tilelang_ops/kv_hadamard_quant.py:1139-1151 | the group fold is the range over exactly the heads with the same group number |
| `TokenKernels.CompressToken` | kvserve_v1/tilelang_ops/kv_hadamard_quant.py:1139-1175 | symbols, minimum and step of every head of a token |
| `TokenKernels.TokenErrorBound` | kvserve_v1/tilelang_ops/kv_hadamard_quant.py:743-769 | the token round trip: the extremes are those of exactly the heads of the group within 1e10, the step times levels - 1 is the range, symbols are nearest levels, and each head vector's squared error is bounded by the range divided by 2 (levels - 1) |
| `BitPack.PackedBit` | kvserve_v1/compression/codec/bitpack_codec.py:25-39 | bit t of byte b is bit 8b + t of the symbols laid end to end |
| `BitPack.ReachSuffices` | kvserve_v1/compression/codec/bitpack_codec.py:34-34 | the gather loop reaches every symbol that touches a byte |
| `BitPack.BodyRoundTrip` | kvserve_v1/compression/codec/bitpack_codec.py:62-69 | unpacking undoes packing for every width, length and symbol list |
| `BitPack.HeaderInjective` | kvserve_v1/compression/codec/bitpack_codec.py:41-47 | the header determines width and count |
| `BitPack.HeaderIs` | kvserve_v1/compression/codec/bitpack_codec.py:41-47 | the header byte by byte: magic number and 64-bit count with their low byte first, the width, three zeros |
| `BitPack.ParseAccepts` | kvserve_v1/compression/codec/bitpack_codec.py:112-134 | decoding accepts exactly a body of the announced size behind its own header |
| `BitPack.PayloadRoundTrip` | kvserve_v1/compression/codec/bitpack_codec.py:100-134 | 16 + ceil(N * bits / 8) bytes that decode to the symbols, and are rejected under any other width or count |
| `BitPack.LanesCheckAll` | kvserve_v1/compression/codec/bitpack_codec.py:31-38 | the device assertions hold exactly when every symbol is in the alphabet |
| `BitPack.GatherByte` | kvserve_v1/compression/codec/bitpack_codec.py:25-39 | one lane's byte and whether its assertions held |
| `BitPack.Pack` | kvserve_v1/compression/codec/bitpack_codec.py:25-47 | the grid writes header and every packed byte |
| `BitPack.Encode` | kvserve_v1/compression/codec/bitpack_codec.py:100-110 | succeeds exactly on valid widths and symbols, with the payload |
| `BitPack.Decode` | kvserve_v1/compression/codec/bitpack_codec.py:112-134 | the length and header checks, then the symbols |
| `WireMetadata.UnpackPack` | kvserve_v1/compression/wire.py:157-185 | unpacking undoes packing, with tuples as lists, exactly when nothing in the tree looks like a placeholder |
| `WireMetadata.PackLeavesNoTensor` | kvserve_v1/compression/wire.py:157-166 | a packed tree holds no tensor |
| `WireMetadata.PackKeepsOutside` | kvserve_v1/compression/wire.py:139-154 | packing metadata leaves exactly the tensors outside the quantization parameters |
| `WireMetadata.PackQparams` | kvserve_v1/compression/wire.py:157-166 | the packed tree, and the shared list extended by the tree's tensors in order |
| `Wire.WireRoundTrip` | kvserve_v1/compression/wire.py:33-136 | what is built is restored for single, byte-chunked and manager-chunked payloads exactly when no list looks like a placeholder, and the emitted metadata holds no tensor |
| `Wire.ImpostorIsLost` | kvserve_v1/compression/wire.py:169-185 | a concrete placeholder-shaped list: the payload is built and cannot be restored |
| `Wire.BuildSucceeds` | kvserve_v1/compression/wire.py:33-87 | building fails exactly for missing parts, an unsplittable body, or tensors outside the quantization parameters |
| `Wire.BuiltChunks` | kvserve_v1/compression/wire.py:60-87 | a body over the limit goes in stretches of exactly the limit, the last one shorter but not empty; any other body and the manager's chunks go whole, with at most one side tensor |
| `Wire.ExpandCoalesce` | kvserve_v1/compression/wire.py:188-254 | expanding undoes coalescing |
| `Wire.LayoutSound` | kvserve_v1/compression/wire.py:208-233 | every slot starts at the first multiple of its element size behind the slot before, in order, and the last ends with the storage |
| `Wire.SlotsDisjoint` | kvserve_v1/compression/wire.py:208-233 | slots of different tensors share no byte |
| `Wire.PiecesJoin` | kvserve_v1/compression/wire.py:257-264 | byte chunks concatenate to the body, none empty or over the limit |
| `Wire.CoalesceAux` | kvserve_v1/compression/wire.py:188-233 | the loop lays out storage and table as specified |
| `Wire.ExpandAux` | kvserve_v1/compression/wire.py:234-254 | the loop reads every slot or fails |
| `LayerLayout.SwapInverse` | kvserve_v1/compression/compression_manager.py:145-153 | the two layout permutations undo each other |
| `LayerLayout.SwapAppend` | kvserve_v1/compression/compression_manager.py:145-176 | one bulk permutation permutes each layer |
| `LayerLayout.SwapAt` | kvserve_v1/compression/compression_manager.py:145-176 | entry by entry, token t of head h where head h of token t was |
| `LayerPipeline.PipelinePreservesMeaning` | kvserve_v1/compression/compression_manager.py:254-341 | compression then decompression gives every layer its meaning, chunked or not, for every layer count |
| `LayerPipeline.PipelineRestores` | kvserve_v1/compression/compression_manager.py:254-341 | in terms of the stages alone, for each of the four transformer and quantizer cases: layer i comes back as inverse(dequantize(quantize(transform(layer)))) with its own id and parameters |
| `LayerPipeline.LosslessPipeline` | kvserve_v1/compression/compression_manager.py:254-341 | with invertible stages every layer comes back unchanged |
| `LayerPipeline.ChunkHolds` | kvserve_v1/compression/compression_manager.py:279-331 | cell by cell: the codec gets, where its layout says, the cell of the layer as the stages leave it; it is asked with the chunk's last layer id, and what it refuses is sent as it is |
| `LayerPipeline.NativeHolds` | kvserve_v1/compression/compression_manager.py:279-319 | layer i of the native buffer is quantize(transform(layer)) or the part of it that is switched on |
| `LayerPipeline.ParamsHold` | kvserve_v1/compression/compression_manager.py:285-322 | the parameters kept for layer i are those its own quantization gave |
| `LayerPipeline.ResultIsIndependent` | kvserve_v1/compression/compression_manager.py:383-507 | any two configurations that differ in layout, direct path, codec, codec failures or chunking restore the same layers |
| `LayerPipeline.ChunkMeaning` | kvserve_v1/compression/compression_manager.py:667-747 | one chunk is undone with each layer's own id and parameters |
| `LayerPipeline.CompressRange` | kvserve_v1/compression/compression_manager.py:254-331 | both fill paths hand the codec the same buffer and parameters |
| `LayerPipeline.CompressAllLayers` | kvserve_v1/compression/compression_manager.py:200-341 | when nothing is compressed, and when chunks are used |
| `LayerPipeline.CompressChunked` | kvserve_v1/compression/compression_manager.py:383-507 | chunks of eight layers cover all layers |
| `LayerPipeline.DecompressChunk` | kvserve_v1/compression/compression_manager.py:667-747 | the decode, permutation and undo loop of a chunk |
| `LayerPipeline.DecompressAllLayers` | kvserve_v1/compression/compression_manager.py:536-631 | all chunks in order, or None when one is lost |
| `Codebook.BucketizeCounts` | kvserve_v1/compression/quantizer/centered_codebook.py:29-64 | the comparison tree counts the bounds below x |
| `Codebook.BucketizeIsNearest` | kvserve_v1/compression/quantizer/centered_codebook.py:225-228 | the chosen center is a nearest one |
| `Codebook.FitIsBest` | kvserve_v1/compression/quantizer/centered_codebook.py:109-117 | of all non-negative scales the fitted one costs least |
| `Codebook.ReassignIsBest` | kvserve_v1/compression/quantizer/centered_codebook.py:103-108 | at a regular scale reassignment costs no more than any assignment |
| `Codebook.RefinementImproves` | kvserve_v1/compression/quantizer/centered_codebook.py:102-118 | one refinement never worsens the fit |
| `Codebook.ScaleAtBest` | kvserve_v1/compression/quantizer/centered_codebook.py:102-118 | each refinement gives the best non-negative scale for the symbols of the scale before it |
| `Codebook.Quantize` | kvserve_v1/compression/quantizer/centered_codebook.py:102-122 | the loop's scale and symbols fit no worse than the starting scale |

## Left out

- Sockets, pipes, process start and stop, bootstrap, CUDA streams and events, NCCL and kernel compilation: jobs that answer, receives that complete or fail, and an in-order data stream stand for them.
- Rounding of bf16, f16 and f32, and casts between them: numeric results are over exact reals; rounding to an integer is any nearest integer.
- Shutdown cancellation, job timeouts and the listener's catch-all exception path: they interrupt cleanup midway and the conservation laws do not cover them.
- Failure markers of `_mark_failed`: they may overtake pending receives, so order is stated for real payloads.
- Reporting of decode failures by the helper, and reuse of receiver slots after an unacknowledged abort: only producer-side quiescence is claimed.
- The in-process connector's producer side, a near copy of the helper's, and its raw-path completion reports.
- Token counts of partial chunks, and the stage functions themselves (quantizers, transformers, codecs other than bit packing) inside the layer pipeline: they are parameters.
- msgpack: metadata arrives as it was built, so tuples outside the quantization parameters stay tuples in the model.
- The non-fused quantization kernels, the Lloyd iteration that computes the centers, and masked lanes of `_quantize`, which contribute zero to every sum.
- The online controller, the latency model, configuration, statistics and logging.
- SessionFreeing.FreeingIsSafe: assumes the timely wake-up described above, which the source does not enforce; SessionExpiry.SweepIsSafeExactly proves it is the exact condition.
- LayerPipeline.PipelinePreservesMeaning: takes the codec as lossless and the stages as size preserving, which the source leaves to its components.
- NcclSystem.PublishedInSendOrder: speaks of runs without failed receives; with failures NcclSystem.EndToEndOrder says which payloads are missing.
