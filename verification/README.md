# Verified models of the Apple T2 driver's shared-memory protocols

The driver talks to the T2 chip over rings in shared memory. This project models those protocols in Dafny and proves
what they promise, over every run: the per-endpoint USB transfer queue, the submission and completion rings with the
interrupt pass that serves them, the two command channels, the firmware-event worker, the port-to-device mapping, and
the audio transport with its pointer and fixed-point arithmetic.

A protocol is a state machine whose steps are the lock-held regions, atomic operations and command waits of the C
code, taken in any order; the T2, timeouts, allocation and other threads choose freely within a stated contract.
History that the driver does not keep (unbounded counts beside wrapped indices, who owns each submission in flight,
what was written where) is part of the model state, so that the theorems can speak of it. Beside most state machines
stands a class with the fields and loops of the C code, whose methods are proved to perform exactly those steps.

`dafny verify dfyconfig.toml` checks everything.

## Files

- `TransferModel.dfy` has one function per C function of vhci/transfer.c, `TransferRuns.dfy` the interleaved runs,
  `TransferAccounting.dfy` what every critical section keeps, `TransferQueueClass.dfy` the queue updated in place.
- `TransferTheorems.dfy` holds the laws of all endpoints: output drain, exactly-once giveback, slot conservation, pause
  mask; `TransferLength.dfy` what an URB is given back with, `TransferSteps.dfy` what single operations promise,
  `TransferResume.dfy` what a resume submits again. `TransferIn.dfy`, `TransferInOrder.dfy` and `TransferOut.dfy` are about data endpoints; `TransferControl.dfy`,
  `TransferDebt.dfy`, `TransferSilent.dfy` and `TransferOrder.dfy` about endpoint 0; `TransferWitness.dfy`,
  `TransferShort.dfy` and `TransferStale.dfy` show where the laws stop.
- `Arithmetic.dfy` has the facts about division and remainder that several modules use.
- `SubmissionRing.dfy`, `InterruptPass.dfy` and `CommandSlots.dfy` cover queue.c, queue.h and the DMA interrupt.
- `CommandExecute.dfy`, `FirmwareEvents.dfy` and `PortMap.dfy` cover vhci/queue.c and vhci/vhci.c.
- `AudioRings.dfy`, `AudioTags.dfy`, `AudioPointer.dfy` and `FixedPoint.dfy` cover the audio side.

## What the code does not promise

Some laws that the design suggests are false of the code; each has an input that shows it and the condition under
which the law does hold.

- The flush worker's reset of `remaining_active_requests` breaks slot conservation on an endpoint with several slots
  (`FlushBreaksConservation`); it keeps it exactly when no listed URB holds a slot (`FlushKeepsLawIff`), and on
  endpoint 0 always.
- A TRANSFER_REQUEST for less than the rest of the buffer leaves an OUT URB waiting for a completion that never comes,
  and cancelling it misdirects the next one; both happen if and only if the request is short (`StrandedIff`,
  `ExactIffWhole`, reached by `TwoSubmitsReady`), and at the request itself the law of exact attribution survives if
  and only if it is whole (`RequestKeepsLawIff`).
- On IN endpoints completions are charged to their own URBs under oldest-first cancellation, and a cancel keeps that
  order exactly then (`CancelKeepsOrderIff`, `YoungestFirstMischarges`, reached by `TwoWaiters`).
- A setup packet sent while an older submission is owed takes the older completion for its own (`StaleRun`, a run from
  a new queue). When the packet goes out, the next answer is the URB's own if and only if nothing was owed
  (`SetupIsOwnIff`); in runs where that is always so, success is earned by the URB's own completions (`SuccessIsOwn`).
- The firmware-event worker handles whatever an aborted buffer holds when the aborted completion is met as lookahead
  (`StaleBufferHandled`, `WorkerMeansIdealIff`).
- A reply with the undefined status 0 makes a command return 0, as SUCCESS does (`StatusZeroPassesAsSuccess`,
  `VerdictZero`).
- Recreating a device on reset or resume indexes the device table with an unchecked id: it goes wrong if and only if
  the id is 16 or more (`RecreateTrustsTheId`, reached by `ResetReachesCreate`).
- A caller of the BCE command queue that has timed out clears its slot whoever owns it by then. If its answer and a
  whole lap of other commands went by in between, the new owner loses its slot and can no longer be answered
  (`LapReusesSlot` gives the run for every ring size, `ClearDropsOther` the effect); a clear leaves all others their
  slots if and only if nobody reused the slot (`ClearKeepsOthersIff`). No result is ever filled by a wrong completion.
- A create command that fails during a device reset loses the device object for good; during a resume it does not
  (`FailedResetLeaks`).
- Destroying a transfer queue gives a cancelled control URB back without returning its slot; the slot law survives if
  and only if there is none (`DestroyBreaksConservation`, `DestroyKeepsLawIff`).
- Volume levels above 0 dB read back one step lower unless the range starts at a multiple of 0.125 dB (`PutThenGet`).

## Model

| member | source | states |
|---|---|---|
| TransferTheorems.ExactlyOnce | vhci/transfer.c:84-94 | in every run of submit, complete, cancel, flush, cancel_all and destroy an enqueued URB is in exactly one of the endpoint list, giveback list, flush list, a caller's hands or given back, a URB not enqueued is nowhere, and none is given back twice |
| TransferTheorems.PlacesStep | vhci/transfer.c:125-139 | every single step keeps the number of places of every URB, except the submit that enqueues it |
| TransferTheorems.SlotConservation | vhci/transfer.c:537-571 | remaining + slot-holding listed URBs + both ghost counts + cancelled control URBs held for the flush = max_active_requests after every step, as long as a data endpoint's flush finds no listed slot holder and a destroy finds no cancelled control URB waiting for the flush (both conditions exact, see FlushKeepsLawIff and DestroyKeepsLawIff) |
| TransferTheorems.LedgerRun | vhci/transfer.c:537-556 | in every run without exception remaining_active_requests never underflows, both rings account for all their entries, and endpoint 0 has no ghosts |
| TransferTheorems.DestroyKeepsLawIff | vhci/transfer.c:84-100 | destroying the queue keeps conservation if and only if no cancelled control URB waits for the flush |
| TransferTheorems.ControlSlotConservation | vhci/transfer.c:600-618 | on endpoint 0 conservation holds in every interleaving of submit, complete, cancel and flush, and after a destroy that finds the flush worker at rest |
| TransferTheorems.FlushKeepsLawIff | vhci/transfer.c:647-660 | the flush worker's reset keeps conservation if and only if no listed URB holds a slot |
| TransferTheorems.SlotStep | vhci/transfer.c:263-278 | each step moves slots between the counter, URBs, ghosts and the flush list without creating or losing one |
| TransferTheorems.OutputDrain | vhci/transfer.c:332-345 | in every run sq_out_pending = ring credits in use = output DMA outstanding, so zero means nothing is outstanding |
| TransferTheorems.PauseMask | vhci/transfer.c:400-426 | over all runs of pause, resume, stall reset, flush and suspend, a queue with any pause source is inactive whenever pause_lock is free, and SET_STATE ACTIVE is on its way only for the last source |
| TransferTheorems.PauseStep | vhci/transfer.c:370-398 | the only step that turns an inactive queue active is the resume that releases the last source |
| TransferTheorems.HeldStaysAsleep | vhci/transfer.c:428-454 | a queue held by one source stays inactive through any pauses, resumes, resets and suspends of the others until that source is released |
| TransferTheorems.LogGrowsRun | vhci/transfer.c:240-301 | no step rewrites the history of submissions, answers and results |
| TransferLength.GivenBackAsNoted | vhci/transfer.c:558-571 | in every run on every endpoint, each record on its way back or given back stands in the history with its id, status and length, as completed or as cancelled, exactly as often |
| TransferLength.LengthIsReported | vhci/transfer.c:805-825 | in every run the actual length of an URB that goes back is the number of bytes, modulo 2^32, that the T2 reported in completions charged to its data (0 while its data is not over), and on data endpoints it is completed with status 0 exactly when its data is over |
| TransferLength.OneCompletion | vhci/transfer.c:808-812 | for an IN transfer these are the bytes of one completion, the first charged to it after its data was submitted |
| TransferLength.GivenStep | vhci/transfer.c:573-645 | every single step keeps this, cancels included |
| TransferResume.ResumeRestores | vhci/transfer.c:370-398 | resuming a flushed IN endpoint with reservations granted submits exactly one transfer for each URB that was waiting, in list order, with its owner and the rest of its length, and the accounting of IN endpoints holds again |
| TransferResume.WaitingCarriedOut | vhci/transfer.c:384-394 | for any outcome of the reservations: the waiting URBs that got one are submitted again in order, the others alone are given back with -ENOMEM, and each of those returns its slot |
| TransferResume.EveryoneSubmitted | vhci/transfer.c:384-394 | with reservations and slots for all, every URB of an IN endpoint, waiting or pending, is submitted once, in list order |
| TransferResume.ResumeSubmits | vhci/transfer.c:951-955 | a waiting URB with a reservation is submitted for the rest of its buffer and stays waiting |
| TransferResume.ResumeFails | vhci/transfer.c:951-958 | without one it goes back with -ENOMEM |
| TransferSteps.FailedSubmit | vhci/transfer.c:511-527 | a submission without a reservation fails with -ENOMEM and leaves no trace |
| TransferSteps.RefusedSubmit | vhci/transfer.c:502-509 | a refusal of the USB core is passed on |
| TransferSteps.SubmitAsks | vhci/transfer.c:516-522 | a submission to an inactive queue queues the reset of a stalled one, the resume of one the driver paused, and nothing otherwise |
| TransferSteps.CancelUnknown | vhci/transfer.c:581-585 | cancelling an URB that is not listed fails and changes nothing |
| TransferSteps.CancelWaitsIff | vhci/transfer.c:600-645 | a cancelled URB waits for the flush, which is then queued, if and only if it is a started control URB or the last URB while cancelled transfers are in flight; otherwise it goes straight back |
| TransferSteps.CancelAllGives | vhci/transfer.c:175-192 | cancel_all gives every URB back with -ECONNRESET in list order and leaves the queue inactive |
| TransferSteps.PauseHolds | vhci/transfer.c:400-412 | a successful pause leaves the queue inactive with its source recorded, and the first one drops deferred events |
| TransferSteps.FailedPause | vhci/transfer.c:404-409 | a failed pause records nothing |
| TransferSteps.ReleaseOne | vhci/transfer.c:414-426 | releasing one of several sources takes it out of the mask and does nothing else |
| TransferSteps.ReleaseLast | vhci/transfer.c:414-426 | a failed release of the last source changes nothing |
| TransferSteps.ReleaseWakes | vhci/transfer.c:370-398 | a successful one activates the queue and empties the mask |
| TransferSteps.ResetHolds | vhci/transfer.c:428-454 | a reset of a stalled queue holds it, drops deferred events and clears the stall; of any other it does nothing |
| TransferSteps.SuspendHolds | vhci/vhci.c:511-535 | bus suspend holds the queue inactive whoever else does |
| TransferSteps.NextIsStarted | vhci/transfer.c:225-234 | when a status event completes a control transfer the next URB is started at once with the freed slot |
| TransferSteps.InactiveEvent | vhci/transfer.c:205-211 | an inactive queue keeps a transfer request exactly when it is endpoint 0 under an internal pause, asks for a reset when there is no memory for it, and drops everything else |
| TransferSteps.RequestSurvivesPause | vhci/transfer.c:205-211 | a setup request issued during such a pause is served by the resume |
| TransferIn.InEndpointAccounting | vhci/transfer.c:469-480 | between flushes on an IN endpoint: submissions owed on sq_in = URBs waiting for completion + ghosts ≤ max_active_requests, slot holders are a prefix of the list, no owed completion is discarded |
| TransferIn.InStep | vhci/transfer.c:486-535 | each step of an IN endpoint keeps that accounting, and no URB waits for a slot while one is free |
| TransferInOrder.InExactAttribution | vhci/transfer.c:263-269 | on IN endpoints with oldest-first cancellation every completion is charged to the URB, live or cancelled, whose submission it answers |
| TransferInOrder.CancelKeepsOrderIff | vhci/transfer.c:600-618 | a cancel keeps the T2's debts in list order if and only if it takes the oldest URB or one not submitted |
| TransferInOrder.YoungestFirstMischarges | vhci/transfer.c:573-618 | after cancelling a younger URB first, the completion of the oldest URB's submission is charged to the cancelled one |
| TransferInOrder.TwoWaiters | vhci/transfer.c:486-535 | two submissions on a new IN endpoint reach a state in which the younger may be cancelled first |
| TransferOut.ExactAttribution | vhci/transfer.c:240-301 | on OUT endpoints without flushes, with whole-buffer requests fully sent, only the list head waits for completion and every completion is charged to the very URB, live or cancelled, whose submission it answers, however cancels interleave |
| TransferOut.OutStep | vhci/transfer.c:744-776 | each step keeps the owed submissions in the order ghosts first, then the list head |
| TransferOut.RequestKeepsLawIff | vhci/transfer.c:763-785 | a request keeps exact attribution if and only if it asks for at least the head's whole buffer |
| TransferControl.SuccessIsEarned | vhci/transfer.c:827-869 | in every run on endpoint 0, status 0 is reported only after the setup packet was sent, a completion was charged for it, one more for the data stage if there is one, and SUCCESS arrived |
| TransferControl.SuccessIsOwn | vhci/transfer.c:904-931 | if no setup packet is sent while an answer is owed, the completions that earn status 0 are those of the URB's own setup packet and then of its own data |
| TransferControl.Milestones | vhci/transfer.c:871-902 | what such a phase means: that many notes of the history in order, setup sent first, then completions charged to the URB |
| TransferDebt.DebtStep | vhci/transfer.c:686-729 | on endpoint 0 with quiet setups, everything the T2 owes belongs to the URB that sent the last setup packet, and the setup packet is alone on the wire |
| TransferDebt.ChargeIsOwn | vhci/transfer.c:291-296 | the URB the next completion is charged to is the one it belongs to |
| TransferSilent.SilentStep | vhci/transfer.c:871-902 | on endpoint 0 every step keeps this: an URB whose setup packet is not out has nothing on the wire |
| TransferSilent.NextIsCharged | vhci/transfer.c:291-296 | the next completion of either ring is charged to the URB at the head of the list |
| TransferSilent.SetupIsOwnIff | vhci/transfer.c:879-888 | in every reachable state that sends a setup packet, the next answer of either ring is the URB's own if and only if both rings owed nothing before |
| TransferOrder.OrderDoesNotMatter | vhci/transfer.c:143-160 | for every arrival order of TRANSFER_REQUESTs before and after the URB, DMA completions and one status event, in which OUT data is asked for and reported whole, the control URB ends with the same status, 0 for SUCCESS and -EPIPE otherwise, and exactly in the second case the endpoint is stalled and its reset queued |
| TransferOrder.SubmitToResting | vhci/transfer.c:486-535 | submitting a control URB consumes the first request that came before it and keeps the others |
| TransferOrder.EarlyRequest | vhci/transfer.c:215-218 | a request that finds no URB is put on the event list |
| TransferOrder.OrderRun | vhci/transfer.c:194-238 | along any such order the URB is either still listed in a state that matches what arrived, or given back once with the final status |
| TransferWitness.SubmitTakesSlot | vhci/transfer.c:537-556 | an URB submitted to an idle active IN endpoint takes a slot and is submitted at once |
| TransferWitness.FlushBreaksConservation | vhci/transfer.c:647-660 | a run on a multi-slot endpoint after which max_active_requests + 1 slots exist |
| TransferShort.StrandedIff | vhci/transfer.c:763-785 | after a request and its full completion the head waits for a completion nobody owes if and only if the request was for less than its buffer |
| TransferShort.ExactIffWhole | vhci/transfer.c:805-825 | asking for part of one URB, cancelling it and serving the next charges every completion to its own URB if and only if the request was whole |
| TransferShort.TwoSubmitsReady | vhci/transfer.c:731-742 | two submissions on a new OUT endpoint reach a state in which this happens |
| TransferShort.EmptyGhostMischarges | vhci/transfer.c:270-278 | a ghost with no DMA behind it swallows the completion of the next URB |
| TransferStale.StaleCompletionAdvances | vhci/transfer.c:904-931 | another URB's completion moves a control URB past its setup stage while its setup packet is still owed |
| TransferStale.StaleRun | vhci/transfer.c:647-664 | a run from a new queue in which a cancelled URB's completion is charged to the next URB as if it answered its setup packet |
| TransferStale.DestroyBreaksConservation | vhci/transfer.c:84-94 | submit, cancel and destroy on endpoint 0 leave one slot fewer than max_active_requests |
| TransferQueueClass.TransferQueue.UrbComplete | vhci/transfer.c:558-571 | performs exactly the modelled completion: off the list, slot freed unless pending, onto the giveback list |
| TransferQueueClass.TransferQueue.DataTransferIn | vhci/transfer.c:686-729 | performs the modelled IN submission, both reservations included |
| TransferQueueClass.TransferQueue.DataStart | vhci/transfer.c:731-742 | performs the modelled choice between IN submission, waiting and nothing to send |
| TransferQueueClass.TransferQueue.UrbInit | vhci/transfer.c:537-556 | performs the modelled start; a slot is taken only on success |
| TransferQueueClass.TransferQueue.SendOutData | vhci/transfer.c:744-761 | performs the modelled OUT submission with sq_out_pending |
| TransferQueueClass.TransferQueue.DataUpdate | vhci/transfer.c:763-785 | performs the modelled reaction of a data URB to an event |
| TransferQueueClass.TransferQueue.DataTransferCompletion | vhci/transfer.c:805-825 | performs the modelled reaction of a data URB to a completion |
| TransferQueueClass.TransferQueue.ControlCheckStatus | vhci/transfer.c:827-869 | performs the modelled status stage, stall included |
| TransferQueueClass.TransferQueue.ControlUpdate | vhci/transfer.c:871-902 | performs the modelled reaction of a control URB to an event |
| TransferQueueClass.TransferQueue.ControlTransferCompletion | vhci/transfer.c:904-931 | performs the modelled reaction of a control URB to a completion |
| TransferQueueClass.TransferQueue.InitPendingUrbs | vhci/transfer.c:469-484 | the loop starts exactly the pending URBs the recursive specification starts |
| TransferQueueClass.TransferQueue.DeliverPending | vhci/transfer.c:143-160 | the loop delivers deferred events as the recursive specification does, then starts pending URBs |
| TransferQueueClass.TransferQueue.Event | vhci/transfer.c:194-238 | performs the modelled event step for active and inactive queues, and keeps the ledger (no underflow, rings and sq_out_pending in agreement with the DMA in flight) |
| TransferQueueClass.TransferQueue.CompleteOne | vhci/transfer.c:248-297 | performs the modelled round: abort, ghost, orphan or live completion |
| TransferQueueClass.TransferQueue.Completion | vhci/transfer.c:240-301 | the loop over the harvested records is the recursive specification, and keeps the ledger (no underflow, rings and sq_out_pending in agreement with the DMA in flight) |
| TransferQueueClass.TransferQueue.UrbCreate | vhci/transfer.c:486-535 | performs the modelled submission, link failure and failed start included, and keeps the ledger (no underflow, rings and sq_out_pending in agreement with the DMA in flight) |
| TransferQueueClass.TransferQueue.RequestCancel | vhci/transfer.c:573-645 | performs the modelled cancel: ghost, freed slot, flush or direct giveback, and keeps the ledger (no underflow, rings and sq_out_pending in agreement with the DMA in flight) |
| TransferQueueClass.TransferQueue.FlushReset | vhci/transfer.c:656-661 | performs the modelled counter reset and hand-over, and keeps the ledger |
| TransferQueueClass.TransferQueue.FlushWork | vhci/transfer.c:647-664 | undisturbed, the worker is a pause, the reset, a resume and a giveback of everything |
| TransferQueueClass.TransferQueue.CancelAll | vhci/transfer.c:175-192 | the loop completes every listed URB as the specification does, and keeps the ledger (no underflow, rings and sq_out_pending in agreement with the DMA in flight) |
| TransferQueueClass.TransferQueue.Giveback | vhci/transfer.c:125-141 | undisturbed, every URB on the list reaches the USB core in order |
| TransferQueueClass.TransferQueue.ResumeActivate | vhci/transfer.c:370-398 | the loop restarts and resubmits URBs as the specification does, and keeps the ledger (no underflow, rings and sq_out_pending in agreement with the DMA in flight) |
| TransferQueueClass.TransferQueue.Pause | vhci/transfer.c:400-412 | sets the source bit, and deactivates and drops events only for the first source |
| TransferQueueClass.TransferQueue.Resume | vhci/transfer.c:414-426 | clears the source bit, and activates only for the last source |
| TransferQueueClass.PausedIsSteps | vhci/transfer.c:308-366 | an undisturbed pause is the run of its modelled steps |
| SubmissionRing.RingIsFifo | queue.c:163-201 | on every run with reserve-before-submit and in-order answers the ring answers like an unbounded FIFO, released ≤ taken ≤ harvested ≤ submitted, the indices are these counts modulo the size, available + reserved + in flight = el_count − 1, and index equality means empty |
| SubmissionRing.StepRefines | queue.c:59-72 | each ring operation refines the FIFO operation, outputs included |
| SubmissionRing.RunRefines | queue.c:181-186 | refinement carries over whole runs |
| SubmissionRing.KthTakenIsKthHarvested | queue.h:141-149 | the k-th record bce_next_completion returns is the k-th harvested, nothing lost, repeated, reordered or overwritten over any number of laps |
| SubmissionRing.SubmissionQueue.Reserve | queue.c:163-172 | grants exactly while reserved + in flight is below el_count − 1 |
| SubmissionRing.SubmissionQueue.CancelReservation | queue.c:176-179 | gives one reservation back |
| SubmissionRing.SubmissionQueue.NextSubmission | queue.c:181-186 | yields the slot of the next submission count |
| SubmissionRing.SubmissionQueue.Harvest | queue.c:59-72 | stores the record exactly when the index is the expected one |
| SubmissionRing.SubmissionQueue.NextCompletion | queue.h:141-149 | yields the oldest record not taken, or none exactly when there is none |
| SubmissionRing.SubmissionQueue.NotifyComplete | queue.c:195-200 | releases the oldest taken submission and its credit |
| SubmissionRing.SubmissionQueue.Drain | vhci/queue.c:64-72 | the completion loop takes and releases everything harvested, in order |
| InterruptPass.PassSafety | queue.c:44-113 | mid-pass, with queues created and destroyed meanwhile: int_sq_list holds distinct submission queues, at most 256, the unserved ones are exactly the flagged ones, and nothing the pass can reach is freed or has its qid reused |
| InterruptPass.PassServesAll | apple_bce.c:247-268 | at the end of a pass the submission queues called back are exactly those published under the qid of a completion entry of this pass that carried the index they expected, each once, and no flag is left |
| InterruptPass.FreshEntryWakes | queue.c:59-72 | such an entry flags the queue, lists it once and moves its completion index on by one; nothing else changes |
| InterruptPass.ForeignEntryIgnored | queue.c:49-62 | an entry with another index, an unknown qid or a completion queue's qid changes nothing |
| InterruptPass.SeenSurvives | queue.c:436-464 | unpublishing, freeing a qid or freeing a queue never touches one the running pass may hold |
| InterruptPass.StepKeeps | queue.c:366-434 | every step of queue creation (failed registration included), destruction and the pass keeps qids unique and the queue table consistent |
| InterruptPass.CompletionQueue.Poll | queue.c:81-99 | the loop handles exactly the unbroken run of pending elements from the index on, in ring order, and clears only those |
| CommandSlots.CommandSlotSafety | queue.c:241-295 | for every interleaving of submitters, timeouts and completions over any laps: a result is filled at most once and only by its own submission's completion, a slot never refers to a returned caller, success means answered |
| CommandSlots.CompleteOneKeeps | queue.c:247-258 | each completion keeps the slot law |
| CommandSlots.CompletionFills | queue.c:247-258 | the completion of a command fills the result of the caller its slot refers to with that command's number, and no other |
| CommandSlots.AnsweredUnlessDropped | queue.c:241-295 | in every run a caller in flight has its answer if and only if its command was answered, unless another caller's late timeout took its slot |
| CommandSlots.ReturnsTell | queue.c:281-295 | a woken caller returns success with its own answer, one that timed out does not |
| CommandSlots.SubmitKeeps | queue.c:263-279 | a new submission takes a slot no one in flight owns |
| CommandSlots.ClearKeepsOthersIff | queue.c:286-292 | the timeout path leaves every other caller its slot if and only if nobody reused the caller's own |
| CommandSlots.ClearDropsOther | queue.c:286-292 | where it was reused, the new owner stays in flight with no slot |
| CommandSlots.LapReusesSlot | queue.c:263-295 | for every ring size a run from a new queue after which the slot about to be cleared belongs to another caller |
| CommandSlots.CommandQueue.Start | queue.c:263-279 | performs the modelled submission |
| CommandSlots.CommandQueue.Completion | queue.c:241-261 | the loop performs the modelled completions |
| CommandSlots.CommandQueue.ClearSlot | queue.c:281-295 | performs the modelled timeout path |
| CommandExecute.ExecuteSafety | vhci/queue.c:225-298 | over every interleaving of calls, replies, timeouts, cancels and destroy: a result buffer is written at most once, the slot never points into a returned call, one call at a time is inside, and 0 needs a reply that carries the request's command and status SUCCESS (or the undefined 0) |
| CommandExecute.ReturnedIsFinal | vhci/queue.c:247-275 | nothing changes a call's buffer or status after it returned |
| CommandExecute.FirstReplyStays | vhci/queue.c:212-223 | the first message written stays, later ones reach no buffer |
| CommandExecute.LateReplyDropped | vhci/queue.c:217-221 | a reply with no waiter changes nothing |
| CommandExecute.VerdictZero | vhci/queue.c:276-287 | 0 is returned if and only if the reply carries the request's command, is not the cancel's and has status SUCCESS or 0 |
| CommandExecute.CheckTells | vhci/queue.c:276-287 | in every run a call whose wait succeeded returns -110 for a reply to its cancellation, -5 for a reply to anything else, and for a reply to the request 0 on SUCCESS and the reported status unchanged otherwise |
| CommandExecute.VerdictTells | vhci/queue.c:276-287 | the same for a single reply |
| CommandExecute.DisarmTells | vhci/queue.c:249-275 | a call that gave up returns -110 after the second timeout and the reservation's status otherwise, and empties the slot |
| CommandExecute.BeginTells | vhci/queue.c:234-239 | a dead controller gives -19, a missing reservation its status, and any other call goes in alone |
| CommandExecute.ArmedHears | vhci/queue.c:197-223 | in every run the first message that arrives while a call is armed reaches its buffer alone and lets it go on; teardown leaves ABORT there |
| CommandExecute.StatusZeroPassesAsSuccess | vhci/queue.c:285-287 | a matching reply with status 0 returns 0 |
| CommandExecute.CommandQueue.DeliverCompletion | vhci/queue.c:212-223 | writes and completes the armed buffer and disarms it, or does nothing |
| CommandExecute.CommandQueue.Destroy | vhci/queue.c:197-205 | wakes an armed caller with ABORT |
| CommandExecute.CommandQueue.CancelAndWait | vhci/queue.c:249-275 | the cancellation path leaves the slot empty and at most one message in the buffer |
| CommandExecute.CommandQueue.Execute | vhci/queue.c:225-288 | one whole call: the errno and the buffer for every combination of dead controller, reservations and arrival windows, the slot always empty afterwards |
| FirmwareEvents.WorkerMeansIdealIff | vhci/vhci.c:1020-1071 | the loop does what is meant (request + cancel answered once with ABORT, everything else handled once in order) if and only if no aborted completion is met as lookahead |
| FirmwareEvents.AbortFreeBatch | vhci/vhci.c:1044-1061 | on an abort-free batch the worker equals the recursive specification and cnt equals the batch length |
| FirmwareEvents.StaleBufferHandled | vhci/vhci.c:1044-1069 | a message followed by an aborted completion makes the worker handle the aborted buffer too |
| FirmwareEvents.CancelMeans | vhci/vhci.c:1048-1049 | a message is the cancellation of a command exactly if its command is that command plus 0x4000 and param1 is the same; none cancels itself |
| FirmwareEvents.Worker.LookAhead | vhci/vhci.c:1044-1047 | the message read ahead is the one of the next completion's own slot |
| FirmwareEvents.Worker.HandleEvents | vhci/vhci.c:1029-1071 | the loop's actions are the specification's, each message read from its own slot, every taken completion notified once, so released = taken = harvested at the end |
| PortMap.MappingSafety | vhci/vhci.c:286-334 | in every run of enable, free, reset and resume-refresh over all ports: mapping injective, mapped ids live with one allocated device object, entries belong to mapped ids, no NULL or out-of-range entry used |
| PortMap.DestroyIsUnmapped | vhci/vhci.c:342-386 | a device_destroy on its way names a live id that no port maps and no other operation destroys |
| PortMap.StepKeeps | vhci/vhci.c:697-747 | each step, every failure branch included, keeps the mapping and object ownership |
| PortMap.NoLeaks | vhci/vhci.c:300-331 | in every run with a T2 that does what it is told and no failing create in a reset, every live id is mapped or on its way back and every device object is in the table or in the hands of an operation, whatever failed on the way |
| PortMap.FailedResetLeaks | vhci/vhci.c:441-443 | a failing create keeps this if and only if it belongs to a resume; in a reset the device object is lost |
| PortMap.CreatedMaps | vhci/vhci.c:307-320 | a new device maps its port to the id the T2 gave and its entry to the new object; a bad id or a failed allocation maps nothing and sends the id back |
| PortMap.RecreatedMaps | vhci/vhci.c:441-445 | a device created anew maps its port to the new id and keeps its object |
| PortMap.TwoResetsSkipped | vhci/vhci.c:408-413 | after a refresh the next two resets of the port only count down |
| PortMap.RecreateTrustsTheId | vhci/vhci.c:442-445 | the unchecked store goes wrong if and only if the id is 16 or more; enable's check prevents it |
| PortMap.ResetReachesCreate | vhci/vhci.c:396-443 | on every port a legal run from boot reaches the point where the driver takes whatever id the T2 returns |
| PortMap.DeviceTable.EnableDevice | vhci/vhci.c:286-334 | the tables after enable are those of its modelled steps, and success means the port is mapped |
| PortMap.DeviceTable.FreeDevice | vhci/vhci.c:342-386 | the tables, the destroyed id and the freed object are those of the modelled step |
| PortMap.DeviceTable.ResetDevice | vhci/vhci.c:396-467 | the tables and the destroyed id after reset are those of its modelled steps, for any id the T2 returns: the port ends mapped to the new id with its old object, unmapped if the create fails; an id of 16 or more is reported as a store beyond the table |
| AudioRings.OutboundUntouched | audio/protocol_bce.c:79-110 | after any run no message in flight has been overwritten and no two share a data slot |
| AudioRings.OutStepKeeps | audio/protocol_bce.c:99-110 | sending never reuses the slot of a message not yet confirmed |
| AudioRings.InboundInOrder | audio/protocol_bce.c:182-205 | messages are handled once each in the order the T2 completed them; while completion k is handled, data_head names the buffer posted k-th, still holding message k |
| AudioRings.InStepKeeps | audio/protocol_bce.c:223-236 | posting, DMA, harvesting, taking and finishing keep the two rings in step |
| AudioRings.AudioOutQueue.Send | audio/protocol_bce.c:79-110 | writes and submits the message at data_tail as modelled |
| AudioRings.AudioOutQueue.Completion | audio/protocol_bce.c:172-178 | every confirmed send releases its credit |
| AudioRings.AudioInQueue.SubmitPending | audio/protocol_bce.c:223-236 | posts count buffers; a reservation fails exactly when more are asked for than slots are free |
| AudioRings.AudioInQueue.Completion | audio/protocol_bce.c:182-205 | handles every harvested message in order and posts as many buffers again, never failing for want of a credit |
| AudioTags.TagRoundTrip | audio/protocol_bce.c:70-77 | parsing a formatted tag gives the number back, for all 100 tags |
| AudioTags.EntriesNeverOutliveCallers | audio/protocol_bce.c:112-131 | over every run, even with unsolicited tags, a pending entry's caller is still there and a reply buffer is written at most once |
| AudioTags.ReturnedIsFinal | audio/protocol_bce.c:121-129 | a returned call is never touched again |
| AudioTags.StatusTellsReply | audio/protocol_bce.c:112-131 | in every run a call returns 0, with exactly one reply, if its wait did not expire, and -ETIMEDOUT if it did |
| AudioTags.TagIsOwn | audio/protocol_bce.c:112-119 | for fewer than 100 draws after a command its tag's entry is its own or empty, and its own if and only if it still waits without a reply |
| AudioTags.TimelyAnswer | audio/protocol_bce.c:133-170 | a timely answer reaches the command it is meant for if that still waits, and otherwise changes nothing |
| AudioTags.RepliesReachTheirCommand | audio/protocol_bce.c:133-170 | over every run whose answers come before 100 more draws, a reply reaches only the command that drew its tag |
| AudioTags.OwnRepliesFromBoot | audio/protocol_bce.c:133-170 | the same from an empty table |
| AudioTags.HundredthDrawTakesOver | audio/protocol_bce.h:7-15 | one hundred is sharp: the hundredth later command receives the late reply |
| AudioTags.Transport.CreateTag | audio/protocol_bce.c:70-77 | draws the next of 100 tags, which parses back to its number |
| AudioTags.Transport.Register | audio/protocol_bce.c:112-118 | enters the caller's entry under its tag |
| AudioTags.Transport.HandleReply | audio/protocol_bce.c:133-170 | fills and clears exactly the matching entry, truncated to its buffer, and nothing for malformed or unknown tags |
| AudioTags.Transport.CleanUp | audio/protocol_bce.c:121-129 | a timeout clears its own entry only |
| AudioPointer.PositionInRange | audio/pcm.c:295-327 | over any run of timestamps and polls every position is in [0, buffer_size) |
| AudioPointer.NeverBackwards | audio/pcm.c:312-323 | along polls that stay in a lap, or go from the overrun lap through a late timestamp into the new lap, with any timestamps in between, the position never decreases |
| AudioPointer.OverrunThenNewLap | audio/pcm.c:313-323 | after an overrun poll at p and a late timestamp every poll of the new lap reports max(true position, p) |
| AudioPointer.NewLapExact | audio/pcm.c:313-317 | the floor frame_min holds until playback catches up and then disappears |
| AudioPointer.DesyncThenNewLap | audio/pcm.c:318-322 | after a poll two buffer lengths late the floor is forgotten and the next lap reports the true position |
| AudioPointer.FirstTimestamp | audio/pcm.c:302-308 | after a start the position is 0 until the first timestamp and the true one from then on |
| AudioPointer.BufferTimeIs | audio/pcm.c:194-204 | the buffer time is the time its frames take, rounded down |
| AudioPointer.InterpolateBounds | audio/pcm.c:312-312 | the reported frame is the one whose share of the buffer time contains the moment, and lies in the buffer |
| AudioPointer.ProductFits | audio/pcm.c:194-204 | the product fits 64 bits whenever that of the whole buffer does |
| AudioPointer.AudioStream.StartIo | audio/pcm.c:227-240 | a start clears the floor and waits for a timestamp |
| AudioPointer.AudioStream.HandleTimestamp | audio/pcm.c:403-424 | the timestamp is taken over, the first one reports no period, and a closed stream ignores it |
| AudioPointer.AudioStream.Pointer | audio/pcm.c:295-327 | the position and the new floor are those of the model, within the buffer |
| FixedPoint.RoundTrip | audio/audio.c:442-463 | for magnitudes below 16,384,000 thousandths converting to binary32 and back keeps the sign and the value exactly for multiples of 125 and otherwise loses exactly one thousandth of magnitude |
| FixedPoint.LimitIsSharp | audio/audio.c:457-461 | at 16,384,003 two thousandths are lost, so the limit cannot be raised past 2^14 |
| FixedPoint.ToMilliFits | audio/audio.c:403-422 | no word the device reports makes the conversion leave 64 bits |
| FixedPoint.ToMilliMeans | audio/audio.c:403-422 | for every word the result is its value in thousandths rounded towards zero, with its sign, and 0 for zero, subnormal, far too small and too large ones |
| FixedPoint.ExactIff | audio/audio.c:454-461 | nothing is lost in the significand if and only if 125 divides the value |
| FixedPoint.LossBelowOne | audio/audio.c:454-461 | what truncation loses is below one thousandth |
| FixedPoint.FieldsOf | audio/audio.c:462-462 | sign, exponent and fraction of the built word are those it was built from |
| FixedPoint.PutThenGet | audio/audio.c:488-515 | put then get returns the same step if and only if the level is at or below 0 dB, the range starts at a multiple of 125, or the step is 0; otherwise exactly one step less |
| FixedPoint.VolumeControl.Get | audio/audio.c:488-501 | passes a failed read on; otherwise the step is that of the clamped level, within the control's range |
| FixedPoint.VolumeControl.Put | audio/audio.c:503-515 | refuses steps out of range, passes a failed write on, and touches the device in neither case; otherwise leaves it within one thousandth |

## Left out

- Real time, memory barriers and the waiting inside `bce_reserve_submission`: timeouts and waits are free choices.
- PCI, MMIO doorbells, DMA mapping, device links, module parameters, ALSA and hub glue, the mailbox, save and restore.
- Isochronous packet lengths (vhci/transfer.c:787-803) and the segment lists of large URBs.
- Reservations on the message queue shared by all endpoints are outcomes chosen by the run, not that ring's state.
- Resubmission of OUT URBs on resume: the C code always uses the IN path, so a run resumes an OUT endpoint only while none of its URBs waits for completion.
- `TransferQueueClass` has no methods for the reset worker and bus suspend; they are steps of `TransferRuns` on values.
- Event queue refill and drain (vhci/queue.c:104-186): the loops are those of the audio inbound ring and the firmware worker.
- What a firmware event does to its endpoint (vhci/vhci.c:970-1018): only which messages are handled, and in which order.
- The masks for forced re-enumeration and the in-place branch of resume (vhci/vhci.c:651-685): they leave the mapping as it is.
- The refresh part of resume is modelled as steps only; `DeviceTable` has no method for it.
- USB core is trusted to run one enable, free, reset or resume at a time per port.
- `aaudio_f64_milli`, mixer naming, format tables and the field-by-field readers and writers of audio/protocol.c.
- TransferQueueClass.TransferQueue.DataTransferCompletion: does not model the isochronous packet lengths.
- TransferQueueClass.TransferQueue.Giveback: states the undisturbed loop; what interleaves at each unlock is in the runs of `TransferRuns`, where popping and handing back are separate steps.
- TransferQueueClass.TransferQueue.Pause: the wait for outputs, SET_STATE and the flush commands are one outcome; the runs have them as separate steps.
- TransferQueueClass.TransferQueue.Resume: SET_STATE ACTIVE is one outcome and nothing interleaves; the runs have separate steps.
- TransferQueueClass.TransferQueue.FlushWork: states the undisturbed worker; interleavings are in the runs.
- SubmissionRing.SubmissionQueue.Reserve: does not wait for a credit; a wait that ends is a later attempt.
- InterruptPass.CompletionQueue.Poll: elements the device adds while the loop runs are those of the next poll.
- CommandExecute.CommandQueue.Destroy: the mutex handshake that waits for a caller inside is not part of it.
- FirmwareEvents.Worker.HandleEvents: the batch is what was harvested at entry, and what handling a message does to its endpoint is not modelled.
- AudioPointer.AudioStream.StartIo: the backup and restore of the buffer around start_io are not modelled.
- CommandExecute.ExecuteSafety: a reply is recognised by its command word alone, as in the source; which call the T2 meant it for is not modelled.
- TransferOut.ExactAttribution: assumes whole-buffer requests and no flush, because without them the code misattributes (see ExactIffWhole and RequestKeepsLawIff).
- TransferControl.SuccessIsOwn: assumes that no setup packet is sent while an answer is owed, because otherwise the code takes the older answer (see StaleRun and SetupIsOwnIff).
- AudioTags.RepliesReachTheirCommand: speaks of replies to commands; a reply to a notification sent with `aaudio_send`, whose tag is drawn but not registered, is not one the T2 sends.
