/** The per-endpoint USB transfer queue of vhci/transfer.c, as a value.

    One `Queue` is everything the lock `urb_lock` protects, the pause mask that
    `pause_lock` protects, and what the T2 still owes on the two submission rings.
    Every function below is one C function, or one lock-held region of it. */
module TransferModel {

  const EAGAIN := -11
  const ENOENT := -2
  const ENOMEM := -12
  const EINVAL := -22
  const EPIPE := -32
  const EIDRM := -43
  const ECONNRESET := -104

  const CMD_TRANSFER_REQUEST := 0x1000
  const CMD_CONTROL_TRANSFER_STATUS := 0x1005
  const STATUS_SUCCESS := 1
  const SETUP_PACKET_SIZE := 8
  const U32_RANGE := 0x1_0000_0000

  /** A ring of 0x100 entries keeps one entry free. */
  const RING_CREDITS := 255

  datatype UrbState =
    | InitPending
    | WaitingForTransferRequest
    | WaitingForCompletion
    | DataTransferComplete
    | ControlWaitingForSetupRequest
    | ControlWaitingForSetupCompletion
    | ControlComplete
    | Cancelled

  datatype Vurb = Vurb(
    id: nat,
    dirIn: bool,
    length: nat,
    state: UrbState,
    receivedStatus: nat,
    sendOffset: nat,
    receiveOffset: nat,
    actualLength: nat)

  datatype Message = Message(cmd: nat, status: nat, param2: nat)

  /** What bce_next_completion yields. */
  datatype Completion = Completion(aborted: bool, dataSize: nat)

  /** A submission the device has not answered yet. */
  datatype Submission = Submission(owner: nat, setup: bool, len: nat)

  /** Credits of a submission ring, and what the device still owes on it, oldest first. */
  datatype Ring = Ring(available: int, owed: seq<Submission>)

  /** An URB on its way back to the USB core. */
  datatype Done = Done(id: nat, status: int, actualLength: nat)

  /** The USB address of an endpoint decides all of these. */
  datatype Config = Config(maxActive: nat, control: bool, dirIn: bool)

  datatype PauseSource = InternalWq | Firmware | Suspend | Shutdown

  /** Who holds `pause_lock`, and how far it got. */
  datatype Holder =
    | Nobody
    | Pausing(src: PauseSource)
    | Resuming(src: PauseSource)
    | Resumed(src: PauseSource)
    | Resetting(marked: bool)
    | Suspending

  /** Whom a completion is taken for; a live URB is told the size it reports. */
  datatype Charge = ToLive(id: nat, size: nat) | ToCancelled(id: nat) | ToNobody

  /** What happened on the boundary, oldest first: a history variable. */
  datatype Note =
    | Sent(sub: Submission, wanted: nat)
    | Answered(sub: Submission, charge: Charge)
    | StatusReceived(id: nat, code: nat)
    | Finished(urb: Vurb, status: int)      // completed by the driver
    | Withdrawn(urb: Vurb, status: int)     // cancelled by the USB core

  /** The active-request accounting. */
  datatype Counters = Counters(
    remaining: int,                 // remaining_active_requests
    ghostIn: seq<nat>,              // its length is ghost_in_count; the cancelled URBs, oldest first
    ghostOut: seq<nat>)             // its length is ghost_out_count

  datatype Dma = Dma(
    sqIn: Ring,
    sqOut: Ring,
    sqOutPending: int,
    grants: seq<bool>)              // outcome of the next reservations on the shared message queue

  datatype Flags = Flags(active: bool, stalled: bool, resetQueued: bool, resumeQueued: bool)

  /** What a critical section on urb_lock works on. */
  datatype Core = Core(
    cfg: Config,
    urbs: seq<Vurb>,                // endp->urb_list
    evq: seq<Message>,
    giveback: seq<Done>,            // giveback_urb_list
    counters: Counters,
    dma: Dma,
    flags: Flags,
    log: seq<Note>)

  datatype Queue = Queue(
    core: Core,
    flushGiveback: seq<Done>,       // flush_giveback_list
    inHand: seq<Done>,              // unlinked by a caller that has not called the USB core yet
    given: seq<Done>,               // usb_hcd_giveback_urb was called
    flushQueued: bool,
    flushRunning: bool,             // the flush worker started and has not reset the counters yet
    pausedBy: set<PauseSource>,
    holder: Holder)

  /** The result of a C function that returns an errno. */
  datatype Outcome = Outcome(q: Core, status: int)

  /** bce_vhci_create_transfer_queue: 8 slots for bulk, 4 for isochronous, 1 otherwise. */
  predicate LegalConfig(cfg: Config) {
    && cfg.maxActive in {1, 4, 8}
    && (cfg.control ==> cfg.maxActive == 1)
  }

  function NewCore(cfg: Config): (q: Core) {
    Core(cfg, [], [], [], Counters(cfg.maxActive, [], []),
         Dma(Ring(RING_CREDITS, []), Ring(RING_CREDITS, []), 0, []),
         Flags(true, false, false, false), [])
  }

  function NewQueue(cfg: Config): (q: Queue) {
    Queue(NewCore(cfg), [], [], [], false, false, {}, Nobody)
  }

  // ---------------------------------------------------------------- URBs

  predicate CanInit(q: Core) { q.counters.remaining > 0 }

  function SetUrb(q: Core, i: nat, u: Vurb): (r: Core)
    requires i < |q.urbs|
  {
    q.(urbs := q.urbs[i := u])
  }

  function SetState(q: Core, i: nat, s: UrbState): (r: Core)
    requires i < |q.urbs|
  {
    SetUrb(q, i, q.urbs[i].(state := s))
  }

  function Without(urbs: seq<Vurb>, i: nat): (r: seq<Vurb>)
    requires i < |urbs|
  {
    urbs[..i] + urbs[i + 1..]
  }

  function Freed(c: Counters): Counters { c.(remaining := c.remaining + 1) }

  function Taken(c: Counters): Counters { c.(remaining := c.remaining - 1) }

  /** bce_vhci_urb_complete */
  function UrbComplete(q: Core, i: nat, status: int): (r: Core)
    requires i < |q.urbs|
  {
    var u := q.urbs[i];
    q.(urbs := Without(q.urbs, i),
       counters := if u.state != InitPending then Freed(q.counters) else q.counters,
       giveback := q.giveback + [Done(u.id, status, u.actualLength)],
       log := q.log + [Finished(u, status)])
  }

  function Submitted(r: Ring, sub: Submission): Ring { Ring(r.available - 1, r.owed + [sub]) }

  /** bce_reserve_submission on the message queue shared by all endpoints, then on sq_in. */
  function InReserved(d: Dma): bool {
    (d.grants == [] || d.grants[0]) && d.sqIn.available > 0
  }

  function RestGrants(d: Dma): seq<bool> { if d.grants == [] then [] else d.grants[1..] }

  /** bce_vhci_urb_data_transfer_in */
  function DataTransferIn(q: Core, i: nat): (r: Outcome)
    requires i < |q.urbs|
    ensures |r.q.urbs| == |q.urbs|
  {
    if !InReserved(q.dma) then
      Outcome(q.(dma := q.dma.(grants := RestGrants(q.dma))), ENOMEM)
    else
      var u := q.urbs[i];
      var len := (u.length - u.receiveOffset) % U32_RANGE;
      var sub := Submission(u.id, false, len);
      Outcome(
        q.(urbs := q.urbs[i := u.(sendOffset := u.receiveOffset, state := WaitingForCompletion)],
           dma := q.dma.(sqIn := Submitted(q.dma.sqIn, sub), grants := RestGrants(q.dma)),
           log := q.log + [Sent(sub, len)]),
        0)
  }

  /** bce_vhci_urb_data_start */
  function DataStart(q: Core, i: nat): (r: Outcome)
    requires i < |q.urbs|
    ensures |r.q.urbs| == |q.urbs|
  {
    if q.urbs[i].dirIn then DataTransferIn(q, i)
    else if q.urbs[i].length > 0 then Outcome(SetState(q, i, WaitingForTransferRequest), 0)
    else Outcome(SetState(q, i, DataTransferComplete), 0)
  }

  /** bce_vhci_urb_init */
  function UrbInit(q: Core, i: nat): (r: Outcome)
    requires i < |q.urbs|
    ensures |r.q.urbs| == |q.urbs|
  {
    if q.counters.remaining == 0 then
      Outcome(q, EINVAL)
    else
      var s := if q.cfg.control then Outcome(SetState(q, i, ControlWaitingForSetupRequest), 0) else DataStart(q, i);
      if s.status == 0 then Outcome(s.q.(counters := Taken(s.q.counters)), 0) else s
  }

  /** bce_vhci_urb_send_out_data; `wanted` is what was left to send. */
  function SendOut(q: Core, sub: Submission, wanted: nat): (r: Outcome) {
    if q.dma.sqOut.available <= 0 then
      Outcome(q, EPIPE)
    else
      Outcome(q.(dma := q.dma.(sqOut := Submitted(q.dma.sqOut, sub), sqOutPending := q.dma.sqOutPending + 1),
                 log := q.log + [Sent(sub, wanted)]),
              0)
  }

  function Min(a: nat, b: nat): nat { if a <= b then a else b }

  /** bce_vhci_urb_data_update */
  function DataUpdate(q: Core, i: nat, msg: Message): (r: Outcome)
    requires i < |q.urbs|
  {
    var u := q.urbs[i];
    if u.state == WaitingForTransferRequest && msg.cmd == CMD_TRANSFER_REQUEST then
      var wanted := (u.length - u.sendOffset) % U32_RANGE;
      var len := Min(wanted, msg.param2 % U32_RANGE);
      var s := SendOut(q, Submission(u.id, false, len), wanted);
      if s.status != 0 then s
      else Outcome(SetUrb(s.q, i, u.(sendOffset := (u.sendOffset + len) % U32_RANGE, state := WaitingForCompletion)), 0)
    else
      Outcome(q, EAGAIN)
  }

  /** bce_vhci_urb_data_transfer_completion */
  function DataTransferCompletion(q: Core, i: nat, c: Completion): (r: Outcome)
    requires i < |q.urbs|
  {
    var u := q.urbs[i];
    if u.state == WaitingForCompletion then
      var u1 := u.(receiveOffset := (u.receiveOffset + c.dataSize) % U32_RANGE);
      if u.dirIn || u1.receiveOffset >= u.length then
        var q2 := SetUrb(q, i, u1.(actualLength := u1.receiveOffset, state := DataTransferComplete));
        if q.cfg.control then Outcome(q2, 0) else Outcome(UrbComplete(q2, i, 0), ENOENT)
      else
        Outcome(SetUrb(q, i, u1), 0)
    else
      Outcome(q, 0)
  }

  /** bce_vhci_urb_control_check_status */
  function ControlCheckStatus(q: Core, i: nat): (r: Outcome)
    requires i < |q.urbs|
  {
    var u := q.urbs[i];
    if u.receivedStatus == 0 then
      Outcome(q, 0)
    else if u.state == DataTransferComplete
         || (u.receivedStatus != STATUS_SUCCESS
             && u.state != ControlWaitingForSetupRequest
             && u.state != ControlWaitingForSetupCompletion) then
      var q1 := SetState(q, i, ControlComplete);
      if u.receivedStatus != STATUS_SUCCESS then
        Outcome(UrbComplete(q1, i, EPIPE).(flags := Stalled(q1.flags)), ENOENT)
      else
        Outcome(UrbComplete(q1, i, 0), ENOENT)
    else
      Outcome(q, 0)
  }

  function Stalled(f: Flags): Flags { f.(active := false, stalled := true, resetQueued := true) }

  /** bce_vhci_urb_control_update */
  function ControlUpdate(q: Core, i: nat, msg: Message): (r: Outcome)
    requires i < |q.urbs|
  {
    var u := q.urbs[i];
    if msg.cmd == CMD_CONTROL_TRANSFER_STATUS then
      ControlCheckStatus(
        q.(urbs := q.urbs[i := u.(receivedStatus := msg.status)], log := q.log + [StatusReceived(u.id, msg.status)]), i)
    else if u.state == ControlWaitingForSetupRequest && msg.cmd == CMD_TRANSFER_REQUEST then
      var s := SendOut(q, Submission(u.id, true, SETUP_PACKET_SIZE), SETUP_PACKET_SIZE);
      if s.status != 0 then Outcome(s.q, 0)
      else Outcome(SetState(s.q, i, ControlWaitingForSetupCompletion), 0)
    else if u.state == WaitingForTransferRequest || u.state == WaitingForCompletion then
      var s := DataUpdate(q, i, msg);
      if s.status != 0 then s else ControlCheckStatus(s.q, i)
    else
      Outcome(q, EAGAIN)
  }

  /** bce_vhci_urb_control_transfer_completion */
  function ControlTransferCompletion(q: Core, i: nat, c: Completion): (r: Outcome)
    requires i < |q.urbs|
  {
    var u := q.urbs[i];
    if u.state == ControlWaitingForSetupCompletion then
      var s := DataStart(q, i);
      if s.status != 0 then Outcome(UrbComplete(s.q, i, s.status), ENOENT)
      else ControlCheckStatus(s.q, i)
    else if u.state == WaitingForTransferRequest || u.state == WaitingForCompletion then
      var s := DataTransferCompletion(q, i, c);
      if s.status != 0 then s else ControlCheckStatus(s.q, i)
    else
      Outcome(q, 0)
  }

  /** bce_vhci_urb_update */
  function UrbUpdate(q: Core, i: nat, msg: Message): (r: Outcome)
    requires i < |q.urbs|
  {
    if q.urbs[i].state == InitPending then Outcome(q, EAGAIN)
    else if q.cfg.control then ControlUpdate(q, i, msg)
    else DataUpdate(q, i, msg)
  }

  /** bce_vhci_urb_transfer_completion */
  function UrbTransferCompletion(q: Core, i: nat, c: Completion): (r: Outcome)
    requires i < |q.urbs|
  {
    if q.cfg.control then ControlTransferCompletion(q, i, c) else DataTransferCompletion(q, i, c)
  }

  // ---------------------------------------------------------------- loops

  /** bce_vhci_transfer_queue_init_pending_urbs, from list position i on. */
  function InitPendingFrom(q: Core, i: nat): (r: Core)
    decreases |q.urbs| - i
  {
    if i >= |q.urbs| || !CanInit(q) then q
    else
      var q1 := if q.urbs[i].state == InitPending then UrbInit(q, i).q else q;
      InitPendingFrom(q1, i + 1)
  }

  function InitPendingUrbs(q: Core): (r: Core) { InitPendingFrom(q, 0) }

  /** The while loop of bce_vhci_transfer_queue_deliver_pending. */
  function DeliverLoop(q: Core): (r: Core)
    decreases |q.evq|
  {
    if q.urbs == [] || q.evq == [] then q
    else
      var s := UrbUpdate(q, 0, q.evq[0]);
      if s.status == EAGAIN then s.q else DeliverLoop(s.q.(evq := q.evq[1..]))
  }

  /** bce_vhci_transfer_queue_deliver_pending */
  function DeliverPending(q: Core): (r: Core) { InitPendingUrbs(DeliverLoop(q)) }

  /** bce_vhci_transfer_queue_defer_event */
  function DeferEvent(q: Core, msg: Message, memory: bool): (r: Core) {
    if memory then q.(evq := q.evq + [msg])
    else q.(flags := q.flags.(stalled := true, resetQueued := true))
  }

  /** bce_vhci_transfer_queue_event, up to the release of urb_lock.
      `internal` says whether paused_by holds BCE_VHCI_PAUSE_INTERNAL_WQ. */
  function Event(q: Core, internal: bool, msg: Message, memory: bool): (r: Core) {
    if !q.flags.active then
      if msg.cmd == CMD_TRANSFER_REQUEST && q.cfg.control && internal
      then DeferEvent(q, msg, memory) else q
    else
      var d := DeliverPending(q);
      if msg.cmd == CMD_TRANSFER_REQUEST && (d.evq != [] || d.urbs == []) then DeferEvent(d, msg, memory)
      else if d.urbs == [] then d
      else
        var s := UrbUpdate(d, 0, msg);
        if s.status == EAGAIN then DeferEvent(s.q, msg, memory) else InitPendingUrbs(s.q)
  }

  // ---------------------------------------------------------------- completions

  function Owed(d: Dma, out: bool): seq<Submission> { if out then d.sqOut.owed else d.sqIn.owed }

  function Returned(r: Ring): Ring
    requires r.owed != []
  {
    Ring(r.available + 1, r.owed[1..])
  }

  /** bce_notify_submission_complete, with the sq_out_pending bookkeeping around it. */
  function Notify(q: Core, out: bool, charge: Charge): (r: Core)
    requires Owed(q.dma, out) != []
  {
    var d := q.dma;
    q.(dma := if out then d.(sqOut := Returned(d.sqOut),
                             sqOutPending := if d.sqOutPending > 0 then d.sqOutPending - 1 else d.sqOutPending)
              else d.(sqIn := Returned(d.sqIn)),
       log := q.log + [Answered(Owed(d, out)[0], charge)])
  }

  /** bce_next_completion on sq_in; its credit comes back with CreditIn. */
  function TakeIn(q: Core, charge: Charge): (r: Core)
    requires q.dma.sqIn.owed != []
  {
    q.(dma := q.dma.(sqIn := q.dma.sqIn.(owed := q.dma.sqIn.owed[1..])),
       log := q.log + [Answered(q.dma.sqIn.owed[0], charge)])
  }

  function CreditIn(q: Core): (r: Core) {
    q.(dma := q.dma.(sqIn := q.dma.sqIn.(available := q.dma.sqIn.available + 1)))
  }

  /** A ghost's completion on sq_in: pending URBs are started before the ring gets its entry back. */
  function GhostInDone(q: Core): (r: Core)
    requires q.dma.sqIn.owed != [] && q.counters.ghostIn != []
  {
    var k := q.counters;
    CreditIn(InitPendingUrbs(TakeIn(q, ToCancelled(k.ghostIn[0])).(counters := Freed(k).(ghostIn := k.ghostIn[1..]))))
  }

  /** One round of the loop in bce_vhci_transfer_queue_completion. */
  function CompleteOne(q: Core, out: bool, c: Completion): (r: Core)
    requires Owed(q.dma, out) != []
  {
    var k := q.counters;
    if c.aborted then
      Notify(q, out, ToNobody)
    else if !out && k.ghostIn != [] then
      GhostInDone(q)
    else if out && k.ghostOut != [] then
      InitPendingUrbs(Notify(q, out, ToCancelled(k.ghostOut[0])).(counters := Freed(k).(ghostOut := k.ghostOut[1..])))
    else if q.urbs == [] || q.urbs[0].state == InitPending then
      Notify(q, out, ToNobody)
    else
      UrbTransferCompletion(Notify(q, out, ToLive(q.urbs[0].id, c.dataSize)), 0, c).q
  }

  /** The loop of bce_vhci_transfer_queue_completion over the records harvested so far. */
  function CompleteLoop(q: Core, out: bool, cs: seq<Completion>): (r: Core)
    decreases |cs|
  {
    if cs == [] || Owed(q.dma, out) == [] then q
    else CompleteLoop(CompleteOne(q, out, cs[0]), out, cs[1..])
  }

  /** bce_vhci_transfer_queue_completion, up to the release of urb_lock. */
  function CompletionHandler(q: Core, out: bool, cs: seq<Completion>): (r: Core) {
    DeliverPending(CompleteLoop(q, out, cs))
  }

  // ---------------------------------------------------------------- submit, cancel, flush

  /** The part of bce_vhci_urb_create that depends on the queue being active. */
  function FirstInit(q: Core, internal: bool, i: nat): (r: Outcome)
    requires i < |q.urbs|
    ensures |r.q.urbs| == |q.urbs|
  {
    if q.flags.active then
      if CanInit(q) then UrbInit(q, i) else Outcome(q, 0)
    else if q.flags.stalled then Outcome(q.(flags := q.flags.(resetQueued := true)), 0)
    else if internal then Outcome(q.(flags := q.flags.(resumeQueued := true)), 0)
    else Outcome(q, 0)
  }

  function FreshUrb(id: nat, dirIn: bool, length: nat): Vurb {
    Vurb(id, dirIn, length, InitPending, 0, 0, 0, 0)
  }

  /** bce_vhci_urb_create; `linkStatus` is what usb_hcd_link_urb_to_ep returned. */
  function UrbCreate(q: Core, internal: bool, id: nat, dirIn: bool, length: nat, linkStatus: int): (r: Outcome) {
    if linkStatus != 0 then
      Outcome(q, linkStatus)
    else
      var s := FirstInit(q.(urbs := q.urbs + [FreshUrb(id, dirIn, length)]), internal, |q.urbs|);
      if s.status != 0 then Outcome(s.q.(urbs := Without(s.q.urbs, |q.urbs|)), s.status)
      else Outcome(DeliverPending(s.q), 0)
  }

  function IndexOf(urbs: seq<Vurb>, id: nat): (i: nat)
    ensures i <= |urbs|
    ensures i < |urbs| ==> urbs[i].id == id
    ensures forall k :: 0 <= k < i ==> urbs[k].id != id
  {
    if urbs == [] || urbs[0].id == id then 0 else 1 + IndexOf(urbs[1..], id)
  }

  /** The counters after bce_vhci_urb_request_cancel took the URB off its endpoint. */
  function ReleaseSlot(k: Counters, control: bool, u: Vurb): (r: Counters) {
    if u.state == InitPending || control then k
    else if u.state != WaitingForCompletion then Freed(k)
    else if u.dirIn then k.(ghostIn := k.ghostIn + [u.id])
    else k.(ghostOut := k.ghostOut + [u.id])
  }

  /** What bce_vhci_urb_request_cancel does to the endpoint list and its counters. */
  function CancelUrb(q: Core, i: nat): (r: Core)
    requires i < |q.urbs|
  {
    q.(urbs := Without(q.urbs, i), counters := ReleaseSlot(q.counters, q.cfg.control, q.urbs[i]))
  }

  function Withdraw(q: Core, u: Vurb, status: int): (r: Core) { q.(log := q.log + [Withdrawn(u, status)]) }

  /** bce_vhci_urb_request_cancel, up to the release of urb_lock: the queue, the errno. */
  function RequestCancel(q: Queue, id: nat, status: int): (r: (Queue, int)) {
    var i := IndexOf(q.core.urbs, id);
    if i == |q.core.urbs| then
      (q, EIDRM)            // usb_hcd_check_unlink_urb
    else
      var u := q.core.urbs[i];
      var c := Withdraw(CancelUrb(q.core, i), u, status);
      var done := Done(u.id, status, u.actualLength);
      if (c.cfg.control && u.state != InitPending)
         || ((c.counters.ghostIn != [] || c.counters.ghostOut != []) && c.urbs == []) then
        (q.(core := c, flushGiveback := q.flushGiveback + [done], flushQueued := true), 0)
      else
        (q.(core := c, inHand := q.inHand + [done]), 0)
  }

  /** The lock-held region of bce_vhci_transfer_queue_flush_w. */
  function FlushReset(q: Queue): (r: Queue) {
    q.(core := q.core.(counters := Counters(q.core.cfg.maxActive, [], []),
                       giveback := q.core.giveback + q.flushGiveback),
       flushGiveback := [], flushRunning := false)
  }

  /** The loop of bce_vhci_transfer_queue_cancel_all. */
  function CancelLoop(q: Core): (r: Core)
    decreases |q.urbs|
  {
    if q.urbs == [] then q else CancelLoop(UrbComplete(q, 0, ECONNRESET))
  }

  /** bce_vhci_transfer_queue_cancel_all, up to the release of urb_lock. */
  function CancelAll(q: Core): (r: Core) { CancelLoop(q.(flags := q.flags.(active := false))) }

  /** bce_vhci_destroy_transfer_queue: the workers are gone, their list is handed over. */
  function DestroySplice(q: Queue): (r: Queue) {
    q.(core := q.core.(giveback := q.core.giveback + q.flushGiveback),
       flushGiveback := [], flushQueued := false, flushRunning := false)
  }

  // ---------------------------------------------------------------- giveback

  /** One locked round of bce_vhci_transfer_queue_giveback. */
  function GivebackPop(q: Queue): (r: Queue)
    requires q.core.giveback != []
  {
    q.(core := q.core.(giveback := q.core.giveback[1..]), inHand := q.inHand + [q.core.giveback[0]])
  }

  /** usb_hcd_giveback_urb, called without urb_lock by whoever unlinked the URB. */
  function HandOver(q: Queue, k: nat): (r: Queue)
    requires k < |q.inHand|
  {
    q.(inHand := q.inHand[..k] + q.inHand[k + 1..], given := q.given + [q.inHand[k]])
  }

  // ---------------------------------------------------------------- resume

  /** bce_vhci_urb_resume: always the IN path. */
  function UrbResume(q: Core, i: nat): (r: Core)
    requires i < |q.urbs|
    ensures |r.urbs| == |q.urbs| || |r.urbs| == |q.urbs| - 1
  {
    if q.urbs[i].state == WaitingForCompletion then
      var s := DataTransferIn(q, i);
      if s.status != 0 then UrbComplete(s.q, i, s.status) else s.q
    else q
  }

  /** The loop of bce_vhci_transfer_queue_do_resume, from list position i on. */
  function ResumeFrom(q: Core, i: nat): (r: Core)
    decreases |q.urbs| - i
  {
    if i >= |q.urbs| then q
    else if q.urbs[i].state == InitPending then
      if !CanInit(q) then q else ResumeFrom(UrbInit(q, i).q, i + 1)
    else
      var q1 := UrbResume(q, i);
      ResumeFrom(q1, if |q1.urbs| < |q.urbs| then i else i + 1)
  }

  /** The lock-held region of bce_vhci_transfer_queue_do_resume. */
  function ResumeActivate(q: Core): (r: Core) {
    DeliverPending(ResumeFrom(q.(flags := q.flags.(active := true)), 0))
  }
}
