/** The transfer queue as the driver keeps it: fields updated in place, one method for each C function,
    each proved to be the step that TransferModel describes. */
module TransferQueueClass {
  import opened TransferModel
  import opened TransferRuns
  import opened TransferAccounting
  import opened TransferTheorems

  /** remaining_active_requests, ghost_in_count, ghost_out_count */
  datatype Counts = Counts(remaining: int, ghostIn: int, ghostOut: int)

  /** What the methods below that are whole critical sections keep: no counter underflows, the rings and
      sq_out_pending agree with the DMA in flight, endpoint 0 has no ghosts. */
  lemma LedgerKept(q: Queue, r: Core)
    requires Ledger(q) && Kept(q.core, r, 0)
    ensures Ledger(q.(core := r))
  {
  }

  lemma LedgerCreate(q: Queue, internal: bool, id: nat, dirIn: bool, length: nat, link: int)
    requires Ledger(q)
    ensures Ledger(q.(core := UrbCreate(q.core, internal, id, dirIn, length, link).q))
  {
    KeptUrbCreate(q.core, internal, id, dirIn, length, link, 0);
  }

  lemma LedgerCancel(q: Queue, id: nat, status: int)
    requires Ledger(q)
    ensures Ledger(RequestCancel(q, id, status).0)
  {
    CancelFrame(q, id, status);
  }

  class TransferQueue {
    const cfg: Config

    var urbs: seq<Vurb>
    var evq: seq<Message>
    var giveback: seq<Done>
    var flushGiveback: seq<Done>
    var given: seq<Done>
    var counts: Counts
    var dma: Dma
    var flags: Flags
    var flushQueued: bool
    var flushRunning: bool
    ghost var ghostIn: seq<nat>     // whose DMA each ghost count stands for
    ghost var ghostOut: seq<nat>
    ghost var inHand: seq<Done>     // URBs other callers are handing back
    var pausedBy: set<PauseSource>  // the bits of paused_by
    ghost var holder: Holder
    ghost var log: seq<Note>

    ghost predicate Valid()
      reads this
    {
      counts.ghostIn == |ghostIn| && counts.ghostOut == |ghostOut|
    }

    ghost function View(): Core
      reads this
    {
      Core(cfg, urbs, evq, giveback, Counters(counts.remaining, ghostIn, ghostOut), dma, flags, log)
    }

    ghost function Whole(): Queue
      reads this
    {
      Queue(View(), flushGiveback, inHand, given, flushQueued, flushRunning, pausedBy, holder)
    }

    constructor (cfg: Config)
      ensures Valid() && Whole() == NewQueue(cfg)
    {
      this.cfg := cfg;
      urbs, evq, giveback, flushGiveback, given := [], [], [], [], [];
      counts := Counts(cfg.maxActive, 0, 0);
      dma := Dma(Ring(RING_CREDITS, []), Ring(RING_CREDITS, []), 0, []);
      flags := Flags(true, false, false, false);
      flushQueued, flushRunning := false, false;
      ghostIn, ghostOut, inHand, pausedBy, holder, log := [], [], [], {}, Nobody, [];
    }

    method UrbComplete(i: nat, status: int)
      requires Valid() && i < |urbs|
      modifies this
      ensures Valid() && Whole() == old(Whole()).(core := TransferModel.UrbComplete(old(View()), i, status))
    {
      var u := urbs[i];
      urbs := urbs[..i] + urbs[i + 1..];
      if u.state != InitPending {
        counts := counts.(remaining := counts.remaining + 1);
      }
      giveback := giveback + [Done(u.id, status, u.actualLength)];
      log := log + [Finished(u, status)];
    }

    /** bce_reserve_submission on the shared message queue. */
    method ReserveMessage() returns (ok: bool)
      requires Valid()
      modifies this`dma
      ensures ok == (old(dma).grants == [] || old(dma).grants[0])
      ensures dma == old(dma).(grants := RestGrants(old(dma)))
    {
      ok := true;
      if dma.grants != [] {
        ok := dma.grants[0];
        dma := dma.(grants := dma.grants[1..]);
      }
    }

    method DataTransferIn(i: nat) returns (status: int)
      requires Valid() && i < |urbs|
      modifies this
      ensures Valid() && var s := TransferModel.DataTransferIn(old(View()), i);
        Whole() == old(Whole()).(core := s.q) && status == s.status
    {
      var message := ReserveMessage();
      if !message || dma.sqIn.available <= 0 {
        return ENOMEM;
      }
      var u := urbs[i];
      var len := (u.length - u.receiveOffset) % U32_RANGE;
      var sub := Submission(u.id, false, len);
      urbs := urbs[i := u.(sendOffset := u.receiveOffset, state := WaitingForCompletion)];
      dma := dma.(sqIn := Ring(dma.sqIn.available - 1, dma.sqIn.owed + [sub]));
      log := log + [Sent(sub, len)];
      return 0;
    }

    method SetUrbState(i: nat, s: UrbState)
      requires Valid() && i < |urbs|
      modifies this`urbs
      ensures Valid() && Whole() == old(Whole()).(core := SetState(old(View()), i, s))
    {
      urbs := urbs[i := urbs[i].(state := s)];
    }

    method DataStart(i: nat) returns (status: int)
      requires Valid() && i < |urbs|
      modifies this
      ensures Valid() && var s := TransferModel.DataStart(old(View()), i);
        Whole() == old(Whole()).(core := s.q) && status == s.status
    {
      if urbs[i].dirIn {
        status := DataTransferIn(i);
      } else if urbs[i].length > 0 {
        SetUrbState(i, WaitingForTransferRequest);
        status := 0;
      } else {
        SetUrbState(i, DataTransferComplete);
        status := 0;
      }
    }

    method UrbInit(i: nat) returns (status: int)
      requires Valid() && i < |urbs|
      modifies this
      ensures Valid() && var s := TransferModel.UrbInit(old(View()), i);
        Whole() == old(Whole()).(core := s.q) && status == s.status
    {
      if counts.remaining == 0 {
        return EINVAL;
      }
      if cfg.control {
        SetUrbState(i, ControlWaitingForSetupRequest);
        status := 0;
      } else {
        status := DataStart(i);
      }
      if status == 0 {
        counts := counts.(remaining := counts.remaining - 1);
      }
    }

    method SendOutData(sub: Submission, ghost wanted: nat) returns (status: int)
      requires Valid()
      modifies this
      ensures Valid() && var s := SendOut(old(View()), sub, wanted);
        Whole() == old(Whole()).(core := s.q) && status == s.status
    {
      if dma.sqOut.available <= 0 {
        return EPIPE;
      }
      dma := dma.(sqOut := Ring(dma.sqOut.available - 1, dma.sqOut.owed + [sub]), sqOutPending := dma.sqOutPending + 1);
      log := log + [Sent(sub, wanted)];
      return 0;
    }

    method DataUpdate(i: nat, msg: Message) returns (status: int)
      requires Valid() && i < |urbs|
      modifies this
      ensures Valid() && var s := TransferModel.DataUpdate(old(View()), i, msg);
        Whole() == old(Whole()).(core := s.q) && status == s.status
    {
      var u := urbs[i];
      if u.state == WaitingForTransferRequest && msg.cmd == CMD_TRANSFER_REQUEST {
        var wanted := (u.length - u.sendOffset) % U32_RANGE;
        var len := Min(wanted, msg.param2 % U32_RANGE);
        status := SendOutData(Submission(u.id, false, len), wanted);
        if status != 0 {
          return;
        }
        urbs := urbs[i := u.(sendOffset := (u.sendOffset + len) % U32_RANGE, state := WaitingForCompletion)];
        return 0;
      }
      return EAGAIN;
    }

    method DataTransferCompletion(i: nat, c: Completion) returns (status: int)
      requires Valid() && i < |urbs|
      modifies this
      ensures Valid() && var s := TransferModel.DataTransferCompletion(old(View()), i, c);
        Whole() == old(Whole()).(core := s.q) && status == s.status
    {
      var u := urbs[i];
      if u.state == WaitingForCompletion {
        u := u.(receiveOffset := (u.receiveOffset + c.dataSize) % U32_RANGE);
        if u.dirIn || u.receiveOffset >= u.length {
          u := u.(actualLength := u.receiveOffset, state := DataTransferComplete);
          urbs := urbs[i := u];
          if !cfg.control {
            UrbComplete(i, 0);
            return ENOENT;
          }
        } else {
          urbs := urbs[i := u];
        }
      }
      return 0;
    }

    method ControlCheckStatus(i: nat) returns (status: int)
      requires Valid() && i < |urbs|
      modifies this
      ensures Valid() && var s := TransferModel.ControlCheckStatus(old(View()), i);
        Whole() == old(Whole()).(core := s.q) && status == s.status
    {
      var u := urbs[i];
      if u.receivedStatus == 0 {
        return 0;
      }
      if u.state == DataTransferComplete
         || (u.receivedStatus != STATUS_SUCCESS
             && u.state != ControlWaitingForSetupRequest
             && u.state != ControlWaitingForSetupCompletion)
      {
        SetUrbState(i, ControlComplete);
        if u.receivedStatus != STATUS_SUCCESS {
          flags := flags.(active := false, stalled := true);
          UrbComplete(i, EPIPE);
          flags := flags.(resetQueued := true);
          return ENOENT;
        }
        UrbComplete(i, 0);
        return ENOENT;
      }
      return 0;
    }

    method ControlUpdate(i: nat, msg: Message) returns (status: int)
      requires Valid() && i < |urbs|
      modifies this
      ensures Valid() && var s := TransferModel.ControlUpdate(old(View()), i, msg);
        Whole() == old(Whole()).(core := s.q) && status == s.status
    {
      var u := urbs[i];
      if msg.cmd == CMD_CONTROL_TRANSFER_STATUS {
        urbs := urbs[i := u.(receivedStatus := msg.status)];
        log := log + [StatusReceived(u.id, msg.status)];
        status := ControlCheckStatus(i);
        return;
      }
      if u.state == ControlWaitingForSetupRequest {
        if msg.cmd == CMD_TRANSFER_REQUEST {
          status := SendOutData(Submission(u.id, true, SETUP_PACKET_SIZE), SETUP_PACKET_SIZE);
          if status != 0 {
            return 0;
          }
          SetUrbState(i, ControlWaitingForSetupCompletion);
          return 0;
        }
      } else if u.state == WaitingForTransferRequest || u.state == WaitingForCompletion {
        status := DataUpdate(i, msg);
        if status != 0 {
          return;
        }
        status := ControlCheckStatus(i);
        return;
      }
      return EAGAIN;
    }

    method ControlTransferCompletion(i: nat, c: Completion) returns (status: int)
      requires Valid() && i < |urbs|
      modifies this
      ensures Valid() && var s := TransferModel.ControlTransferCompletion(old(View()), i, c);
        Whole() == old(Whole()).(core := s.q) && status == s.status
    {
      if urbs[i].state == ControlWaitingForSetupCompletion {
        status := DataStart(i);
        if status != 0 {
          UrbComplete(i, status);
          return ENOENT;
        }
        status := ControlCheckStatus(i);
      } else if urbs[i].state == WaitingForTransferRequest || urbs[i].state == WaitingForCompletion {
        status := DataTransferCompletion(i, c);
        if status != 0 {
          return;
        }
        status := ControlCheckStatus(i);
      } else {
        status := 0;
      }
    }

    method UrbUpdate(i: nat, msg: Message) returns (status: int)
      requires Valid() && i < |urbs|
      modifies this
      ensures Valid() && var s := TransferModel.UrbUpdate(old(View()), i, msg);
        Whole() == old(Whole()).(core := s.q) && status == s.status
    {
      if urbs[i].state == InitPending {
        status := EAGAIN;
      } else if cfg.control {
        status := ControlUpdate(i, msg);
      } else {
        status := DataUpdate(i, msg);
      }
    }

    method UrbTransferCompletion(i: nat, c: Completion)
      requires Valid() && i < |urbs|
      modifies this
      ensures Valid() && Whole() == old(Whole()).(core := TransferModel.UrbTransferCompletion(old(View()), i, c).q)
    {
      if cfg.control {
        var _ := ControlTransferCompletion(i, c);
      } else {
        var _ := DataTransferCompletion(i, c);
      }
    }

    method InitPendingUrbs()
      requires Valid()
      modifies this
      ensures Valid() && Whole() == old(Whole()).(core := TransferModel.InitPendingUrbs(old(View())))
    {
      var i := 0;
      while i < |urbs| && counts.remaining > 0
        invariant Valid() && i <= |urbs|
        invariant InitPendingFrom(View(), i) == TransferModel.InitPendingUrbs(old(View()))
        invariant Whole() == old(Whole()).(core := View())
        decreases |urbs| - i
      {
        if urbs[i].state == InitPending {
          var _ := UrbInit(i);
        }
        i := i + 1;
      }
    }

    method DeliverPending()
      requires Valid()
      modifies this
      ensures Valid() && Whole() == old(Whole()).(core := TransferModel.DeliverPending(old(View())))
    {
      var again := true;
      while again && urbs != [] && evq != []
        invariant Valid()
        invariant (if again then DeliverLoop(View()) else View()) == DeliverLoop(old(View()))
        invariant Whole() == old(Whole()).(core := View())
        decreases again, |evq|
      {
        var lm, rest := evq[0], evq[1..];
        var status := UrbUpdate(0, lm);
        if status == EAGAIN {
          again := false;
        } else {
          evq := rest;
        }
      }
      InitPendingUrbs();
    }

    method DeferEvent(msg: Message, memory: bool)
      requires Valid()
      modifies this
      ensures Valid() && Whole() == old(Whole()).(core := TransferModel.DeferEvent(old(View()), msg, memory))
    {
      if memory {
        evq := evq + [msg];
      } else {
        flags := flags.(stalled := true, resetQueued := true);
      }
    }

    method Event(internal: bool, msg: Message, memory: bool)
      requires Valid()
      modifies this
      ensures Valid() && Whole() == old(Whole()).(core := TransferModel.Event(old(View()), internal, msg, memory))
      ensures old(Ledger(Whole())) ==> Ledger(Whole())
    {
      ghost var before := Whole();
      if Ledger(before) {
        KeptEvent(before.core, internal, msg, memory, 0);
        LedgerKept(before, TransferModel.Event(before.core, internal, msg, memory));
      }
      if !flags.active {
        if msg.cmd == CMD_TRANSFER_REQUEST && cfg.control && internal {
          DeferEvent(msg, memory);
        }
        return;
      }
      DeliverPending();
      if msg.cmd == CMD_TRANSFER_REQUEST && (evq != [] || urbs == []) {
        DeferEvent(msg, memory);
        return;
      }
      if urbs == [] {
        return;
      }
      var status := UrbUpdate(0, msg);
      if status == EAGAIN {
        DeferEvent(msg, memory);
      } else {
        InitPendingUrbs();
      }
    }

    /** bce_notify_submission_complete and the sq_out_pending bookkeeping. */
    method NotifyComplete(out: bool, ghost charge: Charge)
      requires Valid() && Owed(View().dma, out) != []
      modifies this
      ensures Valid() && Whole() == old(Whole()).(core := Notify(old(View()), out, charge))
    {
      if out {
        log := log + [Answered(dma.sqOut.owed[0], charge)];
        if dma.sqOutPending > 0 {
          dma := dma.(sqOutPending := dma.sqOutPending - 1);
        }
        dma := dma.(sqOut := Ring(dma.sqOut.available + 1, dma.sqOut.owed[1..]));
      } else {
        log := log + [Answered(dma.sqIn.owed[0], charge)];
        dma := dma.(sqIn := Ring(dma.sqIn.available + 1, dma.sqIn.owed[1..]));
      }
    }

    method AbsorbGhostIn()
      requires Valid() && dma.sqIn.owed != [] && counts.ghostIn > 0
      modifies this
      ensures Valid() && var k := old(View()).counters;
        Whole() == old(Whole()).(core := TakeIn(old(View()), ToCancelled(k.ghostIn[0])).(
                                           counters := Freed(k).(ghostIn := k.ghostIn[1..])))
    {
      log := log + [Answered(dma.sqIn.owed[0], ToCancelled(ghostIn[0]))];
      dma := dma.(sqIn := dma.sqIn.(owed := dma.sqIn.owed[1..]));
      counts := counts.(ghostIn := counts.ghostIn - 1, remaining := counts.remaining + 1);
      ghostIn := ghostIn[1..];
    }

    /** The ghost branch for sq_in, with the credit returned last. */
    method GhostInDone()
      requires Valid() && dma.sqIn.owed != [] && counts.ghostIn > 0
      modifies this
      ensures Valid() && Whole() == old(Whole()).(core := TransferModel.GhostInDone(old(View())))
    {
      AbsorbGhostIn();
      InitPendingUrbs();
      dma := dma.(sqIn := dma.sqIn.(available := dma.sqIn.available + 1));
    }

    method CompleteOne(out: bool, c: Completion)
      requires Valid() && Owed(View().dma, out) != []
      modifies this
      ensures Valid() && Whole() == old(Whole()).(core := TransferModel.CompleteOne(old(View()), out, c))
    {
      if c.aborted {
        NotifyComplete(out, ToNobody);
      } else if !out && counts.ghostIn > 0 {
        GhostInDone();
      } else if out && counts.ghostOut > 0 {
        NotifyComplete(out, ToCancelled(ghostOut[0]));
        counts := counts.(ghostOut := counts.ghostOut - 1, remaining := counts.remaining + 1);
        ghostOut := ghostOut[1..];
        InitPendingUrbs();
      } else if urbs == [] || urbs[0].state == InitPending {
        NotifyComplete(out, ToNobody);
      } else {
        NotifyComplete(out, ToLive(urbs[0].id, c.dataSize));
        UrbTransferCompletion(0, c);
      }
    }

    method Completion(out: bool, cs: seq<Completion>)
      requires Valid()
      modifies this
      ensures Valid() && Whole() == old(Whole()).(core := CompletionHandler(old(View()), out, cs))
      ensures old(Ledger(Whole())) ==> Ledger(Whole())
    {
      ghost var before := Whole();
      if Ledger(before) {
        KeptCompletionHandler(before.core, out, cs, 0);
        LedgerKept(before, CompletionHandler(before.core, out, cs));
      }
      var rest := cs;
      while rest != [] && (if out then dma.sqOut.owed else dma.sqIn.owed) != []
        invariant Valid()
        invariant CompleteLoop(View(), out, rest) == CompleteLoop(old(View()), out, cs)
        invariant Whole() == old(Whole()).(core := View())
        decreases |rest|
      {
        CompleteOne(out, rest[0]);
        rest := rest[1..];
      }
      DeliverPending();
    }

    method FirstInit(internal: bool, i: nat) returns (status: int)
      requires Valid() && i < |urbs|
      modifies this
      ensures Valid() && var s := TransferModel.FirstInit(old(View()), internal, i);
        Whole() == old(Whole()).(core := s.q) && status == s.status
    {
      status := 0;
      if flags.active {
        if counts.remaining > 0 {
          status := UrbInit(i);
        }
      } else if flags.stalled {
        flags := flags.(resetQueued := true);
      } else if internal {
        flags := flags.(resumeQueued := true);
      }
    }

    method UrbCreate(internal: bool, id: nat, dirIn: bool, length: nat, linkStatus: int) returns (status: int)
      requires Valid()
      modifies this
      ensures Valid() && var s := TransferModel.UrbCreate(old(View()), internal, id, dirIn, length, linkStatus);
        Whole() == old(Whole()).(core := s.q) && status == s.status
      ensures old(Ledger(Whole())) ==> Ledger(Whole())
    {
      ghost var before := Whole();
      if Ledger(before) {
        LedgerCreate(before, internal, id, dirIn, length, linkStatus);
      }
      if linkStatus != 0 {
        return linkStatus;
      }
      var i := |urbs|;
      urbs := urbs + [FreshUrb(id, dirIn, length)];
      status := FirstInit(internal, i);
      if status != 0 {
        urbs := urbs[..i] + urbs[i + 1..];
      } else {
        DeliverPending();
      }
    }

    /** Search the endpoint list, as usb_hcd_check_unlink_urb does. */
    method Find(id: nat) returns (i: nat)
      ensures i == IndexOf(urbs, id)
    {
      i := 0;
      while i < |urbs| && urbs[i].id != id
        invariant i <= |urbs|
        invariant forall k :: 0 <= k < i ==> urbs[k].id != id
      {
        i := i + 1;
      }
      var j := IndexOf(urbs, id);
      assert i <= j && j <= i;
    }

    /** Free the active request slot, or leave it to a ghost or to the flush worker; then unlink. */
    method CancelUrb(i: nat)
      requires Valid() && i < |urbs|
      modifies this
      ensures Valid() && Whole() == old(Whole()).(core := TransferModel.CancelUrb(old(View()), i))
    {
      var u := urbs[i];
      if u.state != InitPending && !cfg.control {
        if u.state != WaitingForCompletion {
          counts := counts.(remaining := counts.remaining + 1);
        } else if u.dirIn {
          counts := counts.(ghostIn := counts.ghostIn + 1);
          ghostIn := ghostIn + [u.id];
        } else {
          counts := counts.(ghostOut := counts.ghostOut + 1);
          ghostOut := ghostOut + [u.id];
        }
      }
      urbs := urbs[..i] + urbs[i + 1..];
    }

    method TakeOff(i: nat, ghost status: int)
      requires Valid() && i < |urbs|
      modifies this
      ensures Valid()
      ensures Whole() ==
              old(Whole()).(core := Withdraw(TransferModel.CancelUrb(old(View()), i), old(urbs[i]), status))
    {
      ghost var u := urbs[i];
      CancelUrb(i);
      log := log + [Withdrawn(u, status)];
    }

    method RequestCancel(id: nat, status: int) returns (ret: int)
      requires Valid()
      modifies this
      ensures Valid() && (Whole(), ret) == TransferModel.RequestCancel(old(Whole()), id, status)
      ensures old(Ledger(Whole())) ==> Ledger(Whole())
    {
      ghost var before := Whole();
      if Ledger(before) {
        LedgerCancel(before, id, status);
      }
      var i := Find(id);
      if i == |urbs| {
        return EIDRM;
      }
      var u := urbs[i];
      TakeOff(i, status);
      var done := Done(u.id, status, u.actualLength);
      if (cfg.control && u.state != InitPending) || ((counts.ghostIn > 0 || counts.ghostOut > 0) && urbs == []) {
        flushGiveback := flushGiveback + [done];
        flushQueued := true;
      } else {
        inHand := inHand + [done];
      }
      return 0;
    }

    method ForgetGhosts()
      requires Valid()
      modifies this`counts, this`ghostIn, this`ghostOut
      ensures Valid()
      ensures Whole() == old(Whole()).(core := old(View()).(counters := Counters(cfg.maxActive, [], [])))
    {
      counts := Counts(cfg.maxActive, 0, 0);
      ghostIn, ghostOut := [], [];
    }

    method FlushReset()
      requires Valid()
      modifies this
      ensures Valid() && Whole() == TransferModel.FlushReset(old(Whole()))
      ensures old(Ledger(Whole())) ==> Ledger(Whole())
    {
      ForgetGhosts();
      giveback, flushGiveback := giveback + flushGiveback, [];
      flushRunning := false;
    }

    method CancelAll()
      requires Valid()
      modifies this
      ensures Valid() && Whole() == old(Whole()).(core := TransferModel.CancelAll(old(View())))
      ensures urbs == []
      ensures old(Ledger(Whole())) ==> Ledger(Whole())
    {
      ghost var before := Whole();
      if Ledger(before) {
        var off := before.(core := before.core.(flags := before.core.flags.(active := false)));
        KeptCancelLoop(off.core, 0);
        LedgerKept(off, CancelLoop(off.core));
      }
      flags := flags.(active := false);
      while urbs != []
        invariant Valid()
        invariant CancelLoop(View()) == TransferModel.CancelAll(old(View()))
        invariant Whole() == old(Whole()).(core := View())
        decreases |urbs|
      {
        UrbComplete(0, ECONNRESET);
      }
    }

    /** bce_vhci_transfer_queue_giveback when nobody else takes the lock in between: every URB on the list
        reaches the USB core, in order. */
    method Giveback()
      requires Valid()
      modifies this
      ensures Valid() && giveback == [] && given == old(given) + old(giveback)
      ensures Whole() == old(Whole()).(core := old(View()).(giveback := []), given := given)
    {
      while giveback != []
        invariant Valid()
        invariant given + giveback == old(given) + old(giveback)
        invariant Whole() == old(Whole()).(core := old(View()).(giveback := giveback), given := given)
        decreases |giveback|
      {
        var done := giveback[0];
        giveback := giveback[1..];
        given := given + [done];
      }
    }

    method UrbResume(i: nat)
      requires Valid() && i < |urbs|
      modifies this
      ensures Valid() && Whole() == old(Whole()).(core := TransferModel.UrbResume(old(View()), i))
    {
      if urbs[i].state == WaitingForCompletion {
        var status := DataTransferIn(i);
        if status != 0 {
          UrbComplete(i, status);
        }
      }
    }

    /** The lock-held region of bce_vhci_transfer_queue_do_resume. */
    method ResumeActivate()
      requires Valid()
      modifies this
      ensures Valid() && Whole() == old(Whole()).(core := TransferModel.ResumeActivate(old(View())))
      ensures old(Ledger(Whole())) ==> Ledger(Whole())
    {
      ghost var before := Whole();
      if Ledger(before) {
        var on := before.(core := before.core.(flags := before.core.flags.(active := true)));
        KeptResumeActivate(before.core, 0);
        LedgerKept(on, TransferModel.ResumeActivate(before.core));
      }
      flags := flags.(active := true);
      var i, again := 0, true;
      ghost var start := View();
      while again && i < |urbs|
        invariant Valid() && i <= |urbs|
        invariant (if again then ResumeFrom(View(), i) else View()) == ResumeFrom(start, 0)
        invariant Whole() == old(Whole()).(core := View())
        decreases again, |urbs| - i
      {
        if urbs[i].state == InitPending {
          if counts.remaining <= 0 {
            again := false;
          } else {
            var _ := UrbInit(i);
            i := i + 1;
          }
        } else {
          var n := |urbs|;
          UrbResume(i);
          if |urbs| == n {
            i := i + 1;
          }
        }
      }
      DeliverPending();
    }

    /** bce_vhci_transfer_queue_pause; `ok` is whether do_pause succeeded. */
    method Pause(src: PauseSource, ok: bool)
      requires Valid()
      modifies this
      ensures Valid() && Whole() == Paused(old(Whole()), src, ok)
    {
      if src !in pausedBy {
        if pausedBy == {} {
          flags := flags.(active := false);
          evq := [];
        }
        if pausedBy != {} || ok {
          pausedBy := pausedBy + {src};
        }
      }
    }

    /** bce_vhci_transfer_queue_resume; `ok` is whether SET_STATE ACTIVE succeeded. */
    method Resume(src: PauseSource, ok: bool)
      requires Valid()
      modifies this
      ensures Valid() && Whole() == Released(old(Whole()), src, ok)
    {
      if src in pausedBy {
        if pausedBy - {src} == {} {
          if !ok {
            return;
          }
          ResumeActivate();
        }
        pausedBy := pausedBy - {src};
      }
    }

    /** bce_vhci_transfer_queue_flush_w: pause, reset the counters, resume, give back. The endpoint reset it sends on
        endpoint 0 changes nothing here. */
    method FlushWork(pauseOk: bool, resumeOk: bool)
      requires Valid()
      modifies this
      ensures Valid() && Whole() == Flushed(old(Whole()), pauseOk, resumeOk)
    {
      Pause(InternalWq, pauseOk);
      FlushReset();
      Resume(InternalWq, resumeOk);
      Giveback();
    }
  }

  /** An undisturbed flush worker. */
  function Flushed(q: Queue, pauseOk: bool, resumeOk: bool): Queue {
    var r := Released(FlushReset(Paused(q, InternalWq, pauseOk)), InternalWq, resumeOk);
    r.(given := r.given + r.core.giveback, core := r.core.(giveback := []))
  }

  /** An undisturbed pause. */
  function Paused(q: Queue, src: PauseSource, ok: bool): Queue {
    if src in q.pausedBy then q
    else if q.pausedBy != {} then q.(pausedBy := q.pausedBy + {src})
    else Inactive(q.(core := q.core.(evq := []), pausedBy := if ok then {src} else {}))
  }

  /** An undisturbed resume. */
  function Released(q: Queue, src: PauseSource, ok: bool): Queue {
    if src !in q.pausedBy then q
    else if q.pausedBy - {src} == {} && !ok then q
    else q.(core := if q.pausedBy - {src} == {} then ResumeActivate(q.core) else q.core, pausedBy := q.pausedBy - {src})
  }

  /** Undisturbed, the steps of a run amount to this. */
  lemma PausedIsSteps(q: Queue, src: PauseSource, ok: bool)
    requires q.holder == Nobody
    ensures var q1 := Apply(q, PauseStart(src));
      Paused(q, src, ok) == if q1.holder == Nobody then q1 else Apply(Apply(q1, PauseDropEvents), PauseEnd(ok))
  {
    assert {} + {src} == {src};
  }
}
