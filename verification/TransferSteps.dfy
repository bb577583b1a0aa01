/** What single operations of the transfer queue promise, written out: submit, cancel, pause, resume and reset, and
    events that come while an endpoint is paused. */
module TransferSteps {
  import opened TransferModel
  import opened TransferRuns
  import opened TransferAccounting
  import opened TransferTheorems
  import opened TransferIn
  import opened TransferWitness
  import opened TransferShort
  import opened TransferStale

  // ---------------------------------------------------------------- submit

  /** A submission that finds no reservation fails with -ENOMEM and leaves no trace. */
  lemma FailedSubmit(q: Core, internal: bool, id: nat, length: nat)
    requires InConfig(q.cfg) && q.flags.active && CanInit(q) && !InReserved(q.dma)
    ensures var s := UrbCreate(q, internal, id, true, length, 0);
      s.status == -12 && s.q == q.(dma := q.dma.(grants := if q.dma.grants == [] then [] else q.dma.grants[1..]))
  {
    var q1 := q.(urbs := q.urbs + [FreshUrb(id, true, length)]);
    assert Without(q1.urbs, |q.urbs|) == q.urbs;
  }

  /** A refusal of the USB core is passed on and nothing happens. */
  lemma RefusedSubmit(q: Core, internal: bool, id: nat, dirIn: bool, length: nat, link: int)
    requires link != 0
    ensures UrbCreate(q, internal, id, dirIn, length, link) == Outcome(q, link)
  {
  }

  /** A submission to an inactive queue asks for what will wake it: the reset of a stalled one, the resume of one that
      the driver itself paused, nothing for one held by somebody else. */
  lemma SubmitAsks(q: Core, internal: bool, i: nat)
    requires i < |q.urbs| && !q.flags.active
    ensures var s := FirstInit(q, internal, i);
      && s.status == 0 && s.q == q.(flags := s.q.flags)
      && s.q.flags.active == false && s.q.flags.stalled == q.flags.stalled
      && (s.q.flags.resetQueued <==> q.flags.resetQueued || q.flags.stalled)
      && (s.q.flags.resumeQueued <==> q.flags.resumeQueued || (internal && !q.flags.stalled))
  {
  }

  // ---------------------------------------------------------------- cancel

  /** An URB that is not listed cannot be cancelled: -EIDRM, and nothing happens. */
  lemma CancelUnknown(q: Queue, id: nat, status: int)
    requires forall i :: 0 <= i < |q.core.urbs| ==> q.core.urbs[i].id != id
    ensures RequestCancel(q, id, status) == (q, -43)
  {
    assert IndexOf(q.core.urbs, id) == |q.core.urbs|;
  }

  /** A cancelled URB goes straight back, or waits for the flush worker, which is then queued. It waits exactly when the
      T2 may still use its memory and nobody else on the endpoint keeps the T2 busy: a control URB that was started, or
      the last URB while cancelled transfers are in flight. */
  lemma CancelWaitsIff(q: Queue, i: nat, status: int)
    requires i < |q.core.urbs| && forall k :: 0 <= k < i ==> q.core.urbs[k].id != q.core.urbs[i].id
    ensures var u := q.core.urbs[i]; var done := Done(u.id, status, u.actualLength);
      var (r, ret) := RequestCancel(q, u.id, status);
      var inFlight := Ghosts(q.core.counters) > 0 || (!q.core.cfg.control && u.state == WaitingForCompletion);
      var waits := if q.core.cfg.control && u.state != InitPending then true else inFlight && |q.core.urbs| == 1;
      && ret == 0
      && r.flushGiveback == (if waits then q.flushGiveback + [done] else q.flushGiveback)
      && r.inHand == (if waits then q.inHand else q.inHand + [done])
      && r.flushQueued == (q.flushQueued || waits)
  {
    assert IndexOf(q.core.urbs, q.core.urbs[i].id) == i;
  }

  /** bce_vhci_transfer_queue_cancel_all: every URB goes back with -ECONNRESET, in list order. */
  function AllReset(urbs: seq<Vurb>): (ds: seq<Done>)
    ensures |ds| == |urbs| && forall k :: 0 <= k < |urbs| ==> ds[k] == Done(urbs[k].id, -104, urbs[k].actualLength)
  {
    if urbs == [] then [] else [Done(urbs[0].id, -104, urbs[0].actualLength)] + AllReset(urbs[1..])
  }

  lemma ResetFirst(giveback: seq<Done>, urbs: seq<Vurb>)
    requires urbs != []
    ensures (giveback + [Done(urbs[0].id, -104, urbs[0].actualLength)]) + AllReset(urbs[1..])
            == giveback + AllReset(urbs)
  {
  }

  lemma CompleteFirst(q: Core)
    requires q.urbs != []
    ensures var r := UrbComplete(q, 0, -104);
      && r.urbs == q.urbs[1..] && r.giveback == q.giveback + [Done(q.urbs[0].id, -104, q.urbs[0].actualLength)]
      && r.flags == q.flags && r.dma == q.dma
  {
  }

  lemma {:induction false} CancelLoopGives(q: Core)
    ensures CancelLoop(q).urbs == [] && CancelLoop(q).giveback == q.giveback + AllReset(q.urbs)
    ensures CancelLoop(q).flags == q.flags && CancelLoop(q).dma == q.dma
    decreases |q.urbs|
  {
    if q.urbs == [] {
      assert q.giveback + [] == q.giveback;
    } else {
      CompleteFirst(q);
      ResetFirst(q.giveback, q.urbs);
      CancelLoopGives(UrbComplete(q, 0, ECONNRESET));
    }
  }

  lemma CancelAllGives(q: Core)
    ensures var r := CancelAll(q);
      r.urbs == [] && r.giveback == q.giveback + AllReset(q.urbs) && !r.flags.active && r.dma == q.dma
  {
    CancelLoopGives(q.(flags := q.flags.(active := false)));
  }

  // ---------------------------------------------------------------- pause, resume, reset, suspend

  /** A pause that succeeds holds the queue: inactive, its source recorded, and nothing deferred if it was the first. */
  lemma PauseHolds(q: Queue, src: PauseSource, r: Queue)
    requires PauseLaw(q) && q.holder == Nobody
    requires var q1 := Apply(q, PauseStart(src));
      r == if q1.holder == Nobody then q1 else Apply(Apply(q1, PauseDropEvents), PauseEnd(true))
    ensures r.holder == Nobody && r.pausedBy == q.pausedBy + {src} && !r.core.flags.active
    ensures q.pausedBy == {} ==> r.core.evq == []
    ensures r.core.urbs == q.core.urbs && r.core.dma == q.core.dma && r.core.counters == q.core.counters
  {
    assert src in q.pausedBy ==> q.pausedBy + {src} == q.pausedBy;
  }

  /** A pause that fails records nothing; the queue stays inactive. */
  lemma FailedPause(q: Queue, src: PauseSource)
    requires PauseLaw(q) && q.holder == Pausing(src)
    ensures var r := Apply(q, PauseEnd(false)); r.holder == Nobody && r.pausedBy == {} && !r.core.flags.active
  {
  }

  /** A release that is not the last one takes the source out and sends nothing. */
  lemma ReleaseOne(q: Queue, src: PauseSource)
    requires q.holder == Nobody && src in q.pausedBy && q.pausedBy != {src}
    ensures Apply(q, ResumeStart(src)) == q.(pausedBy := q.pausedBy - {src})
  {
    LastOrNot(q.pausedBy, src);
  }

  lemma LastOrNot(s: set<PauseSource>, x: PauseSource)
    requires x in s
    ensures s - {x} == {} <==> s == {x}
  {
    assert forall y :: y in s ==> y == x || y in s - {x};
  }

  /** The last one sends SET_STATE ACTIVE; if that fails nothing changes. */
  lemma ReleaseLast(q: Queue, src: PauseSource, q1: Queue)
    requires q.holder == Nobody && q.pausedBy == {src} && q1 == Apply(q, ResumeStart(src))
    ensures q1 == q.(holder := Resuming(src)) && Apply(q1, ResumeFail) == q
  {
    LastOrNot(q.pausedBy, src);
  }

  /** Otherwise the queue wakes and the mask is empty. */
  lemma ReleaseWakes(q: Queue, src: PauseSource, granted: seq<bool>, r: Queue)
    requires q.holder == Resuming(src) && q.pausedBy == {src} && Enabled(q, ResumeGo(granted))
    requires r == Apply(Apply(q, ResumeGo(granted)), ResumeEnd)
    ensures r.holder == Nobody && r.pausedBy == {} && r.core == ResumeActivate(Granted(q.core, granted))
  {
    LastOrNot(q.pausedBy, src);
  }

  /** A reset of a stalled queue holds it, drops what was deferred and clears the stall; of any other it does
      nothing. */
  lemma ResetHolds(q: Queue)
    requires PauseLaw(q) && q.holder == Nobody
    ensures var q1 := Apply(q, ResetStart);
      if !q.core.flags.stalled then q1 == q
      else
        && q1.holder == Resetting(false)
        && var r := Apply(Apply(q1, ResetDropEvents), ResetEnd);
           && r.holder == Nobody && r.pausedBy == q.pausedBy + {InternalWq}
           && !r.core.flags.active && !r.core.flags.stalled && r.core.evq == [] && r.core.urbs == q.core.urbs
  {
  }

  /** Suspending holds the queue whoever else does. */
  lemma SuspendHolds(q: Queue)
    requires PauseLaw(q) && q.holder == Nobody
    ensures var r := Apply(Apply(q, SuspendStart), SuspendEnd);
      r.holder == Nobody && r.pausedBy == q.pausedBy + {Suspend} && !r.core.flags.active && r.core.urbs == q.core.urbs
  {
  }

  // ---------------------------------------------------------------- one after the other

  /** When a status event completes a control transfer, the next URB is started at once with the slot it frees. */
  lemma NextIsStarted(c: Core, a: Vurb, b: Vurb, r: Core)
    requires c.cfg.control && c.flags.active && c.evq == [] && c.counters == Counters(0, [], []) && c.urbs == [a, b]
    requires a.state == DataTransferComplete && a.receivedStatus == 0 && b.state == InitPending
    requires r == Event(c, false, Message(CMD_CONTROL_TRANSFER_STATUS, 1, 0), true)
    ensures r.urbs == [b.(state := ControlWaitingForSetupRequest)] && r.counters == Counters(0, [], [])
    ensures r.giveback == c.giveback + [Done(a.id, 0, a.actualLength)] && r.flags == c.flags
  {
    assert InitPendingFrom(c, 0) == c;
    var s := UrbUpdate(c, 0, Message(CMD_CONTROL_TRANSFER_STATUS, 1, 0));
    assert s.q.urbs == [b];
    var t := UrbInit(s.q, 0).q;
    assert InitPendingFrom(s.q, 0) == InitPendingFrom(t, 1) == t;
  }

  // ---------------------------------------------------------------- events while inactive

  /** An inactive queue keeps a transfer request exactly when it is endpoint 0 and the driver itself holds it; without
      memory for that it asks for a reset. Everything else is dropped. */
  lemma InactiveEvent(q: Core, internal: bool, msg: Message, memory: bool)
    requires !q.flags.active
    ensures var r := Event(q, internal, msg, memory);
      if msg.cmd == 0x1000 && q.cfg.control && internal then
        if memory then r == q.(evq := q.evq + [msg])
        else r == q.(flags := r.flags) && r.flags.stalled && r.flags.resetQueued && !r.flags.active
      else r == q
  {
  }

  /** So a setup request that the T2 issues during such a pause is served by the resume. */
  lemma RequestSurvivesPause(c: Core, id: nat, dirIn: bool, length: nat, msg: Message, r: Core)
    requires OneUrb(c, id, dirIn, length, ControlWaitingForSetupRequest) && c.dma.sqOut == Ring(RING_CREDITS, [])
    requires msg.cmd == 0x1000
    requires r == ResumeActivate(Event(c.(flags := c.flags.(active := false)), true, msg, true))
    ensures OneUrb(r, id, dirIn, length, ControlWaitingForSetupCompletion)
    ensures r.dma.sqOut == Ring(RING_CREDITS - 1, [Setup(id)])
  {
    var off := c.(flags := c.flags.(active := false));
    var e := Event(off, true, msg, true);
    assert e == off.(evq := [msg]);
    var on := e.(flags := e.flags.(active := true));
    assert on == c.(evq := [msg]);
    assert ResumeFrom(on, 0) == on;
    var s := UrbUpdate(on, 0, msg);
    var n := s.q.(evq := [msg][1..]);
    assert DeliverLoop(on) == DeliverLoop(n) == n;
    AllStarted(n, 0);
    assert [] + [Setup(id)] == [Setup(id)];
  }
}
