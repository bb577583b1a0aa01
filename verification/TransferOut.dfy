/** OUT data endpoints: every completion is charged to the URB whose submission it answers. */
module TransferOut {
  import opened TransferModel
  import opened TransferRuns
  import opened TransferAccounting
  import opened TransferTheorems

  predicate OutUrb(u: Vurb) {
    && !u.dirIn && u.length < U32_RANGE
    && match u.state
       case InitPending => u.sendOffset == 0 && u.receiveOffset == 0
       case WaitingForTransferRequest => u.sendOffset == 0 && u.receiveOffset == 0 && u.length > 0
       case WaitingForCompletion => u.sendOffset == u.length && u.receiveOffset == 0 && u.length > 0
       case DataTransferComplete => true
       case _ => false
  }

  predicate OutUrbs(urbs: seq<Vurb>) { forall i :: 0 <= i < |urbs| ==> OutUrb(urbs[i]) }

  /** Only the list head can be waiting for completion. */
  predicate OnlyHeadWaits(urbs: seq<Vurb>) { forall i :: 1 <= i < |urbs| ==> !Waiting(urbs[i]) }

  predicate HeadWaits(urbs: seq<Vurb>) { urbs != [] && Waiting(urbs[0]) }

  /** What the T2 owes on sq_out: first the cancelled transfers in the order they were cancelled,
      then the transfer of the list head if it is waiting. */
  predicate OwedInOrder(owed: seq<Submission>, ghosts: seq<nat>, urbs: seq<Vurb>) {
    && |owed| == |ghosts| + (if HeadWaits(urbs) then 1 else 0)
    && (forall k :: 0 <= k < |ghosts| ==> owed[k].owner == ghosts[k])
    && (HeadWaits(urbs) ==> owed[|ghosts|] == Submission(urbs[0].id, false, urbs[0].length))
  }

  predicate Exact(n: Note) {
    n.Answered? ==> (n.charge.ToLive? || n.charge.ToCancelled?) && n.charge.id == n.sub.owner
  }

  predicate AllExact(log: seq<Note>) { forall i :: 0 <= i < |log| ==> Exact(log[i]) }

  /** The T2 asked for at least the whole remaining buffer whenever it asked. */
  predicate NoneShort(log: seq<Note>) {
    forall i :: 0 <= i < |log| && log[i].Sent? ==> log[i].sub.len == log[i].wanted
  }

  lemma NoneShortPrefix(a: seq<Note>, b: seq<Note>)
    requires a <= b && NoneShort(b)
    ensures NoneShort(a)
  {
    assert forall i :: 0 <= i < |a| ==> a[i] == b[i];
  }

  predicate OutConfig(cfg: Config) { LegalConfig(cfg) && !cfg.control && !cfg.dirIn }

  predicate OutLaw(q: Core) {
    && OutConfig(q.cfg)
    && OutUrbs(q.urbs) && OnlyHeadWaits(q.urbs)
    && q.counters.ghostIn == [] && q.dma.sqIn.owed == []
    && OwedInOrder(q.dma.sqOut.owed, q.counters.ghostOut, q.urbs)
    && Drained(q.dma)
    && q.counters.remaining >= 0 && SlotsSeen(q) == q.cfg.maxActive
    && AllExact(q.log)
  }

  lemma HeadSlot(urbs: seq<Vurb>)
    requires urbs != [] && Holds(urbs[0])
    ensures Slots(urbs) >= 1
  {
    TallyAt(urbs, 0, 0);
  }

  lemma OutUrbUpdate(q: Core, msg: Message)
    requires OutLaw(q) && q.urbs != [] && NoneShort(UrbUpdate(q, 0, msg).q.log)
    ensures var s := UrbUpdate(q, 0, msg); OutLaw(s.q) && (s.status == EAGAIN ==> s.q == q)
  {
    var u := q.urbs[0];
    if u.state == WaitingForTransferRequest && msg.cmd == CMD_TRANSFER_REQUEST {
      HeadSlot(q.urbs);
      var s := UrbUpdate(q, 0, msg);
      var u' := s.q.urbs[0];
      TallyUpdate(q.urbs, 0, u', 0);
      assert s.q.urbs == q.urbs[0 := u'];
      assert s.q.log[|q.log|] == Sent(Submission(u.id, false, Min(u.length, msg.param2 % U32_RANGE)), u.length);
    }
  }

  /** A request to a head that waits for one keeps the law if and only if it asks for at least the whole buffer. */
  lemma RequestKeepsLawIff(q: Core, msg: Message)
    requires OutLaw(q) && q.urbs != [] && q.urbs[0].state == WaitingForTransferRequest
        && msg.cmd == CMD_TRANSFER_REQUEST
    ensures OutLaw(UrbUpdate(q, 0, msg).q) <==> msg.param2 % U32_RANGE >= q.urbs[0].length
  {
    HeadSlot(q.urbs);
    var r := UrbUpdate(q, 0, msg).q;
    TallyUpdate(q.urbs, 0, r.urbs[0], 0);
    assert r.urbs == q.urbs[0 := r.urbs[0]];
    if msg.param2 % U32_RANGE >= q.urbs[0].length {
      assert OutUrbs(r.urbs) && OnlyHeadWaits(r.urbs);
    } else {
      assert !OutUrb(r.urbs[0]);
    }
  }

  lemma OutInit(q: Core, i: nat)
    requires OutLaw(q) && i < |q.urbs| && !Holds(q.urbs[i]) && CanInit(q)
    ensures var s := UrbInit(q, i);
      && s.status == 0 && OutLaw(s.q) && s.q.log == q.log && s.q.dma == q.dma
  {
    TallyUpdate(q.urbs, i, UrbInit(q, i).q.urbs[i], 0);
  }

  lemma {:induction false} OutInitPending(q: Core, i: nat)
    requires OutLaw(q)
    ensures var r := InitPendingFrom(q, i); OutLaw(r) && r.log == q.log && r.dma == q.dma
    decreases |q.urbs| - i
  {
    if i < |q.urbs| && CanInit(q) {
      if q.urbs[i].state == InitPending {
        OutInit(q, i);
        OutInitPending(UrbInit(q, i).q, i + 1);
      } else {
        OutInitPending(q, i + 1);
      }
    }
  }

  lemma {:induction false} OutDeliverLoop(q: Core)
    requires OutLaw(q) && NoneShort(DeliverLoop(q).log)
    ensures OutLaw(DeliverLoop(q))
    decreases |q.evq|
  {
    if q.urbs != [] && q.evq != [] {
      var s := UrbUpdate(q, 0, q.evq[0]);
      if s.status == EAGAIN {
        OutUrbUpdate(q, q.evq[0]);
      } else {
        var q1 := s.q.(evq := q.evq[1..]);
        KeptDeliverLoop(q1, 0);
        NoneShortPrefix(s.q.log, DeliverLoop(q).log);
        OutUrbUpdate(q, q.evq[0]);
        OutDeliverLoop(q1);
      }
    }
  }

  lemma OutDeliver(q: Core)
    requires OutLaw(q) && NoneShort(DeliverPending(q).log)
    ensures OutLaw(DeliverPending(q))
  {
    KeptInitPendingFrom(DeliverLoop(q), 0, 0);
    NoneShortPrefix(DeliverLoop(q).log, DeliverPending(q).log);
    OutDeliverLoop(q);
    OutInitPending(DeliverLoop(q), 0);
  }

  lemma OutEvent(q: Core, internal: bool, msg: Message, memory: bool)
    requires OutLaw(q) && NoneShort(Event(q, internal, msg, memory).log)
    ensures OutLaw(Event(q, internal, msg, memory))
  {
    var r := Event(q, internal, msg, memory);
    if q.flags.active {
      var d := DeliverPending(q);
      if msg.cmd == CMD_TRANSFER_REQUEST && (d.evq != [] || d.urbs == []) {
        OutDeliver(q);
      } else if d.urbs == [] {
        OutDeliver(q);
      } else {
        var s := UrbUpdate(d, 0, msg);
        KeptUrbUpdate(d, 0, msg, 0);
        KeptInitPendingFrom(s.q, 0, 0);
        NoneShortPrefix(s.q.log, r.log);
        NoneShortPrefix(d.log, r.log);
        OutDeliver(q);
        OutUrbUpdate(d, msg);
        OutInitPending(s.q, 0);
      }
    }
  }

  lemma OutCompleteGhost(q: Core, c: Completion)
    requires OutLaw(q) && q.counters.ghostOut != [] && !c.aborted
    ensures var r := CompleteOne(q, true, c);
      && OutLaw(r) && r.dma.sqOut.owed == q.dma.sqOut.owed[1..]
  {
    var k := q.counters;
    var n := Notify(q, true, ToCancelled(k.ghostOut[0])).(counters := Freed(k).(ghostOut := k.ghostOut[1..]));
    OutInitPending(n, 0);
  }

  lemma OutCompleteLive(q: Core, c: Completion)
    requires OutLaw(q) && q.counters.ghostOut == [] && q.dma.sqOut.owed != []
    requires !c.aborted && c.dataSize == q.dma.sqOut.owed[0].len
    ensures var r := CompleteOne(q, true, c);
      && OutLaw(r) && r.dma.sqOut.owed == q.dma.sqOut.owed[1..]
  {
    HeadDone(q, true, c);
    TallyTail(q.urbs);
    var r := CompleteOne(q, true, c);
    assert forall i :: 0 <= i < |q.log| ==> r.log[i] == q.log[i];
  }

  /** The device answers the submissions in order, none aborted, each fully sent. */
  predicate Honest(owed: seq<Submission>, cs: seq<Completion>) {
    && |cs| <= |owed|
    && forall k :: 0 <= k < |cs| ==> !cs[k].aborted && cs[k].dataSize == owed[k].len
  }

  lemma {:induction false} OutCompleteLoop(q: Core, cs: seq<Completion>)
    requires OutLaw(q) && Honest(q.dma.sqOut.owed, cs)
    ensures OutLaw(CompleteLoop(q, true, cs))
    decreases |cs|
  {
    if cs != [] {
      if q.counters.ghostOut != [] {
        OutCompleteGhost(q, cs[0]);
      } else {
        OutCompleteLive(q, cs[0]);
      }
      OutCompleteLoop(CompleteOne(q, true, cs[0]), cs[1..]);
    }
  }

  lemma OutAppend(q: Core, u: Vurb)
    requires OutLaw(q) && OutUrb(u) && u.state == InitPending
    ensures OutLaw(q.(urbs := q.urbs + [u]))
  {
    TallyConcat(q.urbs, [u], 0);
    TallyOne(u, 0);
  }

  lemma OutFirstInit(q: Core, internal: bool, u: Vurb)
    requires OutLaw(q) && OutUrb(u) && u.state == InitPending
    ensures var s := FirstInit(q.(urbs := q.urbs + [u]), internal, |q.urbs|); s.status == 0 && OutLaw(s.q)
  {
    var q1 := q.(urbs := q.urbs + [u]);
    OutAppend(q, u);
    if q.flags.active && CanInit(q) {
      OutInit(q1, |q.urbs|);
    }
  }

  lemma OutCreate(q: Core, internal: bool, id: nat, length: nat, link: int)
    requires OutLaw(q) && length < U32_RANGE && NoneShort(UrbCreate(q, internal, id, false, length, link).q.log)
    ensures OutLaw(UrbCreate(q, internal, id, false, length, link).q)
  {
    if link == 0 {
      var u := FreshUrb(id, false, length);
      OutFirstInit(q, internal, u);
      OutDeliver(FirstInit(q.(urbs := q.urbs + [u]), internal, |q.urbs|).q);
    }
  }

  lemma OutWithout(urbs: seq<Vurb>, i: nat)
    requires i < |urbs| && OutUrbs(urbs) && OnlyHeadWaits(urbs)
    ensures OutUrbs(Without(urbs, i)) && OnlyHeadWaits(Without(urbs, i))
    ensures HeadWaits(Without(urbs, i)) <==> i > 0 && HeadWaits(urbs)
    ensures i > 0 ==> Without(urbs, i)[0] == urbs[0]
    ensures Waiting(urbs[i]) ==> i == 0
  {
    var w := Without(urbs, i);
    assert forall k :: 0 <= k < |w| ==> w[k] == urbs[if k < i then k else k + 1];
  }

  lemma OutCancel(q: Core, i: nat)
    requires OutLaw(q) && i < |q.urbs|
    ensures OutLaw(CancelUrb(q, i))
  {
    TallyRemove(q.urbs, i, 0);
    OutWithout(q.urbs, i);
  }

  /** Nothing is flushed, aborted, resubmitted or reset, and the device is honest. */
  predicate OutAction(q: Queue, a: Action) {
    match a
    case Harvested(out, cs, _) => Honest(Owed(q.core.dma, out), cs)
    case ResumeGo(_) => false
    case ResetCounters => false
    case CancelEverything => false
    case _ => true
  }

  lemma OutCancelled(q: Core, i: nat, status: int)
    requires OutLaw(q) && i < |q.urbs|
    ensures OutLaw(Withdraw(CancelUrb(q, i), q.urbs[i], status))
  {
    OutCancel(q, i);
    var r := Withdraw(CancelUrb(q, i), q.urbs[i], status);
    assert forall k :: 0 <= k < |q.log| ==> r.log[k] == q.log[k];
  }

  lemma OutStep(q: Queue, a: Action)
    requires OutLaw(q.core) && Enabled(q, a) && OutAction(q, a) && NoneShort(Apply(q, a).core.log)
    ensures OutLaw(Apply(q, a).core)
  {
    if Quiet(a) {
      QuietStep(q, a);
    } else {
      match a
      case Submit(id, _, length, link, granted) =>
        OutCreate(Granted(q.core, granted), InternalWq in q.pausedBy, id, length, link);
      case Deliver(msg, memory, granted) =>
        OutEvent(Granted(q.core, granted), InternalWq in q.pausedBy, msg, memory);
      case Harvested(out, cs, granted) =>
        var c := Granted(q.core, granted);
        if out {
          OutCompleteLoop(c, cs);
        }
        OutDeliver(CompleteLoop(c, out, cs));
      case Cancel(id, status) =>
        CancelCore(q, id, status);
        var i := IndexOf(q.core.urbs, id);
        if i < |q.core.urbs| {
          OutCancelled(q.core, i, status);
        }
      case _ =>
    }
  }

  predicate OutActions(q: Queue, acts: seq<Action>)
    requires Legal(q, acts)
    decreases |acts|
  {
    acts == [] || (OutAction(q, acts[0]) && OutActions(Apply(q, acts[0]), acts[1..]))
  }

  lemma {:induction false} OutRun(q: Queue, acts: seq<Action>)
    requires OutLaw(q.core) && Legal(q, acts) && OutActions(q, acts) && NoneShort(Run(q, acts).core.log)
    ensures OutLaw(Run(q, acts).core)
    decreases |acts|
  {
    if acts != [] {
      var q1 := Apply(q, acts[0]);
      LogGrowsRun(q1, acts[1..]);
      NoneShortPrefix(q1.core.log, Run(q, acts).core.log);
      OutStep(q, acts[0]);
      OutRun(q1, acts[1..]);
    }
  }

  /** Exact attribution: if nothing is flushed, and the T2 asks for whole buffers and reports them sent,
      only the list head waits, and every completion is charged to the very URB, live or cancelled,
      whose submission it answers, however cancels interleave. */
  lemma ExactAttribution(cfg: Config, acts: seq<Action>)
    requires OutConfig(cfg) && Legal(NewQueue(cfg), acts) && OutActions(NewQueue(cfg), acts)
    requires NoneShort(Run(NewQueue(cfg), acts).core.log)
    ensures var q := Run(NewQueue(cfg), acts).core;
      && OnlyHeadWaits(q.urbs)
      && AllExact(q.log)
      && OwedInOrder(q.dma.sqOut.owed, q.counters.ghostOut, q.urbs)
  {
    OutRun(NewQueue(cfg), acts);
  }
}
