/** IN data endpoints between flushes: the DMA the T2 owes is exactly the DMA somebody waits for. */
module TransferIn {
  import opened TransferModel
  import opened TransferRuns
  import opened TransferAccounting
  import opened TransferTheorems

  predicate InUrb(u: Vurb) {
    u.dirIn && (u.state == InitPending || u.state == WaitingForCompletion)
  }

  predicate InUrbs(urbs: seq<Vurb>) { forall i :: 0 <= i < |urbs| ==> InUrb(urbs[i]) }

  /** Slot holders come first on the list. */
  predicate HoldersFirst(urbs: seq<Vurb>) {
    forall i, j :: 0 <= i < j < |urbs| && Holds(urbs[j]) ==> Holds(urbs[i])
  }

  predicate AllHold(urbs: seq<Vurb>, n: nat)
    requires n <= |urbs|
  {
    forall i :: 0 <= i < n ==> Holds(urbs[i])
  }

  /** No answer of the device was thrown away for want of a request. */
  predicate NoneDiscarded(log: seq<Note>) {
    forall i :: 0 <= i < |log| && log[i].Answered? ==> log[i].charge != ToNobody
  }

  predicate InConfig(cfg: Config) { LegalConfig(cfg) && !cfg.control && cfg.dirIn }

  /** Holds inside a critical section. */
  predicate InSection(q: Core) {
    && InConfig(q.cfg) && q.dma.grants == []
    && InUrbs(q.urbs) && HoldersFirst(q.urbs)
    && q.counters.ghostOut == [] && q.dma.sqOut.owed == []
    && |q.dma.sqIn.owed| == Slots(q.urbs) + |q.counters.ghostIn|
    && q.counters.remaining >= 0 && SlotsSeen(q) == q.cfg.maxActive
    && Drained(q.dma)
    && NoneDiscarded(q.log)
  }

  /** Holds whenever urb_lock is free: no URB waits for a slot while one is left. */
  predicate InLaw(q: Core) {
    && InSection(q)
    && (CanInit(q) ==> AllHold(q.urbs, |q.urbs|))
  }

  lemma SlotsPositive(urbs: seq<Vurb>)
    requires Slots(urbs) > 0 && HoldersFirst(urbs)
    ensures urbs != [] && Holds(urbs[0])
  {
    if !Holds(urbs[0]) {
      NoSlots(urbs);
    }
  }

  lemma {:induction false} NoSlots(urbs: seq<Vurb>)
    requires forall i :: 0 <= i < |urbs| ==> !Holds(urbs[i])
    ensures Slots(urbs) == 0
  {
    if urbs != [] {
      NoSlots(urbs[..|urbs| - 1]);
    }
  }

  lemma InInit(q: Core, i: nat)
    requires InSection(q) && i < |q.urbs| && AllHold(q.urbs, i) && !Holds(q.urbs[i]) && CanInit(q)
    ensures var s := UrbInit(q, i); s.status == 0 && InSection(s.q) && AllHold(s.q.urbs, i + 1)
    ensures UrbInit(q, i).q.flags == q.flags
  {
    var s := UrbInit(q, i);
    var u := s.q.urbs[i];
    TallyUpdate(q.urbs, i, u, 0);
    assert s.q.urbs == q.urbs[i := u];
  }

  lemma {:induction false} InInitPending(q: Core, i: nat)
    requires InSection(q) && i <= |q.urbs| && AllHold(q.urbs, i)
    ensures InLaw(InitPendingFrom(q, i)) && InitPendingFrom(q, i).flags == q.flags
    decreases |q.urbs| - i
  {
    if i < |q.urbs| && CanInit(q) {
      if q.urbs[i].state == InitPending {
        InInit(q, i);
        InInitPending(UrbInit(q, i).q, i + 1);
      } else {
        InInitPending(q, i + 1);
      }
    }
  }

  /** An event never moves an IN data URB: it is put back. */
  lemma InDeliver(q: Core)
    requires InSection(q)
    ensures DeliverLoop(q) == q && InLaw(DeliverPending(q)) && DeliverPending(q).flags == q.flags
  {
    InInitPending(q, 0);
  }

  lemma InDefer(q: Core, msg: Message, memory: bool)
    requires InLaw(q)
    ensures InLaw(DeferEvent(q, msg, memory))
  {
  }

  lemma InEvent(q: Core, internal: bool, msg: Message, memory: bool)
    requires InLaw(q)
    ensures InLaw(Event(q, internal, msg, memory))
  {
    if q.flags.active {
      InDeliver(q);
      var d := DeliverPending(q);
      InDefer(d, msg, memory);
      if d.urbs != [] {
        assert UrbUpdate(d, 0, msg) == Outcome(d, EAGAIN);
      }
    } else {
      InDefer(q, msg, memory);
    }
  }

  lemma InCompleteLive(q: Core, c: Completion)
    requires InSection(q) && q.dma.sqIn.owed != [] && q.counters.ghostIn == [] && q.urbs != [] && Holds(q.urbs[0])
    requires !c.aborted
    ensures InSection(CompleteOne(q, false, c))
  {
    HeadDone(q, false, c);
    TallyTail(q.urbs);
    var r := CompleteOne(q, false, c);
    TailKeepsPrefix(q.urbs);
    assert NoneDiscarded(r.log) by {
      assert r.log[..|q.log| + 1] == q.log + [Answered(q.dma.sqIn.owed[0], ToLive(q.urbs[0].id, c.dataSize))];
      assert forall i :: 0 <= i < |q.log| ==> r.log[i] == r.log[..|q.log| + 1][i] == q.log[i];
      assert r.log[|q.log|] == r.log[..|q.log| + 1][|q.log|];
    }
  }

  lemma TailKeepsPrefix(urbs: seq<Vurb>)
    requires urbs != [] && InUrbs(urbs) && HoldersFirst(urbs)
    ensures InUrbs(urbs[1..]) && HoldersFirst(urbs[1..])
  {
  }

  lemma InCompleteOne(q: Core, c: Completion)
    requires InSection(q) && q.dma.sqIn.owed != [] && !c.aborted
    ensures InSection(CompleteOne(q, false, c))
  {
    var k := q.counters;
    if k.ghostIn != [] {
      GhostInAsNotify(q);
      var n := Notify(q, false, ToCancelled(k.ghostIn[0])).(counters := Freed(k).(ghostIn := k.ghostIn[1..]));
      InInitPending(n, 0);
    } else {
      SlotsPositive(q.urbs);
      InCompleteLive(q, c);
    }
  }

  lemma {:induction false} InCompleteLoop(q: Core, cs: seq<Completion>)
    requires InSection(q) && forall i :: 0 <= i < |cs| ==> !cs[i].aborted
    ensures InSection(CompleteLoop(q, false, cs))
    decreases |cs|
  {
    if cs != [] && q.dma.sqIn.owed != [] {
      InCompleteOne(q, cs[0]);
      InCompleteLoop(CompleteOne(q, false, cs[0]), cs[1..]);
    }
  }

  lemma InAppend(q: Core, u: Vurb)
    requires InLaw(q) && u.dirIn && u.state == InitPending
    ensures InSection(q.(urbs := q.urbs + [u]))
  {
    AppendPending(q.urbs, u);
  }

  lemma AppendPending(urbs: seq<Vurb>, u: Vurb)
    requires InUrbs(urbs) && HoldersFirst(urbs) && u.dirIn && u.state == InitPending
    ensures InUrbs(urbs + [u]) && HoldersFirst(urbs + [u]) && Slots(urbs + [u]) == Slots(urbs)
  {
    TallyConcat(urbs, [u], 0);
    TallyOne(u, 0);
  }

  lemma InFirstInit(q: Core, internal: bool, u: Vurb)
    requires InLaw(q) && u.dirIn && u.state == InitPending
    ensures var s := FirstInit(q.(urbs := q.urbs + [u]), internal, |q.urbs|); s.status == 0 && InSection(s.q)
  {
    var q1 := q.(urbs := q.urbs + [u]);
    InAppend(q, u);
    if q.flags.active && CanInit(q) {
      var n := |q.urbs|;
      assert AllHold(q.urbs, n);
      assert forall k :: 0 <= k < n ==> q1.urbs[k] == q.urbs[k];
      assert AllHold(q1.urbs, n) && q1.urbs[n] == u;
      InInit(q1, n);
    }
  }

  lemma InCreate(q: Core, internal: bool, id: nat, length: nat, link: int)
    requires InLaw(q)
    ensures InLaw(UrbCreate(q, internal, id, true, length, link).q)
  {
    if link == 0 {
      var u := FreshUrb(id, true, length);
      InFirstInit(q, internal, u);
      InDeliver(FirstInit(q.(urbs := q.urbs + [u]), internal, |q.urbs|).q);
    }
  }

  lemma InWithout(urbs: seq<Vurb>, i: nat)
    requires i < |urbs| && InUrbs(urbs) && HoldersFirst(urbs)
    ensures InUrbs(Without(urbs, i)) && HoldersFirst(Without(urbs, i))
    ensures AllHold(urbs, |urbs|) ==> AllHold(Without(urbs, i), |urbs| - 1)
  {
    var w := Without(urbs, i);
    assert forall k :: 0 <= k < |w| ==> w[k] == urbs[if k < i then k else k + 1];
  }

  lemma InCancel(q: Core, i: nat)
    requires InLaw(q) && i < |q.urbs|
    ensures InLaw(CancelUrb(q, i))
  {
    TallyRemove(q.urbs, i, 0);
    InWithout(q.urbs, i);
  }

  /** Between flushes, with every reservation granted: nothing is aborted, resubmitted or reset. */
  predicate InAction(a: Action) {
    match a
    case Submit(_, _, _, _, granted) => granted == []
    case Deliver(_, _, granted) => granted == []
    case Harvested(out, cs, granted) => granted == [] && forall i :: 0 <= i < |cs| ==> !cs[i].aborted
    case ResumeGo(_) => false
    case ResetCounters => false
    case CancelEverything => false
    case _ => true
  }

  lemma InHarvested(q: Core, out: bool, cs: seq<Completion>)
    requires InLaw(q) && forall i :: 0 <= i < |cs| ==> !cs[i].aborted
    ensures InLaw(CompletionHandler(q, out, cs))
  {
    if !out {
      InCompleteLoop(q, cs);
    }
    InDeliver(CompleteLoop(q, out, cs));
  }

  lemma InCancelled(q: Core, i: nat, status: int)
    requires InLaw(q) && i < |q.urbs|
    ensures InLaw(Withdraw(CancelUrb(q, i), q.urbs[i], status))
  {
    InCancel(q, i);
    var r := Withdraw(CancelUrb(q, i), q.urbs[i], status);
    assert forall k :: 0 <= k < |q.log| ==> r.log[k] == q.log[k];
  }

  lemma InStep(q: Queue, a: Action)
    requires InLaw(q.core) && Enabled(q, a) && InAction(a)
    ensures InLaw(Apply(q, a).core) && Apply(q, a).core.cfg == q.core.cfg
  {
    LedgerStep(q, a);
    if Quiet(a) {
      QuietStep(q, a);
    } else {
      match a
      case Submit(id, _, length, link, _) => InCreate(q.core, InternalWq in q.pausedBy, id, length, link);
      case Deliver(msg, memory, _) => InEvent(q.core, InternalWq in q.pausedBy, msg, memory);
      case Harvested(out, cs, _) => InHarvested(q.core, out, cs);
      case Cancel(id, status) =>
        CancelCore(q, id, status);
        var i := IndexOf(q.core.urbs, id);
        if i < |q.core.urbs| {
          InCancelled(q.core, i, status);
        }
      case _ =>
    }
  }

  lemma {:induction false} InRun(q: Queue, acts: seq<Action>)
    requires InLaw(q.core) && Legal(q, acts) && forall i :: 0 <= i < |acts| ==> InAction(acts[i])
    ensures InLaw(Run(q, acts).core) && Run(q, acts).core.cfg == q.core.cfg
    decreases |acts|
  {
    if acts != [] {
      InStep(q, acts[0]);
      InRun(Apply(q, acts[0]), acts[1..]);
    }
  }

  /** The submissions still owed on sq_in are the URBs waiting for completion plus the ghosts, never more
      than max_active_requests; slot holders are a prefix of the list; no owed completion was discarded. */
  lemma InEndpointAccounting(cfg: Config, acts: seq<Action>)
    requires InConfig(cfg) && Legal(NewQueue(cfg), acts)
    requires forall i :: 0 <= i < |acts| ==> InAction(acts[i])
    ensures var q := Run(NewQueue(cfg), acts).core;
      && |q.dma.sqIn.owed| == Slots(q.urbs) + |q.counters.ghostIn| <= cfg.maxActive
      && (forall i :: 0 <= i < |q.urbs| && Holds(q.urbs[i]) ==> Waiting(q.urbs[i]))
      && HoldersFirst(q.urbs)
      && NoneDiscarded(q.log)
  {
    InRun(NewQueue(cfg), acts);
  }
}
