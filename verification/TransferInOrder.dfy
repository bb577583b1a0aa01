/** IN data endpoints when URBs are cancelled oldest first: every completion is charged to its own URB. */
module TransferInOrder {
  import opened TransferModel
  import opened TransferRuns
  import opened TransferAccounting
  import opened TransferTheorems
  import opened TransferIn
  import opened TransferOut
  import opened TransferWitness

  /** What the T2 owes on sq_in: first the cancelled transfers in the order they were cancelled, then those of the
      slot holders in list order. */
  predicate OwedInListOrder(owed: seq<Submission>, ghosts: seq<nat>, urbs: seq<Vurb>) {
    && |ghosts| <= |owed|
    && (forall k :: 0 <= k < |ghosts| ==> owed[k].owner == ghosts[k])
    && (forall j :: 0 <= j < |urbs| && Holds(urbs[j]) ==>
          |ghosts| + j < |owed| && owed[|ghosts| + j].owner == urbs[j].id)
  }

  /** Holds inside a critical section. */
  predicate OrderSection(q: Core) {
    && InSection(q) && AllExact(q.log)
    && OwedInListOrder(q.dma.sqIn.owed, q.counters.ghostIn, q.urbs)
  }

  predicate InOrderLaw(q: Core) { OrderSection(q) && InLaw(q) }

  lemma {:induction false} SlotsOfPrefix(urbs: seq<Vurb>, i: nat)
    requires i <= |urbs| && AllHold(urbs, i) && forall k :: i <= k < |urbs| ==> !Holds(urbs[k])
    ensures Slots(urbs) == i
  {
    if urbs != [] {
      SlotsOfPrefix(urbs[..|urbs| - 1], if i == |urbs| then i - 1 else i);
    }
  }

  lemma OrderInit(q: Core, i: nat)
    requires OrderSection(q) && i < |q.urbs| && AllHold(q.urbs, i) && !Holds(q.urbs[i]) && CanInit(q)
    ensures OrderSection(UrbInit(q, i).q)
  {
    InInit(q, i);
    SlotsOfPrefix(q.urbs, i);
    var s := UrbInit(q, i);
    assert s.q.urbs == q.urbs[i := s.q.urbs[i]];
    assert s.q.log[..|q.log|] == q.log;
    assert forall k :: 0 <= k < |q.log| ==> s.q.log[k] == q.log[k];
  }

  lemma {:induction false} OrderInitPending(q: Core, i: nat)
    requires OrderSection(q) && i <= |q.urbs| && AllHold(q.urbs, i)
    ensures InOrderLaw(InitPendingFrom(q, i))
    decreases |q.urbs| - i
  {
    InInitPending(q, i);
    if i < |q.urbs| && CanInit(q) {
      if q.urbs[i].state == InitPending {
        InInit(q, i);
        OrderInit(q, i);
        OrderInitPending(UrbInit(q, i).q, i + 1);
      } else {
        OrderInitPending(q, i + 1);
      }
    }
  }

  lemma OrderDeliver(q: Core)
    requires OrderSection(q)
    ensures InOrderLaw(DeliverPending(q))
  {
    InDeliver(q);
    OrderInitPending(q, 0);
  }

  lemma OrderEvent(q: Core, internal: bool, msg: Message, memory: bool)
    requires InOrderLaw(q)
    ensures InOrderLaw(Event(q, internal, msg, memory))
  {
    InEvent(q, internal, msg, memory);
    if q.flags.active {
      OrderDeliver(q);
      var d := DeliverPending(q);
      if d.urbs != [] {
        assert UrbUpdate(d, 0, msg) == Outcome(d, EAGAIN);
      }
    }
  }

  lemma OrderGhostDone(q: Core)
    requires OrderSection(q) && q.counters.ghostIn != []
    ensures q.dma.sqIn.owed != []
    ensures var k := q.counters;
            OrderSection(Notify(q, false, ToCancelled(k.ghostIn[0])).(counters := Freed(k).(ghostIn := k.ghostIn[1..])))
  {
    var k := q.counters;
    var n := Notify(q, false, ToCancelled(k.ghostIn[0])).(counters := Freed(k).(ghostIn := k.ghostIn[1..]));
    assert forall i :: 0 <= i < |q.log| ==> n.log[i] == q.log[i];
  }

  lemma OrderHeadDone(q: Core, c: Completion)
    requires OrderSection(q) && q.dma.sqIn.owed != [] && q.counters.ghostIn == [] && !c.aborted
    ensures OrderSection(CompleteOne(q, false, c))
  {
    InCompleteOne(q, c);
    SlotsPositive(q.urbs);
    HeadDone(q, false, c);
    var r := CompleteOne(q, false, c);
    assert forall i :: 0 <= i < |q.log| ==> r.log[i] == q.log[i];
    assert r.urbs == q.urbs[1..];
  }

  lemma {:induction false} OrderCompleteLoop(q: Core, cs: seq<Completion>)
    requires OrderSection(q) && forall i :: 0 <= i < |cs| ==> !cs[i].aborted
    ensures OrderSection(CompleteLoop(q, false, cs))
    decreases |cs|
  {
    if cs != [] && q.dma.sqIn.owed != [] {
      if q.counters.ghostIn != [] {
        OrderGhostDone(q);
        GhostInAsNotify(q);
        var k := q.counters;
        OrderInitPending(Notify(q, false,
            ToCancelled(k.ghostIn[0])).(counters := Freed(k).(ghostIn := k.ghostIn[1..])), 0);
      } else {
        OrderHeadDone(q, cs[0]);
      }
      OrderCompleteLoop(CompleteOne(q, false, cs[0]), cs[1..]);
    }
  }

  lemma OrderCreate(q: Core, internal: bool, id: nat, length: nat, link: int)
    requires InOrderLaw(q)
    ensures InOrderLaw(UrbCreate(q, internal, id, true, length, link).q)
  {
    InCreate(q, internal, id, length, link);
    if link == 0 {
      var u := FreshUrb(id, true, length);
      var q1 := q.(urbs := q.urbs + [u]);
      InAppend(q, u);
      InFirstInit(q, internal, u);
      assert OrderSection(q1);
      if q.flags.active && CanInit(q) {
        OrderInit(q1, |q.urbs|);
      }
      OrderDeliver(FirstInit(q1, internal, |q.urbs|).q);
    }
  }

  /** The URB to be cancelled is the oldest one, or has not been submitted yet. */
  predicate OldestFirst(urbs: seq<Vurb>, i: nat)
    requires i < |urbs|
  {
    i == 0 || !Holds(urbs[i])
  }

  lemma DebtsAfterCancel(owed: seq<Submission>, ghosts: seq<nat>, urbs: seq<Vurb>, i: nat)
    requires OwedInListOrder(owed, ghosts, urbs) && HoldersFirst(urbs) && i < |urbs| && OldestFirst(urbs, i)
    ensures OwedInListOrder(owed, if Holds(urbs[i]) then ghosts + [urbs[i].id] else ghosts, Without(urbs, i))
  {
    var w := Without(urbs, i);
    assert forall k :: 0 <= k < |w| ==> w[k] == urbs[if k < i then k else k + 1];
  }

  lemma DebtsOutOfOrder(owed: seq<Submission>, ghosts: seq<nat>, urbs: seq<Vurb>, i: nat)
    requires OwedInListOrder(owed, ghosts, urbs) && HoldersFirst(urbs) && i < |urbs| && !OldestFirst(urbs, i)
    requires urbs[0].id != urbs[i].id
    ensures |ghosts| < |owed| && owed[|ghosts|].owner == urbs[0].id
    ensures !OwedInListOrder(owed, ghosts + [urbs[i].id], Without(urbs, i))
  {
    assert Holds(urbs[0]);
    assert owed[|ghosts| + 0].owner == urbs[0].id;
    var more := ghosts + [urbs[i].id];
    assert more[|ghosts|] == urbs[i].id;
  }

  /** Cancelling keeps the T2's debts in list order exactly when it takes the oldest. */
  lemma CancelKeepsOrderIff(q: Core, i: nat)
    requires InOrderLaw(q) && i < |q.urbs| && (i > 0 ==> q.urbs[0].id != q.urbs[i].id)
    ensures InOrderLaw(CancelUrb(q, i)) <==> OldestFirst(q.urbs, i)
  {
    InCancel(q, i);
    if OldestFirst(q.urbs, i) {
      DebtsAfterCancel(q.dma.sqIn.owed, q.counters.ghostIn, q.urbs, i);
    } else {
      DebtsOutOfOrder(q.dma.sqIn.owed, q.counters.ghostIn, q.urbs, i);
    }
  }

  /** Out of order the next completion goes to the wrong URB: it answers the oldest URB's submission and is charged to
      the younger one that was cancelled. */
  lemma YoungestFirstMischarges(q: Core, i: nat, c: Completion)
    requires InOrderLaw(q) && q.counters.ghostIn == [] && i < |q.urbs| && !OldestFirst(q.urbs, i)
    requires q.urbs[0].id != q.urbs[i].id && !c.aborted
    ensures var r := CancelUrb(q, i);
      && r.dma.sqIn.owed != [] && r.dma.sqIn.owed[0].owner == q.urbs[0].id
      && |CompleteOne(r, false, c).log| > |q.log|
      && CompleteOne(r, false, c).log[|q.log|] == Answered(r.dma.sqIn.owed[0], ToCancelled(q.urbs[i].id))
  {
    DebtsOutOfOrder(q.dma.sqIn.owed, q.counters.ghostIn, q.urbs, i);
    var r := CancelUrb(q, i);
    var k := r.counters;
    assert k.ghostIn == [q.urbs[i].id];
    InCancel(q, i);
    GhostInAsNotify(r);
    var n := Notify(r, false, ToCancelled(k.ghostIn[0])).(counters := Freed(k).(ghostIn := k.ghostIn[1..]));
    KeptInitPendingFrom(n, 0, 0);
    assert n.log <= InitPendingFrom(n, 0).log;
  }

  // ---------------------------------------------------------------- whole runs

  /** Between flushes, reservations granted, and whoever cancels takes the oldest URB or one not submitted yet. */
  predicate OrderlyAction(q: Queue, a: Action) {
    && InAction(a)
    && (a.Cancel? ==>
          var i := IndexOf(q.core.urbs, a.id);
          i == |q.core.urbs| || OldestFirst(q.core.urbs, i))
  }

  predicate OrderlyActions(q: Queue, acts: seq<Action>)
    requires Legal(q, acts)
    decreases |acts|
  {
    acts == [] || (OrderlyAction(q, acts[0]) && OrderlyActions(Apply(q, acts[0]), acts[1..]))
  }

  lemma OrderCancel(q: Core, i: nat)
    requires InOrderLaw(q) && i < |q.urbs| && OldestFirst(q.urbs, i)
    ensures InOrderLaw(CancelUrb(q, i))
  {
    InCancel(q, i);
    DebtsAfterCancel(q.dma.sqIn.owed, q.counters.ghostIn, q.urbs, i);
  }

  lemma OrderCancelled(q: Core, i: nat, status: int)
    requires InOrderLaw(q) && i < |q.urbs| && OldestFirst(q.urbs, i)
    ensures InOrderLaw(Withdraw(CancelUrb(q, i), q.urbs[i], status))
  {
    OrderCancel(q, i);
    var r := Withdraw(CancelUrb(q, i), q.urbs[i], status);
    assert forall k :: 0 <= k < |q.log| ==> r.log[k] == q.log[k];
  }

  lemma OrderStep(q: Queue, a: Action)
    requires InOrderLaw(q.core) && Enabled(q, a) && OrderlyAction(q, a)
    ensures InOrderLaw(Apply(q, a).core)
  {
    if Quiet(a) {
      QuietStep(q, a);
      InStep(q, a);
    } else {
      match a
      case Submit(id, _, length, link, _) => OrderCreate(q.core, InternalWq in q.pausedBy, id, length, link);
      case Deliver(msg, memory, _) => OrderEvent(q.core, InternalWq in q.pausedBy, msg, memory);
      case Harvested(out, cs, _) =>
        if !out {
          OrderCompleteLoop(q.core, cs);
        }
        OrderDeliver(CompleteLoop(q.core, out, cs));
      case Cancel(id, status) =>
        CancelCore(q, id, status);
        var i := IndexOf(q.core.urbs, id);
        if i < |q.core.urbs| {
          OrderCancelled(q.core, i, status);
        }
      case _ => InStep(q, a);
    }
  }

  lemma {:induction false} OrderRun(q: Queue, acts: seq<Action>)
    requires InOrderLaw(q.core) && Legal(q, acts) && OrderlyActions(q, acts)
    ensures InOrderLaw(Run(q, acts).core)
    decreases |acts|
  {
    if acts != [] {
      OrderStep(q, acts[0]);
      OrderRun(Apply(q, acts[0]), acts[1..]);
    }
  }

  /** Exact attribution on IN endpoints under oldest-first cancellation: every completion is charged to the URB, live
      or cancelled, whose submission it answers. */
  lemma InExactAttribution(cfg: Config, acts: seq<Action>)
    requires InConfig(cfg) && Legal(NewQueue(cfg), acts) && OrderlyActions(NewQueue(cfg), acts)
    ensures var q := Run(NewQueue(cfg), acts).core;
      && AllExact(q.log)
      && OwedInListOrder(q.dma.sqIn.owed, q.counters.ghostIn, q.urbs)
  {
    OrderRun(NewQueue(cfg), acts);
  }

  /** Two submissions on a new IN endpoint with more than one slot: both URBs wait, and the younger may be cancelled
      first. */
  lemma TwoWaiters(cfg: Config, a: nat, b: nat, la: nat, lb: nat, acts: seq<Action>)
    requires InConfig(cfg) && cfg.maxActive > 1 && a != b && la < U32_RANGE && lb < U32_RANGE
    requires acts == [Submit(a, true, la, 0, []), Submit(b, true, lb, 0, [])]
    ensures Legal(NewQueue(cfg), acts)
    ensures var q := Run(NewQueue(cfg), acts).core;
      && InOrderLaw(q) && q.counters.ghostIn == [] && |q.urbs| == 2 && q.urbs[0].id == a && q.urbs[1].id == b
      && !OldestFirst(q.urbs, 1)
  {
    var q0 := NewQueue(cfg);
    SubmitWaits(q0, a, la);
    var q1 := Apply(q0, acts[0]);
    PlacesStep(q0, acts[0], b);
    SubmitWaits(q1, b, lb);
    var q2 := Apply(q1, acts[1]);
    TwoSteps(q0, acts, []);
  }

  lemma SubmitWaits(q: Queue, id: nat, length: nat)
    requires InOrderLaw(q.core) && q.core.evq == [] && q.core.flags.active
    requires q.core.counters.remaining > 0 && q.core.dma.sqIn.available > 0 && AllHold(q.core.urbs, |q.core.urbs|)
    requires Enabled(q, Submit(id, true, length, 0, []))
    ensures var r := Apply(q, Submit(id, true, length, 0, []));
      && InOrderLaw(r.core)
      && r == q.(core := r.core) && r.core.cfg == q.core.cfg && r.core.evq == [] && r.core.flags == q.core.flags
      && r.core.dma.sqIn.available == q.core.dma.sqIn.available - 1
      && r.core.counters == Taken(q.core.counters)
      && |r.core.urbs| == |q.core.urbs| + 1 && r.core.urbs[..|q.core.urbs|] == q.core.urbs
      && r.core.urbs[|q.core.urbs|].id == id && AllHold(r.core.urbs, |r.core.urbs|)
  {
    OrderStep(q, Submit(id, true, length, 0, []));
    var c := Granted(q.core, []);
    var n := |c.urbs|;
    var c1 := c.(urbs := c.urbs + [FreshUrb(id, true, length)]);
    var s := FirstInit(c1, InternalWq in q.pausedBy, n);
    assert DeliverLoop(s.q) == s.q;
    AllHeld(s.q, 0);
  }

  lemma {:induction false} AllHeld(q: Core, i: nat)
    requires AllHold(q.urbs, |q.urbs|)
    ensures InitPendingFrom(q, i) == q
    decreases |q.urbs| - i
  {
    if i < |q.urbs| && CanInit(q) {
      AllHeld(q, i + 1);
    }
  }
}
