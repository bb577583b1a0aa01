/** Resuming an IN endpoint whose DMA was flushed: what is submitted again, what fails, and that the accounting of
    TransferIn holds again afterwards. */
module TransferResume {
  import opened TransferModel
  import opened TransferRuns
  import opened TransferAccounting
  import opened TransferTheorems
  import opened TransferIn

  /** The bytes of the buffer that were not received yet. */
  function Rest(u: Vurb): nat { (u.length - u.receiveOffset) % U32_RANGE }

  /** What a resume owes to the URBs that were waiting: a submission each, in list order, as long as the reservations on
      the message queue (`grants`, all granted once the list ends) and on the ring (`credits`) succeed. */
  datatype Plan = Plan(again: seq<Submission>, kept: seq<Vurb>, failed: seq<Vurb>, grants: seq<bool>)

  function PlanFor(waiting: seq<Vurb>, grants: seq<bool>, credits: int): (p: Plan)
    ensures |p.again| == |p.kept| && |p.kept| + |p.failed| == |waiting|
  {
    if waiting == [] then Plan([], [], [], grants)
    else
      var u, rest := waiting[0], if grants == [] then [] else grants[1..];
      if (grants == [] || grants[0]) && credits > 0 then
        var p := PlanFor(waiting[1..], rest, credits - 1);
        Plan([Submission(u.id, false, Rest(u))] + p.again, [u.(sendOffset := u.receiveOffset)] + p.kept, p.failed,
             p.grants)
      else
        var p := PlanFor(waiting[1..], rest, credits);
        p.(failed := [u] + p.failed)
  }

  /** The URBs that could not be submitted, on their way back with -ENOMEM. */
  function Failures(us: seq<Vurb>): (ds: seq<Done>)
    ensures |ds| == |us| && forall k :: 0 <= k < |us| ==> ds[k] == Done(us[k].id, -12, us[k].actualLength)
  {
    if us == [] then [] else [Done(us[0].id, -12, us[0].actualLength)] + Failures(us[1..])
  }

  /** r is q with the plan for urbs[i..w] carried out. */
  predicate CarriedOut(q: Core, r: Core, i: nat, w: nat)
    requires i <= w <= |q.urbs|
  {
    var p := PlanFor(q.urbs[i..w], q.dma.grants, q.dma.sqIn.available);
    && r.cfg == q.cfg && r.evq == q.evq && r.flags == q.flags
    && r.urbs == q.urbs[..i] + p.kept + q.urbs[w..]
    && r.dma == q.dma.(sqIn := Ring(q.dma.sqIn.available - |p.again|, q.dma.sqIn.owed + p.again), grants := p.grants)
    && r.giveback == q.giveback + Failures(p.failed)
    && r.counters == q.counters.(remaining := q.counters.remaining + |p.failed|)
    && (forall n :: 0 <= n < |q.log| && n < |r.log| ==> r.log[n] == q.log[n]) && |q.log| <= |r.log|
    && (forall n :: |q.log| <= n < |r.log| ==> r.log[n].Sent? || r.log[n].Finished?)
  }

  function KeptCount(q: Core, i: nat, w: nat): nat
    requires i <= w <= |q.urbs|
  {
    |PlanFor(q.urbs[i..w], q.dma.grants, q.dma.sqIn.available).kept|
  }

  predicate WaitingFrom(urbs: seq<Vurb>, i: nat, w: nat) {
    i <= w <= |urbs| && forall k :: i <= k < w ==> Waiting(urbs[k])
  }

  /** One turn of the loop, for a URB that waits. */
  lemma OneTurn(q: Core, i: nat, w: nat)
    requires WaitingFrom(q.urbs, i, w) && i < w
    ensures var q1 := UrbResume(q, i);
      if InReserved(q.dma)
      then |q1.urbs| == |q.urbs| && WaitingFrom(q1.urbs, i + 1, w) && ResumeFrom(q, i) == ResumeFrom(q1, i + 1)
      else |q1.urbs| == |q.urbs| - 1 && WaitingFrom(q1.urbs, i, w - 1) && ResumeFrom(q, i) == ResumeFrom(q1, i)
  {
    if InReserved(q.dma) {
      ResumeSubmits(q, i);
    } else {
      ResumeFails(q, i);
    }
  }

  /** The loop, as far as the URBs that were waiting. */
  function AfterWaiting(q: Core, i: nat, w: nat): Core
    requires WaitingFrom(q.urbs, i, w)
    decreases w - i
  {
    if i == w then q
    else
      OneTurn(q, i, w);
      if InReserved(q.dma) then AfterWaiting(UrbResume(q, i), i + 1, w) else AfterWaiting(UrbResume(q, i), i, w - 1)
  }

  /** It carries the plan out. */
  lemma {:induction false} WaitingCarriedOut(q: Core, i: nat, w: nat)
    requires WaitingFrom(q.urbs, i, w)
    ensures CarriedOut(q, AfterWaiting(q, i, w), i, w)
    decreases w - i
  {
    if i == w {
      NothingToDo(q, i);
    } else {
      OneTurn(q, i, w);
      var q1 := UrbResume(q, i);
      if InReserved(q.dma) {
        WaitingCarriedOut(q1, i + 1, w);
        SubmittedStep(q, q1, AfterWaiting(q1, i + 1, w), i, w);
      } else {
        WaitingCarriedOut(q1, i, w - 1);
        FailedStep(q, q1, AfterWaiting(q1, i, w - 1), i, w);
      }
    }
  }

  lemma KeptStep(q: Core, i: nat, w: nat)
    requires WaitingFrom(q.urbs, i, w) && i < w
    ensures var q1 := UrbResume(q, i);
      if InReserved(q.dma)
      then |q1.urbs| == |q.urbs| && KeptCount(q, i, w) == KeptCount(q1, i + 1, w) + 1
      else |q1.urbs| == |q.urbs| - 1 && KeptCount(q, i, w) == KeptCount(q1, i, w - 1)
  {
    var q1 := UrbResume(q, i);
    if InReserved(q.dma) {
      ResumeSubmits(q, i);
      assert q.urbs[i..w][1..] == q1.urbs[i + 1..w];
    } else {
      ResumeFails(q, i);
      WithoutSlices(q.urbs, i, w);
    }
  }

  /** Where the loop goes on: behind the URBs it kept. */
  function GoesOnAt(q: Core, i: nat, w: nat): nat
    requires WaitingFrom(q.urbs, i, w)
    decreases w - i
  {
    if i == w then i
    else
      OneTurn(q, i, w);
      if InReserved(q.dma) then GoesOnAt(UrbResume(q, i), i + 1, w) else GoesOnAt(UrbResume(q, i), i, w - 1)
  }

  lemma {:induction false} GoesOnBehindKept(q: Core, i: nat, w: nat)
    requires WaitingFrom(q.urbs, i, w)
    ensures GoesOnAt(q, i, w) == i + KeptCount(q, i, w)
    decreases w - i
  {
    if i < w {
      OneTurn(q, i, w);
      KeptStep(q, i, w);
      if InReserved(q.dma) {
        GoesOnBehindKept(UrbResume(q, i), i + 1, w);
      } else {
        GoesOnBehindKept(UrbResume(q, i), i, w - 1);
      }
    }
  }

  lemma {:induction false} WaitingThenRest(q: Core, i: nat, w: nat)
    requires WaitingFrom(q.urbs, i, w)
    ensures ResumeFrom(q, i) == ResumeFrom(AfterWaiting(q, i, w), GoesOnAt(q, i, w))
    decreases w - i
  {
    if i < w {
      OneTurn(q, i, w);
      if InReserved(q.dma) {
        WaitingThenRest(UrbResume(q, i), i + 1, w);
      } else {
        WaitingThenRest(UrbResume(q, i), i, w - 1);
      }
    }
  }

  lemma NothingToDo(q: Core, i: nat)
    requires i <= |q.urbs|
    ensures CarriedOut(q, q, i, i)
  {
    assert q.urbs[..i] + [] + q.urbs[i..] == q.urbs;
    assert q.dma.sqIn.owed + [] == q.dma.sqIn.owed;
    assert q.giveback + [] == q.giveback;
  }

  /** A waiting URB is submitted again for the rest of its buffer. */
  lemma ResumeSubmits(q: Core, i: nat)
    requires i < |q.urbs| && Waiting(q.urbs[i]) && InReserved(q.dma)
    ensures var u := q.urbs[i]; var sub := Submission(u.id, false, Rest(u));
      UrbResume(q, i) == q.(urbs := q.urbs[i := u.(sendOffset := u.receiveOffset)],
                            dma := q.dma.(sqIn := Ring(q.dma.sqIn.available - 1, q.dma.sqIn.owed + [sub]),
                                          grants := RestGrants(q.dma)),
                            log := q.log + [Sent(sub, Rest(u))])
  {
  }

  lemma SubmittedStep(q: Core, q1: Core, r: Core, i: nat, w: nat)
    requires i < w <= |q.urbs| && Waiting(q.urbs[i]) && InReserved(q.dma) && q1 == UrbResume(q, i)
    requires |q1.urbs| == |q.urbs| && CarriedOut(q1, r, i + 1, w)
    ensures CarriedOut(q, r, i, w)
  {
    var u := q.urbs[i];
    var v := u.(sendOffset := u.receiveOffset);
    ResumeSubmits(q, i);
    assert q.urbs[i..w][1..] == q.urbs[i + 1..w] == q1.urbs[i + 1..w];
    var p1 := PlanFor(q1.urbs[i + 1..w], q1.dma.grants, q1.dma.sqIn.available);
    var p := PlanFor(q.urbs[i..w], q.dma.grants, q.dma.sqIn.available);
    assert p == Plan([Submission(u.id, false, Rest(u))] + p1.again, [v] + p1.kept, p1.failed, p1.grants);
    assert q1.urbs[..i + 1] == q.urbs[..i] + [v] && q1.urbs[w..] == q.urbs[w..];
    assert q.urbs[..i] + [v] + p1.kept == q.urbs[..i] + p.kept;
    assert (q.dma.sqIn.owed + [Submission(u.id, false, Rest(u))]) + p1.again == q.dma.sqIn.owed + p.again;
  }

  lemma WithoutSlices(urbs: seq<Vurb>, i: nat, w: nat)
    requires i < w <= |urbs|
    ensures var v := Without(urbs, i);
      && |v| == |urbs| - 1 && v[..i] == urbs[..i] && v[w - 1..] == urbs[w..] && v[i..w - 1] == urbs[i..w][1..]
  {
  }

  /** The URB alone whose reservation failed leaves the list. */
  lemma ResumeFails(q: Core, i: nat)
    requires i < |q.urbs| && Waiting(q.urbs[i]) && !InReserved(q.dma)
    ensures var u := q.urbs[i];
      UrbResume(q, i) == q.(urbs := Without(q.urbs, i), giveback := q.giveback + [Done(u.id, -12, u.actualLength)],
                            counters := q.counters.(remaining := q.counters.remaining + 1),
                            dma := q.dma.(grants := RestGrants(q.dma)), log := q.log + [Finished(u, -12)])
  {
  }

  lemma FailedStep(q: Core, q1: Core, r: Core, i: nat, w: nat)
    requires i < w <= |q.urbs| && Waiting(q.urbs[i]) && !InReserved(q.dma) && q1 == UrbResume(q, i)
    requires |q1.urbs| == |q.urbs| - 1 && CarriedOut(q1, r, i, w - 1)
    ensures CarriedOut(q, r, i, w)
  {
    var u := q.urbs[i];
    ResumeFails(q, i);
    WithoutSlices(q.urbs, i, w);
    var p1 := PlanFor(q1.urbs[i..w - 1], q1.dma.grants, q1.dma.sqIn.available);
    FailedPlan(q.urbs[i..w], q.dma.grants, q.dma.sqIn.available);
    FailuresStep(q.giveback, u, p1.failed);
  }

  lemma FailedPlan(us: seq<Vurb>, grants: seq<bool>, credits: int)
    requires us != [] && !((grants == [] || grants[0]) && credits > 0)
    ensures var p := PlanFor(us[1..], if grants == [] then [] else grants[1..], credits);
      PlanFor(us, grants, credits) == p.(failed := [us[0]] + p.failed)
  {
  }

  lemma FailuresStep(giveback: seq<Done>, u: Vurb, failed: seq<Vurb>)
    ensures (giveback + [Done(u.id, -12, u.actualLength)]) + Failures(failed) == giveback + Failures([u] + failed)
  {
    assert ([u] + failed)[1..] == failed;
  }

  // ---------------------------------------------------------------- with every reservation granted

  /** Then every waiting URB is submitted again. */
  lemma {:induction false} AllAgain(us: seq<Vurb>, credits: int)
    requires credits >= |us|
    ensures var p := PlanFor(us, [], credits);
      && p.failed == [] && p.grants == [] && |p.again| == |p.kept| == |us|
      && (forall k :: 0 <= k < |us| ==> p.again[k] == Submission(us[k].id, false, Rest(us[k])))
      && (forall k :: 0 <= k < |us| ==> p.kept[k] == us[k].(sendOffset := us[k].receiveOffset))
  {
    if us != [] {
      AllAgain(us[1..], credits - 1);
    }
  }

  /** An IN endpoint whose DMA was flushed: as in TransferIn, but nothing is owed and there are no ghosts. */
  predicate Flushed(q: Core) {
    && InConfig(q.cfg) && q.dma.grants == []
    && InUrbs(q.urbs) && HoldersFirst(q.urbs)
    && q.counters.ghostIn == [] && q.counters.ghostOut == [] && q.dma.sqIn.owed == [] && q.dma.sqOut.owed == []
    && q.counters.remaining >= 0 && SlotsSeen(q) == q.cfg.maxActive
    && Drained(q.dma) && NoneDiscarded(q.log)
  }

  /** The waiting URBs come first; `Slots` counts them. */
  lemma {:induction false} WaitersFirst(urbs: seq<Vurb>)
    requires InUrbs(urbs) && HoldersFirst(urbs)
    ensures Slots(urbs) <= |urbs|
    ensures forall k :: 0 <= k < |urbs| ==> (Waiting(urbs[k]) <==> k < Slots(urbs))
  {
    if urbs != [] {
      var n := |urbs| - 1;
      WaitersFirst(urbs[..n]);
      if Holds(urbs[n]) && n > 0 {
        assert Holds(urbs[n - 1]);
        assert Waiting(urbs[..n][n - 1]);
      }
    }
  }

  /** The state in the middle: every waiter submitted, in list order. */
  predicate Submitted(q: Core, r: Core, w: nat) {
    && w <= |q.urbs| == |r.urbs| && |r.dma.sqIn.owed| == w
    && (forall k :: 0 <= k < w ==> r.dma.sqIn.owed[k] == Submission(q.urbs[k].id, false, Rest(q.urbs[k])))
    && (forall k :: 0 <= k < |q.urbs| ==> r.urbs[k].state == q.urbs[k].state && r.urbs[k].dirIn == q.urbs[k].dirIn)
    && r.flags == q.flags && r.cfg == q.cfg && r.counters == q.counters
    && r.dma == q.dma.(sqIn := Ring(q.dma.sqIn.available - w, r.dma.sqIn.owed))
    && (NoneDiscarded(q.log) ==> NoneDiscarded(r.log))
  }

  lemma WaitersSubmitted(q: Core, w: nat, r: Core)
    requires Flushed(q) && w == Slots(q.urbs) && WaitingFrom(q.urbs, 0, w) && r == AfterWaiting(q, 0, w)
    ensures Submitted(q, r, w) && KeptCount(q, 0, w) == w
  {
    WaitingCarriedOut(q, 0, w);
    AllAgain(q.urbs[0..w], q.dma.sqIn.available);
    var p := PlanFor(q.urbs[0..w], q.dma.grants, q.dma.sqIn.available);
    assert q.dma.sqIn.owed + p.again == p.again;
    KeptInPlace(q.urbs, p.kept, w);
  }

  lemma KeptInPlace(urbs: seq<Vurb>, kept: seq<Vurb>, w: nat)
    requires |kept| == w <= |urbs|
    requires forall k :: 0 <= k < w ==> kept[k] == urbs[0..w][k].(sendOffset := urbs[0..w][k].receiveOffset)
    ensures var all := urbs[..0] + kept + urbs[w..];
      |all| == |urbs| && forall k :: 0 <= k < |urbs| ==> all[k].state == urbs[k].state && all[k].dirIn == urbs[k].dirIn
  {
    var all := urbs[..0] + kept + urbs[w..];
    assert forall k :: 0 <= k < w ==> all[k] == kept[k] && urbs[0..w][k] == urbs[k];
    assert forall k :: w <= k < |urbs| ==> all[k] == urbs[k];
  }

  /** Then the accounting of TransferIn holds. */
  lemma SubmittedAccounting(q: Core, r: Core, w: nat)
    requires Flushed(q) && w == Slots(q.urbs) && Submitted(q, r, w)
    ensures InSection(r) && AllHold(r.urbs, w) && forall k :: w <= k < |r.urbs| ==> !Holds(r.urbs[k])
  {
    WaitersFirst(q.urbs);
    SameShape(q.urbs, r.urbs);
  }

  lemma {:induction false} SameShape(a: seq<Vurb>, b: seq<Vurb>)
    requires |a| == |b| && forall k :: 0 <= k < |a| ==> b[k].state == a[k].state && b[k].dirIn == a[k].dirIn
    ensures Slots(a) == Slots(b) && (InUrbs(a) ==> InUrbs(b)) && (HoldersFirst(a) ==> HoldersFirst(b))
  {
    if a != [] {
      SameShape(a[..|a| - 1], b[..|b| - 1]);
      assert InUrb(a[|a| - 1]) ==> InUrb(b[|b| - 1]);
      assert forall k :: 0 <= k < |a| ==> InUrb(a[k]) == InUrb(b[k]);
    }
  }

  /** The rest of the loop starts pending URBs as long as there are slots. */
  lemma {:induction false} PendingStarted(q: Core, i: nat)
    requires InSection(q) && i <= |q.urbs| && AllHold(q.urbs, i) && forall k :: i <= k < |q.urbs| ==> !Holds(q.urbs[k])
    ensures InSection(ResumeFrom(q, i)) && q.dma.sqIn.owed <= ResumeFrom(q, i).dma.sqIn.owed
    ensures ResumeFrom(q, i).flags == q.flags
    decreases |q.urbs| - i
  {
    if i < |q.urbs| && CanInit(q) {
      InInit(q, i);
      PendingStarted(UrbInit(q, i).q, i + 1);
    }
  }

  /** Resuming a flushed IN endpoint with reservations granted submits exactly one transfer for each URB that was
      waiting, in list order, for its owner and the rest of its buffer; what follows belongs to URBs started now. And
      the accounting law of IN endpoints holds again: what is owed is what somebody waits for. */
  lemma ResumeRestores(q: Core, r: Core)
    requires Flushed(q) && r == ResumeActivate(q)
    ensures InLaw(r) && r.flags.active
    ensures |r.dma.sqIn.owed| >= Slots(q.urbs) && Slots(q.urbs) <= |q.urbs|
    ensures forall k :: 0 <= k < Slots(q.urbs) ==>
              Waiting(q.urbs[k]) && r.dma.sqIn.owed[k] == Submission(q.urbs[k].id, false, Rest(q.urbs[k]))
    ensures forall k :: Slots(q.urbs) <= k < |q.urbs| ==> !Waiting(q.urbs[k])
  {
    var a, w := q.(flags := q.flags.(active := true)), Slots(q.urbs);
    WaitersFirst(q.urbs);
    var m := AfterWaiting(a, 0, w);
    WaitingThenRest(a, 0, w);
    GoesOnBehindKept(a, 0, w);
    WaitersSubmitted(a, w, m);
    SubmittedAccounting(a, m, w);
    PendingStarted(m, w);
    var n := ResumeFrom(m, w);
    InDeliver(n);
    PendingOwed(n, 0);
  }

  /** Starting pending URBs only adds to what is owed. */
  lemma {:induction false} PendingOwed(q: Core, i: nat)
    requires InSection(q) && i <= |q.urbs| && AllHold(q.urbs, i)
    ensures q.dma.sqIn.owed <= InitPendingFrom(q, i).dma.sqIn.owed
    decreases |q.urbs| - i
  {
    if i < |q.urbs| && CanInit(q) {
      if q.urbs[i].state == InitPending {
        InInit(q, i);
        PendingOwed(UrbInit(q, i).q, i + 1);
      } else {
        PendingOwed(q, i + 1);
      }
    }
  }

  // ---------------------------------------------------------------- in list order, whatever the states

  /** One submission for each URB, in list order. */
  function InListOrder(us: seq<Vurb>): (r: seq<Submission>)
    ensures |r| == |us| && forall k :: 0 <= k < |us| ==> r[k] == Submission(us[k].id, false, Rest(us[k]))
  {
    if us == [] then [] else [Submission(us[0].id, false, Rest(us[0]))] + InListOrder(us[1..])
  }

  function Pending(us: seq<Vurb>): nat {
    if us == [] then 0 else Pending(us[1..]) + if us[0].state == InitPending then 1 else 0
  }

  /** With reservations granted and slots for all, the loop submits every URB of an IN endpoint, waiting or pending,
      each once and in list order: a pending URB does not keep it from those behind. */
  lemma {:induction false} EveryoneSubmitted(q: Core, i: nat)
    requires InConfig(q.cfg) && InUrbs(q.urbs) && i <= |q.urbs| && q.dma.grants == []
    requires q.dma.sqIn.available >= |q.urbs| - i && q.counters.remaining >= Pending(q.urbs[i..])
    ensures ResumeFrom(q, i).dma.sqIn.owed == q.dma.sqIn.owed + InListOrder(q.urbs[i..])
    decreases |q.urbs| - i
  {
    if i == |q.urbs| {
      assert q.dma.sqIn.owed + [] == q.dma.sqIn.owed;
    } else {
      var q1 := if q.urbs[i].state == InitPending then UrbInit(q, i).q else UrbResume(q, i);
      LoopGoesOn(q, i);
      OneSubmitted(q, i, q1);
      EveryoneSubmitted(q1, i + 1);
      assert q1.urbs[i + 1..] == q.urbs[i..][1..];
      OrderStep(q.dma.sqIn.owed, q.urbs[i..]);
    }
  }

  lemma OrderStep(owed: seq<Submission>, us: seq<Vurb>)
    requires us != []
    ensures (owed + [Submission(us[0].id, false, Rest(us[0]))]) + InListOrder(us[1..]) == owed + InListOrder(us)
  {
  }

  lemma LoopGoesOn(q: Core, i: nat)
    requires InConfig(q.cfg) && InUrbs(q.urbs) && i < |q.urbs| && q.dma.grants == [] && q.dma.sqIn.available > 0
    requires q.counters.remaining >= Pending(q.urbs[i..])
    ensures var q1 := if q.urbs[i].state == InitPending then UrbInit(q, i).q else UrbResume(q, i);
      ResumeFrom(q, i) == ResumeFrom(q1, i + 1)
    ensures q.urbs[i].state == InitPending ==> CanInit(q)
    ensures Pending(q.urbs[i..]) == Pending(q.urbs[i..][1..]) + if q.urbs[i].state == InitPending then 1 else 0
  {
  }

  lemma OneSubmitted(q: Core, i: nat, q1: Core)
    requires InConfig(q.cfg) && InUrbs(q.urbs) && i < |q.urbs| && q.dma.grants == [] && q.dma.sqIn.available > 0
    requires q.urbs[i].state == InitPending ==> CanInit(q)
    requires q1 == if q.urbs[i].state == InitPending then UrbInit(q, i).q else UrbResume(q, i)
    ensures |q1.urbs| == |q.urbs| && q1.urbs == q.urbs[i := q1.urbs[i]] && InUrbs(q1.urbs) && q1.cfg == q.cfg
    ensures q1.dma.grants == [] && q1.dma.sqIn.available == q.dma.sqIn.available - 1
    ensures q1.dma.sqIn.owed == q.dma.sqIn.owed + [Submission(q.urbs[i].id, false, Rest(q.urbs[i]))]
    ensures q1.counters.remaining == q.counters.remaining - if q.urbs[i].state == InitPending then 1 else 0
  {
  }
}
