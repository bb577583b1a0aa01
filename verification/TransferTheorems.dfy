/** What every run of a transfer queue keeps. */
module TransferTheorems {
  import opened TransferModel
  import opened TransferRuns
  import opened TransferAccounting

  // ---------------------------------------------------------------- the ledger

  /** Cancelled control URBs whose slot is kept for the flush worker. */
  function Held(q: Queue): nat { if q.core.cfg.control then |q.flushGiveback| else 0 }

  /** Every active slot there is, wherever it went. */
  function Load(q: Queue): int { SlotsSeen(q.core) + Held(q) }

  predicate Ledger(q: Queue) {
    && LegalConfig(q.core.cfg)
    && q.core.counters.remaining >= 0
    && Drained(q.core.dma)
    && (q.core.cfg.control ==> Ghosts(q.core.counters) == 0)
  }

  /** A critical section leaves the queue's own fields alone and keeps what Kept says. */
  predicate Section(q: Queue, r: Queue, id: nat) {
    && r == q.(core := r.core)
    && Kept(q.core, r.core, id)
  }

  /** The steps that are one critical section on urb_lock and take no URB on or off the books. */
  predicate Ordinary(a: Action) { a.Deliver? || a.Harvested? || a.CancelEverything? }

  lemma OrdinaryStep(q: Queue, a: Action, id: nat)
    requires Enabled(q, a) && Ordinary(a)
    ensures Section(q, Apply(q, a), id)
  {
    match a
    case Deliver(msg, memory, granted) =>
      KeptEvent(Granted(q.core, granted), InternalWq in q.pausedBy, msg, memory, id);
    case Harvested(out, cs, granted) =>
      KeptCompletionHandler(Granted(q.core, granted), out, cs, id);
    case CancelEverything =>
      KeptCancelLoop(q.core.(flags := q.core.flags.(active := false)), id);
  }

  /** Did this step put the URB on the endpoint? */
  predicate Enqueues(q: Queue, a: Action, id: nat) {
    && a.Submit? && a.id == id
    && UrbCreate(Granted(q.core, a.granted), InternalWq in q.pausedBy, a.id, a.dirIn, a.length,
      a.linkStatus).status == 0
  }

  lemma SubmitStep(q: Queue, a: Action, id: nat)
    requires Enabled(q, a) && a.Submit?
    ensures var r := Apply(q, a);
      && r == q.(core := r.core) && r.core.cfg == q.core.cfg
      && (r.core.flags.active ==> q.core.flags.active)
      && SlotsSeen(r.core) == SlotsSeen(q.core)
      && Ghosts(r.core.counters) <= Ghosts(q.core.counters)
      && (q.core.counters.remaining >= 0 ==> r.core.counters.remaining >= 0)
      && (OutDrained(q.core.dma) ==> OutDrained(r.core.dma))
      && InEntries(r.core.dma) == InEntries(q.core.dma)
      && (q.core.dma.sqIn.available >= 0 ==> r.core.dma.sqIn.available >= 0)
      && Places(r, id) == Places(q, id) + (if Enqueues(q, a, id) then 1 else 0)
      && q.core.log <= r.core.log
  {
    var c := Granted(q.core, a.granted);
    var u := FreshUrb(a.id, a.dirIn, a.length);
    KeptUrbCreate(c, InternalWq in q.pausedBy, a.id, a.dirIn, a.length, a.linkStatus, id);
    TallyConcat(q.core.urbs, [u], id);
    TallyOne(u, id);
  }

  /** What a cancel does to the core. */
  lemma CancelCore(q: Queue, cid: nat, status: int)
    ensures var i := IndexOf(q.core.urbs, cid);
      RequestCancel(q, cid, status).0.core ==
      if i < |q.core.urbs| then Withdraw(CancelUrb(q.core, i), q.core.urbs[i], status) else q.core
  {
  }

  lemma CancelPlaces(q: Queue, cid: nat, status: int, id: nat)
    ensures Places(RequestCancel(q, cid, status).0, id) == Places(q, id)
  {
    var i := IndexOf(q.core.urbs, cid);
    var r := RequestCancel(q, cid, status).0;
    if i < |q.core.urbs| {
      var done := Done(q.core.urbs[i].id, status, q.core.urbs[i].actualLength);
      CancelCore(q, cid, status);
      CancelLists(q, cid, status, done);
      TallyRemove(q.core.urbs, i, id);
      GoingAppend(q.flushGiveback, done, id);
      GoingAppend(q.inHand, done, id);
    }
  }

  lemma CancelLists(q: Queue, cid: nat, status: int, done: Done)
    requires var i := IndexOf(q.core.urbs, cid);
      i < |q.core.urbs| && done == Done(q.core.urbs[i].id, status, q.core.urbs[i].actualLength)
    ensures var r := RequestCancel(q, cid, status).0;
      && r.given == q.given && r.core.giveback == q.core.giveback
      && (|| (r.flushGiveback == q.flushGiveback + [done] && r.inHand == q.inHand)
          || (r.flushGiveback == q.flushGiveback && r.inHand == q.inHand + [done]))
  {
  }

  lemma CancelLoad(q: Queue, cid: nat, status: int)
    requires q.core.cfg.control ==> Ghosts(q.core.counters) == 0
    ensures Load(RequestCancel(q, cid, status).0) == Load(q)
  {
    var i := IndexOf(q.core.urbs, cid);
    if i < |q.core.urbs| {
      TallyRemove(q.core.urbs, i, cid);
    }
  }

  lemma CancelFrame(q: Queue, cid: nat, status: int)
    ensures var r := RequestCancel(q, cid, status).0;
      && r.core.cfg == q.core.cfg && r.core.flags == q.core.flags && r.core.dma == q.core.dma
      && q.core.log <= r.core.log
      && r.given == q.given && r.pausedBy == q.pausedBy && r.holder == q.holder
      && (q.core.counters.remaining >= 0 ==> r.core.counters.remaining >= 0)
      && (q.core.cfg.control ==> r.core.counters == q.core.counters)
  {
  }

  /** Pause, resume, reset and suspend bookkeeping: no URB, counter or DMA is touched. */
  predicate Quiet(a: Action) {
    || a.StallReported? || a.PauseStart? || a.PauseDropEvents? || a.PauseEnd? || a.ResumeStart? || a.ResumeFail?
    || a.ResumeEnd? || a.ResetStart? || a.ResetDropEvents? || a.ResetEnd? || a.SuspendStart? || a.SuspendEnd?
  }

  lemma QuietStep(q: Queue, a: Action)
    requires Enabled(q, a) && Quiet(a)
    ensures var r := Apply(q, a);
      && r.core == q.core.(flags := r.core.flags, evq := r.core.evq)
      && r == q.(core := r.core, pausedBy := r.pausedBy, holder := r.holder)
      && (r.core.flags.active ==> q.core.flags.active)
  {
  }

  lemma LedgerStep(q: Queue, a: Action)
    requires Ledger(q) && Enabled(q, a)
    ensures Ledger(Apply(q, a)) && Apply(q, a).core.cfg == q.core.cfg
  {
    if Ordinary(a) {
      OrdinaryStep(q, a, 0);
    } else if a.Submit? {
      SubmitStep(q, a, 0);
    } else if a.Cancel? {
      CancelFrame(q, a.id, a.status);
    } else if a.ResumeGo? {
      KeptResumeActivate(Granted(q.core, a.granted), 0);
    } else if Quiet(a) {
      QuietStep(q, a);
    }
  }

  lemma {:induction false} LedgerRun(q: Queue, acts: seq<Action>)
    requires Ledger(q) && Legal(q, acts)
    ensures Ledger(Run(q, acts)) && Run(q, acts).core.cfg == q.core.cfg
    decreases |acts|
  {
    if acts != [] {
      LedgerStep(q, acts[0]);
      LedgerRun(Apply(q, acts[0]), acts[1..]);
    }
  }

  /** Output drain: in every run sq_out_pending is exactly the output DMA in flight, so a pause
      that saw it reach zero leaves none. */
  lemma OutputDrain(cfg: Config, acts: seq<Action>)
    requires LegalConfig(cfg) && Legal(NewQueue(cfg), acts)
    ensures var d := Run(NewQueue(cfg), acts).core.dma;
      && d.sqOutPending == RING_CREDITS - d.sqOut.available == |d.sqOut.owed|
      && (d.sqOutPending == 0 <==> d.sqOut.owed == [])
  {
    LedgerRun(NewQueue(cfg), acts);
  }

  // ---------------------------------------------------------------- exactly-once giveback

  lemma PopPlaces(q: Queue, id: nat)
    requires q.core.giveback != []
    ensures Places(GivebackPop(q), id) == Places(q, id)
  {
    GoingAppend(q.inHand, q.core.giveback[0], id);
    GoingRemove(q.core.giveback, 0, id);
    assert q.core.giveback[..0] + q.core.giveback[1..] == q.core.giveback[1..];
  }

  lemma HandPlaces(q: Queue, k: nat, id: nat)
    requires k < |q.inHand|
    ensures Places(HandOver(q, k), id) == Places(q, id)
  {
    GoingRemove(q.inHand, k, id);
    GoingAppend(q.given, q.inHand[k], id);
  }

  lemma SplicePlaces(q: Queue, id: nat)
    ensures Places(FlushReset(q), id) == Places(q, id) == Places(DestroySplice(q), id)
  {
    GoingConcat(q.core.giveback, q.flushGiveback, id);
  }

  lemma PlacesStep(q: Queue, a: Action, id: nat)
    requires Enabled(q, a)
    ensures Places(Apply(q, a), id) == Places(q, id) + if Enqueues(q, a, id) then 1 else 0
  {
    if Ordinary(a) {
      OrdinaryStep(q, a, id);
    } else if Quiet(a) {
      QuietStep(q, a);
    } else {
      match a
      case Submit(_, _, _, _, _) => SubmitStep(q, a, id);
      case Cancel(cid, status) => CancelPlaces(q, cid, status, id);
      case PopGiveback => PopPlaces(q, id);
      case HandBack(k) => HandPlaces(q, k, id);
      case ResumeGo(granted) => KeptResumeActivate(Granted(q.core, granted), id);
      case StartFlush =>
      case _ => SplicePlaces(q, id);
    }
  }

  /** Was the URB enqueued successfully somewhere in this run? */
  predicate Enqueued(q: Queue, acts: seq<Action>, id: nat)
    requires Legal(q, acts)
    decreases |acts|
  {
    acts != [] && (Enqueues(q, acts[0], id) || Enqueued(Apply(q, acts[0]), acts[1..], id))
  }

  lemma {:induction false} PlacesRun(q: Queue, acts: seq<Action>, id: nat)
    requires Legal(q, acts) && Places(q, id) <= 1
    ensures Places(Run(q, acts), id) == if Places(q, id) == 1 || Enqueued(q, acts, id) then 1 else 0
    decreases |acts|
  {
    if acts != [] {
      PlacesStep(q, acts[0], id);
      PlacesRun(Apply(q, acts[0]), acts[1..], id);
    }
  }

  /** Exactly-once giveback: whatever completes, cancels, flushes or destroys it, an enqueued URB is in
      exactly one place, and an URB that was not enqueued is nowhere; so none is given back twice. */
  lemma ExactlyOnce(cfg: Config, acts: seq<Action>, id: nat)
    requires Legal(NewQueue(cfg), acts)
    ensures var q := Run(NewQueue(cfg), acts);
      && (Enqueued(NewQueue(cfg), acts, id) ==> Places(q, id) == 1)
      && (!Enqueued(NewQueue(cfg), acts, id) ==> Places(q, id) == 0)
      && Going(q.given, id) <= 1
  {
    PlacesRun(NewQueue(cfg), acts, id);
  }

  // ---------------------------------------------------------------- slot conservation

  /** On endpoint 0 the flush worker is on its way exactly while it holds the only slot. */
  predicate FlushHoldsSlot(q: Queue) {
    q.core.cfg.control ==>
      && |q.flushGiveback| == (if q.flushQueued || q.flushRunning then 1 else 0)
      && !(q.flushQueued && q.flushRunning)
  }

  predicate SlotLaw(q: Queue) {
    && Ledger(q) && FlushHoldsSlot(q)
    && Load(q) == q.core.cfg.maxActive
  }

  /** Endpoint 0 may flush at any time; a data endpoint may flush when no listed URB holds a slot. A destroy finds no
      cancelled control URB still waiting for the flush. */
  predicate FlushesSafely(q: Queue, a: Action) {
    && (a.Destroy? ==> Held(q) == 0)
    && (a.ResetCounters? ==> q.core.cfg.control || Slots(q.core.urbs) == 0)
  }

  lemma SlotStep(q: Queue, a: Action)
    requires SlotLaw(q) && Enabled(q, a) && FlushesSafely(q, a)
    ensures SlotLaw(Apply(q, a))
  {
    LedgerStep(q, a);
    if Ordinary(a) {
      OrdinaryStep(q, a, 0);
    } else if a.Submit? {
      SubmitStep(q, a, 0);
    } else if a.Cancel? {
      CancelFrame(q, a.id, a.status);
      CancelLoad(q, a.id, a.status);
    } else if a.ResumeGo? {
      KeptResumeActivate(Granted(q.core, a.granted), 0);
    } else if Quiet(a) {
      QuietStep(q, a);
    }
  }

  predicate AllFlushSafely(q: Queue, acts: seq<Action>)
    requires Legal(q, acts)
    decreases |acts|
  {
    acts == [] || (FlushesSafely(q, acts[0]) && AllFlushSafely(Apply(q, acts[0]), acts[1..]))
  }

  lemma {:induction false} SlotRun(q: Queue, acts: seq<Action>)
    requires SlotLaw(q) && Legal(q, acts) && AllFlushSafely(q, acts)
    ensures SlotLaw(Run(q, acts))
    decreases |acts|
  {
    if acts != [] {
      SlotStep(q, acts[0]);
      SlotRun(Apply(q, acts[0]), acts[1..]);
    }
  }

  /** Slot conservation: free slots, listed URBs that hold one, ghosts and cancelled control URBs
      waiting for the flush add up to max_active_requests after every step. */
  lemma SlotConservation(cfg: Config, acts: seq<Action>)
    requires LegalConfig(cfg) && Legal(NewQueue(cfg), acts) && AllFlushSafely(NewQueue(cfg), acts)
    ensures var q := Run(NewQueue(cfg), acts);
      && q.core.counters.remaining + Slots(q.core.urbs) + |q.core.counters.ghostIn| + |q.core.counters.ghostOut|
         + (if cfg.control then |q.flushGiveback| else 0) == cfg.maxActive
      && 0 <= q.core.counters.remaining <= cfg.maxActive
  {
    LedgerRun(NewQueue(cfg), acts);
    SlotRun(NewQueue(cfg), acts);
  }

  /** Every destroy of this run finds the flush worker at rest. */
  predicate DestroysAtRest(q: Queue, acts: seq<Action>)
    requires Legal(q, acts)
    decreases |acts|
  {
    acts == [] || ((acts[0].Destroy? ==> q.flushGiveback == []) && DestroysAtRest(Apply(q, acts[0]), acts[1..]))
  }

  lemma {:induction false} SafeOnZero(q: Queue, acts: seq<Action>)
    requires Ledger(q) && Legal(q, acts) && q.core.cfg.control && DestroysAtRest(q, acts)
    ensures AllFlushSafely(q, acts)
    decreases |acts|
  {
    if acts != [] {
      LedgerStep(q, acts[0]);
      SafeOnZero(Apply(q, acts[0]), acts[1..]);
    }
  }

  /** On endpoint 0 no interleaving of submit, complete, cancel and flush breaks the law. */
  lemma ControlSlotConservation(cfg: Config, acts: seq<Action>)
    requires LegalConfig(cfg) && cfg.control && Legal(NewQueue(cfg), acts) && DestroysAtRest(NewQueue(cfg), acts)
    ensures SlotLaw(Run(NewQueue(cfg), acts))
  {
    SafeOnZero(NewQueue(cfg), acts);
    SlotRun(NewQueue(cfg), acts);
  }

  /** Destroying the queue keeps the law exactly when no cancelled control URB waits for the flush: the splice gives
      such an URB back without returning its slot. */
  lemma DestroyKeepsLawIff(q: Queue)
    requires SlotLaw(q)
    ensures SlotLaw(DestroySplice(q)) <==> Held(q) == 0
  {
  }

  /** The flush worker's reset keeps the law exactly when no listed URB holds a slot. */
  lemma FlushKeepsLawIff(q: Queue)
    requires SlotLaw(q) && q.flushRunning
    ensures SlotLaw(FlushReset(q)) <==> Slots(q.core.urbs) == 0
  {
  }

  // ---------------------------------------------------------------- the history only grows

  lemma LogGrows(q: Queue, a: Action)
    requires Enabled(q, a)
    ensures q.core.log <= Apply(q, a).core.log
  {
    if Ordinary(a) {
      OrdinaryStep(q, a, 0);
    } else if a.Submit? {
      SubmitStep(q, a, 0);
    } else if a.Cancel? {
      CancelFrame(q, a.id, a.status);
    } else if a.ResumeGo? {
      KeptResumeActivate(Granted(q.core, a.granted), 0);
    } else if Quiet(a) {
      QuietStep(q, a);
    }
  }

  lemma {:induction false} LogGrowsRun(q: Queue, acts: seq<Action>)
    requires Legal(q, acts)
    ensures q.core.log <= Run(q, acts).core.log
    decreases |acts|
  {
    if acts != [] {
      LogGrows(q, acts[0]);
      LogGrowsRun(Apply(q, acts[0]), acts[1..]);
    }
  }

  // ---------------------------------------------------------------- the pause mask

  /** The pause mask against `active`, for every holder of pause_lock. */
  predicate PauseLaw(q: Queue) {
    var active := q.core.flags.active;
    match q.holder
    case Nobody => q.pausedBy != {} ==> !active
    case Pausing(_) => q.pausedBy == {} && !active
    case Resuming(src) => q.pausedBy == {src} && !active
    case Resumed(src) => q.pausedBy == {src}
    case Resetting(marked) => !active && (marked ==> InternalWq in q.pausedBy)
    case Suspending => !active
  }

  lemma PauseStep(q: Queue, a: Action)
    requires PauseLaw(q) && Enabled(q, a)
    ensures PauseLaw(Apply(q, a))
    ensures !q.core.flags.active && Apply(q, a).core.flags.active ==> a.ResumeGo? && q.pausedBy == {q.holder.src}
  {
    if Ordinary(a) {
      OrdinaryStep(q, a, 0);
    } else if a.Submit? {
      SubmitStep(q, a, 0);
    } else if a.Cancel? {
      CancelFrame(q, a.id, a.status);
    } else if a.ResumeGo? {
      KeptResumeActivate(Granted(q.core, a.granted), 0);
    }
  }

  lemma {:induction false} PauseRun(q: Queue, acts: seq<Action>)
    requires PauseLaw(q) && Legal(q, acts)
    ensures PauseLaw(Run(q, acts))
    decreases |acts|
  {
    if acts != [] {
      PauseStep(q, acts[0]);
      PauseRun(Apply(q, acts[0]), acts[1..]);
    }
  }

  /** Whenever pause_lock is free, a queue held by anyone is inactive; and SET_STATE ACTIVE is on its
      way only while the source being released is the last one. */
  lemma PauseMask(cfg: Config, acts: seq<Action>)
    requires Legal(NewQueue(cfg), acts)
    ensures var q := Run(NewQueue(cfg), acts);
      && (q.holder == Nobody && q.pausedBy != {} ==> !q.core.flags.active)
      && (q.holder.Resuming? ==> q.pausedBy == {q.holder.src})
  {
    PauseRun(NewQueue(cfg), acts);
  }

  /** A queue held by one source stays inactive, whatever others pause, resume or reset, until that
      source itself is released. */
  lemma HeldStaysAsleep(q: Queue, acts: seq<Action>, src: PauseSource)
    requires PauseLaw(q) && q.holder == Nobody && src in q.pausedBy
    requires Legal(q, acts) && ResumeStart(src) !in acts
    ensures src in Run(q, acts).pausedBy && !Run(q, acts).core.flags.active
  {
    AsleepRun(q, acts, src);
  }

  predicate Asleep(q: Queue, src: PauseSource) {
    && PauseLaw(q) && src in q.pausedBy && !q.core.flags.active
    && !(q.holder.Resuming? && q.holder.src == src) && !q.holder.Resumed?
  }

  lemma {:induction false} AsleepRun(q: Queue, acts: seq<Action>, src: PauseSource)
    requires Asleep(q, src) && Legal(q, acts) && ResumeStart(src) !in acts
    ensures Asleep(Run(q, acts), src)
    decreases |acts|
  {
    if acts != [] {
      AsleepStep(q, acts[0], src);
      AsleepRun(Apply(q, acts[0]), acts[1..], src);
    }
  }

  lemma AsleepStep(q: Queue, a: Action, src: PauseSource)
    requires Asleep(q, src) && Enabled(q, a) && a != ResumeStart(src)
    ensures Asleep(Apply(q, a), src)
  {
    PauseStep(q, a);
    if Ordinary(a) {
      OrdinaryStep(q, a, 0);
    } else if a.Submit? {
      SubmitStep(q, a, 0);
    } else if a.Cancel? {
      CancelFrame(q, a.id, a.status);
    }
  }
}
