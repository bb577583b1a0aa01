/** The submission ring of queue.c and queue.h: four chasing modular indices, a credit counter and a ring of
    completion records; and the unbounded first-in first-out queue that they implement. */
module SubmissionRing {
  import opened Arithmetic

  datatype Option<T> = None | Some(value: T)

  /** struct bce_sq_completion_data */
  datatype Record = Record(status: nat, dataSize: nat, result: nat)

  /** The fields of struct bce_queue_sq that the ring operations use. */
  datatype Sq = Sq(
    elCount: nat,
    head: nat, tail: nat,
    completionCidx: nat, completionTail: nat,
    available: int,
    completionData: seq<Record>)

  datatype Op =
    | Reserve                                   // bce_reserve_submission without a timeout
    | CancelReservation                         // bce_cancel_submission_reservation
    | NextSubmission                            // bce_next_submission
    | Harvest(index: nat, rec: Record)          // the tail of bce_handle_cq_completion
    | NextCompletion                            // bce_next_completion
    | NotifyComplete                            // bce_notify_submission_complete

  datatype Out = Granted(ok: bool) | Slot(slot: nat) | Taken(rec: Option<Record>) | Silent

  predicate WellFormed(q: Sq) {
    && q.elCount > 0 && |q.completionData| == q.elCount
    && q.completionCidx < q.elCount && q.completionTail < q.elCount
  }

  function Step(q: Sq, op: Op): (r: (Sq, Out))
    requires WellFormed(q)
  {
    match op
    case Reserve =>
      if q.available > 0 then (q.(available := q.available - 1), Granted(true)) else (q, Granted(false))
    case CancelReservation => (q.(available := q.available + 1), Silent)
    case NextSubmission => (q.(tail := (q.tail + 1) % q.elCount), Slot(q.tail))
    case Harvest(index, rec) =>
      if q.completionTail != index then (q, Silent)
      else (q.(completionData := q.completionData[index := rec],
               completionTail := (q.completionTail + 1) % q.elCount), Silent)
    case NextCompletion =>
      if q.completionCidx == q.completionTail then (q, Taken(None))
      else (q.(completionCidx := (q.completionCidx + 1) % q.elCount),
            Taken(Some(q.completionData[q.completionCidx])))
    case NotifyComplete =>
      (q.(head := (q.head + 1) % q.elCount, available := q.available + 1), Silent)
  }

  // ---------------------------------------------------------------- the unbounded queue

  /** Counts that never wrap, and every record the device ever answered with, oldest first. */
  datatype Fifo = Fifo(
    capacity: nat,
    reserved: nat,                  // granted and not yet submitted
    submitted: nat,
    harvested: seq<Record>,
    taken: nat,
    released: nat)

  predicate Sound(f: Fifo) {
    && f.released <= f.taken <= |f.harvested| <= f.submitted
    && f.reserved + (f.submitted - f.released) <= f.capacity
  }

  /** Reserve before submitting, notify after taking; the device answers only what was submitted. */
  predicate Allowed(f: Fifo, op: Op) {
    match op
    case CancelReservation => f.reserved > 0
    case NextSubmission => f.reserved > 0
    case Harvest(index, _) => index == |f.harvested| % (f.capacity + 1) ==> |f.harvested| < f.submitted
    case NotifyComplete => f.released < f.taken
    case _ => true
  }

  function FifoStep(f: Fifo, op: Op): (r: (Fifo, Out))
    requires Sound(f) && Allowed(f, op)
    ensures Sound(r.0) && r.0.capacity == f.capacity
    ensures f.harvested <= r.0.harvested && f.taken <= r.0.taken
  {
    match op
    case Reserve =>
      if f.reserved + (f.submitted - f.released) < f.capacity then (f.(reserved := f.reserved + 1), Granted(true))
      else (f, Granted(false))
    case CancelReservation => (f.(reserved := f.reserved - 1), Silent)
    case NextSubmission =>
      (f.(reserved := f.reserved - 1, submitted := f.submitted + 1), Slot(f.submitted % (f.capacity + 1)))
    case Harvest(index, rec) =>
      if index != |f.harvested| % (f.capacity + 1) then (f, Silent)
      else (f.(harvested := f.harvested + [rec]), Silent)
    case NextCompletion =>
      if f.taken == |f.harvested| then (f, Taken(None))
      else (f.(taken := f.taken + 1), Taken(Some(f.harvested[f.taken])))
    case NotifyComplete => (f.(released := f.released + 1), Silent)
  }

  // ---------------------------------------------------------------- refinement

  predicate Refines(q: Sq, f: Fifo) {
    && Sound(f) && WellFormed(q) && q.elCount == f.capacity + 1
    && q.head == f.released % q.elCount
    && q.completionCidx == f.taken % q.elCount
    && q.completionTail == |f.harvested| % q.elCount
    && q.tail == f.submitted % q.elCount
    && q.available + f.reserved + (f.submitted - f.released) == f.capacity
    && (forall k :: f.taken <= k < |f.harvested| ==> q.completionData[k % q.elCount] == f.harvested[k])
  }

  lemma StepRefines(q: Sq, f: Fifo, op: Op)
    requires Refines(q, f) && Allowed(f, op)
    ensures Refines(Step(q, op).0, FifoStep(f, op).0) && Step(q, op).1 == FifoStep(f, op).1
  {
    var n := q.elCount;
    match op
    case Harvest(index, rec) =>
      if index == q.completionTail {
        var h := |f.harvested|;
        ModStep(h, n);
        forall k | f.taken <= k < h
          ensures k % n != h % n
        {
          if k % n == h % n {
            SameSlot(k, h, n);
          }
        }
      }
    case NextCompletion =>
      ModStep(f.taken, n);
      if q.completionCidx == q.completionTail {
        SameSlot(f.taken, |f.harvested|, n);
      }
    case NextSubmission => ModStep(f.submitted, n);
    case NotifyComplete => ModStep(f.released, n);
    case _ =>
  }

  predicate AllowedRun(f: Fifo, ops: seq<Op>)
    requires Sound(f)
    decreases |ops|
  {
    ops == [] || (Allowed(f, ops[0]) && AllowedRun(FifoStep(f, ops[0]).0, ops[1..]))
  }

  function FifoRun(f: Fifo, ops: seq<Op>): (r: (Fifo, seq<Out>))
    requires Sound(f) && AllowedRun(f, ops)
    ensures Sound(r.0) && r.0.capacity == f.capacity
    decreases |ops|
  {
    if ops == [] then (f, [])
    else
      var (f1, o) := FifoStep(f, ops[0]);
      var (f2, os) := FifoRun(f1, ops[1..]);
      (f2, [o] + os)
  }

  /** The ring run op by op; a run that leaves the ring malformed stops there. */
  function RingRun(q: Sq, ops: seq<Op>): (r: (Sq, seq<Out>))
    decreases |ops|
  {
    if ops == [] || !WellFormed(q) then (q, [])
    else
      var (q1, o) := Step(q, ops[0]);
      var (q2, os) := RingRun(q1, ops[1..]);
      (q2, [o] + os)
  }

  function NewSq(elCount: nat, blank: Record): Sq
    requires elCount > 0
  {
    Sq(elCount, 0, 0, 0, 0, elCount - 1, seq(elCount, i => blank))
  }

  function NewFifo(elCount: nat): Fifo
    requires elCount > 0
  {
    Fifo(elCount - 1, 0, 0, [], 0, 0)
  }

  lemma {:induction false} RunRefines(q: Sq, f: Fifo, ops: seq<Op>)
    requires Refines(q, f) && AllowedRun(f, ops)
    ensures RingRun(q, ops).1 == FifoRun(f, ops).1 && Refines(RingRun(q, ops).0, FifoRun(f, ops).0)
    decreases |ops|
  {
    if ops != [] {
      StepRefines(q, f, ops[0]);
      RunRefines(Step(q, ops[0]).0, FifoStep(f, ops[0]).0, ops[1..]);
    }
  }

  /** The submission ring is a first-in first-out queue: on every run it answers exactly as the unbounded
      queue does, its indices are that queue's counts modulo the ring size, and its credits are what is
      neither reserved nor in flight. */
  lemma RingIsFifo(elCount: nat, blank: Record, ops: seq<Op>)
    requires elCount > 0 && AllowedRun(NewFifo(elCount), ops)
    ensures var (q, outs) := RingRun(NewSq(elCount, blank), ops);
            var (f, expected) := FifoRun(NewFifo(elCount), ops);
      && outs == expected
      && f.released <= f.taken <= |f.harvested| <= f.submitted
      && q.head == f.released % elCount && q.completionCidx == f.taken % elCount
      && q.completionTail == |f.harvested| % elCount && q.tail == f.submitted % elCount
      && q.available + f.reserved + (f.submitted - f.released) == elCount - 1
      && (q.completionCidx == q.completionTail <==> f.taken == |f.harvested|)
      && (q.head == q.tail <==> f.released == f.submitted)
  {
    RunRefines(NewSq(elCount, blank), NewFifo(elCount), ops);
    var q := RingRun(NewSq(elCount, blank), ops).0;
    var f := FifoRun(NewFifo(elCount), ops).0;
    if q.completionCidx == q.completionTail {
      SameSlot(f.taken, |f.harvested|, elCount);
    }
    if q.head == q.tail {
      SameSlot(f.released, f.submitted, elCount);
    }
  }

  // ---------------------------------------------------------------- what the k-th taker gets

  /** The records handed out, in order. */
  function Takes(outs: seq<Out>): seq<Record> {
    if outs == [] then []
    else (if outs[0].Taken? && outs[0].rec.Some? then [outs[0].rec.value] else []) + Takes(outs[1..])
  }

  lemma {:induction false} FifoTakes(f: Fifo, ops: seq<Op>)
    requires Sound(f) && AllowedRun(f, ops)
    ensures var (f', outs) := FifoRun(f, ops);
      && f.harvested <= f'.harvested && f.taken <= f'.taken
      && Takes(outs) == f'.harvested[f.taken..f'.taken]
    decreases |ops|
  {
    if ops != [] {
      var (f1, o) := FifoStep(f, ops[0]);
      FifoTakes(f1, ops[1..]);
      var (f', outs) := FifoRun(f, ops);
      assert outs[1..] == FifoRun(f1, ops[1..]).1;
      if f1.taken > f.taken {
        assert f'.harvested[f.taken] == f.harvested[f.taken];
        assert f'.harvested[f.taken..f'.taken] == [f.harvested[f.taken]] + f'.harvested[f1.taken..f'.taken];
      }
    }
  }

  /** The k-th record bce_next_completion ever returns is the k-th record ever harvested, whatever laps the
      ring made in between: nothing is lost, repeated, reordered or overwritten. */
  lemma KthTakenIsKthHarvested(elCount: nat, blank: Record, ops: seq<Op>)
    requires elCount > 0 && AllowedRun(NewFifo(elCount), ops)
    ensures var taken := Takes(RingRun(NewSq(elCount, blank), ops).1);
            var harvested := FifoRun(NewFifo(elCount), ops).0.harvested;
      taken <= harvested
  {
    RingIsFifo(elCount, blank, ops);
    FifoTakes(NewFifo(elCount), ops);
  }

  // ---------------------------------------------------------------- in place

  class SubmissionQueue {
    const elCount: nat
    const completionData: array<Record>
    var head: nat
    var tail: nat
    var completionCidx: nat
    var completionTail: nat
    var available: int
    ghost var fifo: Fifo

    ghost function View(): Sq
      reads this, completionData
    {
      Sq(elCount, head, tail, completionCidx, completionTail, available, completionData[..])
    }

    ghost predicate Valid()
      reads this, completionData
    {
      Refines(View(), fifo)
    }

    constructor (elCount: nat, blank: Record)
      requires elCount > 0
      ensures Valid() && fifo == NewFifo(elCount) && fresh(completionData)
    {
      this.elCount := elCount;
      completionData := new Record[elCount](i => blank);
      head, tail, completionCidx, completionTail, available := 0, 0, 0, 0, elCount - 1;
      fifo := NewFifo(elCount);
    }

    method Reserve() returns (ok: bool)
      requires Valid()
      modifies this
      ensures Valid() && fifo == FifoStep(old(fifo), Op.Reserve).0 && View() == Step(old(View()), Op.Reserve).0
      ensures ok <==> old(fifo).reserved + (old(fifo).submitted - old(fifo).released) < elCount - 1
    {
      ok := available > 0;
      if ok {
        available := available - 1;
      }
      fifo := FifoStep(fifo, Op.Reserve).0;
    }

    method CancelReservation()
      requires Valid() && fifo.reserved > 0
      modifies this
      ensures Valid() && fifo == FifoStep(old(fifo), Op.CancelReservation).0
      ensures View() == Step(old(View()), Op.CancelReservation).0
    {
      available := available + 1;
      fifo := FifoStep(fifo, Op.CancelReservation).0;
    }

    method NextSubmission() returns (slot: nat)
      requires Valid() && fifo.reserved > 0
      modifies this
      ensures Valid() && fifo == FifoStep(old(fifo), Op.NextSubmission).0
      ensures View() == Step(old(View()), Op.NextSubmission).0 && slot == old(fifo).submitted % elCount
    {
      StepRefines(View(), fifo, Op.NextSubmission);
      slot := tail;
      tail := (tail + 1) % elCount;
      fifo := FifoStep(fifo, Op.NextSubmission).0;
    }

    /** The part of bce_handle_cq_completion after the queue was found. */
    method Harvest(index: nat, rec: Record) returns (accepted: bool)
      requires Valid() && Allowed(fifo, Op.Harvest(index, rec))
      modifies this, completionData
      ensures Valid() && fifo == FifoStep(old(fifo), Op.Harvest(index, rec)).0
      ensures View() == Step(old(View()), Op.Harvest(index, rec)).0
      ensures accepted <==> index == |old(fifo).harvested| % elCount
    {
      StepRefines(View(), fifo, Op.Harvest(index, rec));
      accepted := completionTail == index;
      if accepted {
        completionData[index] := rec;
        completionTail := (completionTail + 1) % elCount;
      }
      fifo := FifoStep(fifo, Op.Harvest(index, rec)).0;
    }

    method NextCompletion() returns (r: Option<Record>)
      requires Valid()
      modifies this
      ensures Valid() && fifo == FifoStep(old(fifo), Op.NextCompletion).0
      ensures View() == Step(old(View()), Op.NextCompletion).0
      ensures r == if old(fifo).taken == |old(fifo).harvested| then None else Some(old(fifo).harvested[old(fifo).taken])
    {
      StepRefines(View(), fifo, Op.NextCompletion);
      if completionCidx == completionTail {
        r := None;
      } else {
        r := Some(completionData[completionCidx]);
        completionCidx := (completionCidx + 1) % elCount;
      }
      fifo := FifoStep(fifo, Op.NextCompletion).0;
    }

    method NotifyComplete()
      requires Valid() && fifo.released < fifo.taken
      modifies this
      ensures Valid() && fifo == FifoStep(old(fifo), Op.NotifyComplete).0
      ensures View() == Step(old(View()), Op.NotifyComplete).0
    {
      StepRefines(View(), fifo, Op.NotifyComplete);
      head := (head + 1) % elCount;
      available := available + 1;
      fifo := FifoStep(fifo, Op.NotifyComplete).0;
    }

    method TakeAndRelease() returns (r: Option<Record>)
      requires Valid() && fifo.taken == fifo.released
      modifies this
      ensures Valid()
      ensures r.None? <==> old(fifo).taken == |old(fifo).harvested|
      ensures r.None? ==> fifo == old(fifo)
      ensures r.Some? ==> r.value == old(fifo).harvested[old(fifo).taken]
      ensures r.Some? ==> fifo == old(fifo).(taken := old(fifo).taken + 1, released := old(fifo).released + 1)
    {
      r := NextCompletion();
      if r.Some? {
        NotifyComplete();
      }
    }

    /** bce_vhci_message_queue_completion and aaudio_bce_out_queue_completion: take and release until empty. */
    method Drain() returns (got: seq<Record>)
      requires Valid() && fifo.taken == fifo.released
      modifies this
      ensures Valid() && got == old(fifo).harvested[old(fifo).taken..]
      ensures fifo == old(fifo).(taken := |old(fifo).harvested|, released := |old(fifo).harvested|)
    {
      ghost var f := fifo;
      got := [];
      var r := TakeAndRelease();
      while r.Some?
        invariant Valid() && f.taken <= fifo.taken && fifo == f.(taken := fifo.taken, released := fifo.taken)
        invariant got == f.harvested[f.taken..fifo.taken - if r.Some? then 1 else 0]
        invariant r.Some? ==> fifo.taken > f.taken && r.value == f.harvested[fifo.taken - 1]
        invariant r.None? ==> fifo.taken == |f.harvested|
        decreases r.Some?, |f.harvested| - fifo.taken
      {
        got := got + [r.value];
        r := TakeAndRelease();
      }
    }
  }
}
