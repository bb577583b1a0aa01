/** The two message rings of audio/protocol_bce.c. Each has `n` data slots (20) driven by a submission ring of
    n + 1 entries, and its own indices data_head and data_tail into the slots. */
module AudioRings {

  import opened Arithmetic
  import opened SubmissionRing

  type Bytes = seq<int>

  // ---------------------------------------------------------------- outbound

  /** struct aaudio_bce_queue for qout; `posted[k]` is the data slot the k-th submission points to. */
  datatype OutQueue = OutQueue(sq: Sq, dataTail: nat, data: seq<Bytes>, posted: seq<nat>)

  /** A step of one of the senders, of the T2 or of the completion callback. */
  datatype OutStep =
    | Credit(op: Op)                // any ring operation but the submission
    | Send(msg: Bytes)              // __aaudio_send_prepare .. __aaudio_send, under the spinlock

  predicate OutReady(q: OutQueue) { WellFormed(q.sq) && q.dataTail < |q.data| }

  function OutApply(q: OutQueue, st: OutStep): OutQueue
    requires OutReady(q)
  {
    match st
    case Credit(op) => q.(sq := Step(q.sq, op).0)
    case Send(msg) =>
      OutQueue(Step(q.sq, NextSubmission).0, (q.dataTail + 1) % |q.data|, q.data[q.dataTail := msg], q.posted
          + [q.dataTail])
  }

  /** The unbounded queue, and every message ever sent. */
  datatype OutIdeal = OutIdeal(f: Fifo, sent: seq<Bytes>)

  predicate OutAllowed(i: OutIdeal, st: OutStep) {
    match st
    case Credit(op) => !op.NextSubmission? && Allowed(i.f, op)
    case Send(_) => i.f.reserved > 0
  }

  function OutIdealStep(i: OutIdeal, st: OutStep): (r: OutIdeal)
    requires Sound(i.f) && OutAllowed(i, st)
    ensures Sound(r.f)
  {
    match st
    case Credit(op) => i.(f := FifoStep(i.f, op).0)
    case Send(msg) => OutIdeal(FifoStep(i.f, NextSubmission).0, i.sent + [msg])
  }

  predicate OutLaw(q: OutQueue, i: OutIdeal) {
    var n := |q.data|;
    && Refines(q.sq, i.f) && i.f.capacity == n > 0
    && |i.sent| == i.f.submitted && |q.posted| == i.f.submitted
    && q.dataTail == i.f.submitted % n
    && (forall k :: 0 <= k < i.f.submitted ==> q.posted[k] == k % n)
    && (forall k :: i.f.released <= k < i.f.submitted ==> q.data[k % n] == i.sent[k])
  }

  lemma OutStepKeeps(q: OutQueue, i: OutIdeal, st: OutStep)
    requires OutLaw(q, i) && OutAllowed(i, st)
    ensures OutLaw(OutApply(q, st), OutIdealStep(i, st))
  {
    var n, f := |q.data|, i.f;
    match st
    case Credit(op) => StepRefines(q.sq, f, op);
    case Send(msg) =>
      StepRefines(q.sq, f, NextSubmission);
      ModStep(f.submitted, n);
      forall k | f.released <= k < f.submitted
        ensures k % n != f.submitted % n
      {
        if k % n == f.submitted % n {
          SameSlot(k, f.submitted, n);
        }
      }
  }

  predicate OutLegal(i: OutIdeal, sts: seq<OutStep>)
    requires Sound(i.f)
    decreases |sts|
  {
    sts == [] || (OutAllowed(i, sts[0]) && OutLegal(OutIdealStep(i, sts[0]), sts[1..]))
  }

  function OutIdealRun(i: OutIdeal, sts: seq<OutStep>): (r: OutIdeal)
    requires Sound(i.f) && OutLegal(i, sts)
    ensures Sound(r.f)
    decreases |sts|
  {
    if sts == [] then i else OutIdealRun(OutIdealStep(i, sts[0]), sts[1..])
  }

  function OutRun(q: OutQueue, sts: seq<OutStep>): OutQueue
    decreases |sts|
  {
    if sts == [] || !OutReady(q) then q else OutRun(OutApply(q, sts[0]), sts[1..])
  }

  lemma {:induction false} OutRunKeeps(q: OutQueue, i: OutIdeal, sts: seq<OutStep>)
    requires OutLaw(q, i) && OutLegal(i, sts)
    ensures OutLaw(OutRun(q, sts), OutIdealRun(i, sts))
    decreases |sts|
  {
    if sts != [] {
      OutStepKeeps(q, i, sts[0]);
      OutRunKeeps(OutApply(q, sts[0]), OutIdealStep(i, sts[0]), sts[1..]);
    }
  }

  function NewOut(n: nat, blank: Record): OutQueue { OutQueue(NewSq(n + 1, blank), 0, seq(n, _ => []), []) }

  /** Every message in flight still lies in the slot its submission names, and no two of them share a slot. */
  predicate Untouched(q: OutQueue, i: OutIdeal) {
    && i.f.submitted == |i.sent| == |q.posted|
    && (forall k :: i.f.released <= k < i.f.submitted ==> q.posted[k] < |q.data| && q.data[q.posted[k]] == i.sent[k])
    && (forall j, k :: i.f.released <= j < k < i.f.submitted ==> q.posted[j] != q.posted[k])
  }

  lemma OutLawMeans(q: OutQueue, i: OutIdeal)
    requires OutLaw(q, i)
    ensures Untouched(q, i)
  {
    forall j, k | i.f.released <= j < k < i.f.submitted
      ensures q.posted[j] != q.posted[k]
    {
      if j % |q.data| == k % |q.data| {
        SameSlot(j, k, |q.data|);
      }
    }
  }

  lemma NewOutLaw(n: nat, blank: Record)
    requires n > 0
    ensures OutLaw(NewOut(n, blank), OutIdeal(NewFifo(n + 1), []))
  {
  }

  /** After any run of senders, completions and callbacks, no message in flight has been overwritten. */
  lemma OutboundUntouched(n: nat, blank: Record, q0: OutQueue, i0: OutIdeal, sts: seq<OutStep>)
    requires n > 0 && q0 == NewOut(n, blank) && i0 == OutIdeal(NewFifo(n + 1), []) && OutLegal(i0, sts)
    ensures Untouched(OutRun(q0, sts), OutIdealRun(i0, sts))
  {
    NewOutLaw(n, blank);
    OutRunKeeps(q0, i0, sts);
    OutLawMeans(OutRun(q0, sts), OutIdealRun(i0, sts));
  }

  // ---------------------------------------------------------------- inbound

  /** struct aaudio_bce_queue for qin. `posted[k]`: the data slot the k-th submission offers; `got`: the messages
      handled, in order. */
  datatype InQueue = InQueue(sq: Sq, dataHead: nat, dataTail: nat, data: seq<Bytes>, posted: seq<nat>, got: seq<Bytes>)

  datatype InStep =
    | Post                          // one turn of aaudio_bce_in_queue_submit_pending
    | Dma(k: nat, msg: Bytes)       // the T2 writes into the buffer of submission k
    | Arrive(rec: Record)           // the interrupt pass harvests the next completion
    | Take                          // bce_next_completion in aaudio_bce_in_queue_completion
    | Finish                        // the message is handled, data_head moves, the completion is notified

  /** The unbounded queue, and every message the T2 completed, as it was when the completion was harvested. */
  datatype InIdeal = InIdeal(f: Fifo, received: seq<Bytes>)

  predicate InReady(q: InQueue) {
    WellFormed(q.sq) && q.dataHead < |q.data| && q.dataTail < |q.data|
        && (forall k :: 0 <= k < |q.posted| ==> q.posted[k] < |q.data|)
  }

  predicate InAllowed(q: InQueue, i: InIdeal, st: InStep) {
    match st
    case Dma(k, _) => |i.f.harvested| <= k < i.f.submitted && k < |q.posted|
    case Arrive(_) => |i.f.harvested| < i.f.submitted && |i.f.harvested| < |q.posted|
    case Take => i.f.taken == i.f.released
    case Finish => i.f.released < i.f.taken
    case _ => true
  }

  function InApply(q: InQueue, i: InIdeal, st: InStep): InQueue
    requires InReady(q) && InAllowed(q, i, st)
  {
    match st
    case Post =>
      if q.sq.available <= 0 then q
      else q.(sq := Step(Step(q.sq, Reserve).0, NextSubmission).0, dataTail := (q.dataTail + 1) % |q.data|,
              posted := q.posted + [q.dataTail])
    case Dma(k, msg) => q.(data := q.data[q.posted[k] := msg])
    case Arrive(rec) => q.(sq := Step(q.sq, Harvest(q.sq.completionTail, rec)).0)
    case Take => q.(sq := Step(q.sq, NextCompletion).0)
    case Finish =>
      q.(sq := Step(q.sq, NotifyComplete).0, dataHead := (q.dataHead + 1) % |q.data|, got := q.got
          + [q.data[q.dataHead]])
  }

  function InIdealStep(q: InQueue, i: InIdeal, st: InStep): (r: InIdeal)
    requires Sound(i.f) && InReady(q) && InAllowed(q, i, st)
    ensures Sound(r.f)
  {
    var f := i.f;
    match st
    case Post => i.(f := if f.reserved + (f.submitted - f.released) < f.capacity then f.(submitted := f.submitted + 1)
        else f)
    case Dma(_, _) => i
    case Arrive(rec) => InIdeal(f.(harvested := f.harvested + [rec]), i.received + [q.data[q.posted[|f.harvested|]]])
    case Take => i.(f := FifoStep(f, NextCompletion).0)
    case Finish => i.(f := FifoStep(f, NotifyComplete).0)
  }

  predicate InLaw(q: InQueue, i: InIdeal) {
    var n, f := |q.data|, i.f;
    && Refines(q.sq, f) && f.capacity == n > 0 && f.reserved == 0
    && |q.posted| == f.submitted && |i.received| == |f.harvested|
    && q.dataTail == f.submitted % n && q.dataHead == f.released % n
    && (forall k :: 0 <= k < f.submitted ==> q.posted[k] == k % n)
    && (forall k :: f.released <= k < |f.harvested| ==> q.data[k % n] == i.received[k])
    && q.got == i.received[..f.released]
  }

  lemma DistinctSlots(f: Fifo, n: nat, a: nat)
    requires Sound(f) && f.capacity == n > 0 && f.released <= a < f.released + n
    ensures forall k :: f.released <= k < f.released + n && k != a ==> k % n != a % n
  {
    forall k | f.released <= k < f.released + n && k != a
      ensures k % n != a % n
    {
      if k % n == a % n {
        if k < a { SameSlot(k, a, n); } else { SameSlot(a, k, n); }
      }
    }
  }

  lemma PostKeeps(q: InQueue, i: InIdeal)
    requires InLaw(q, i) && InReady(q)
    ensures InLaw(InApply(q, i, Post), InIdealStep(q, i, Post)) && InReady(InApply(q, i, Post))
  {
    StepRefines(q.sq, i.f, Reserve);
    if q.sq.available > 0 {
      StepRefines(Step(q.sq, Reserve).0, FifoStep(i.f, Reserve).0, NextSubmission);
      ModStep(i.f.submitted, |q.data|);
    }
  }

  lemma InStepKeeps(q: InQueue, i: InIdeal, st: InStep)
    requires InLaw(q, i) && InReady(q) && InAllowed(q, i, st)
    ensures InLaw(InApply(q, i, st), InIdealStep(q, i, st)) && InReady(InApply(q, i, st))
  {
    var n, f := |q.data|, i.f;
    match st
    case Post => PostKeeps(q, i);
    case Dma(k, msg) => DistinctSlots(f, n, k);
    case Arrive(rec) =>
      StepRefines(q.sq, f, Harvest(q.sq.completionTail, rec));
    case Take => StepRefines(q.sq, f, NextCompletion);
    case Finish =>
      StepRefines(q.sq, f, NotifyComplete);
      ModStep(f.released, n);
      assert i.received[..f.released + 1] == i.received[..f.released] + [i.received[f.released]];
  }

  /** A run of the inbound ring, with the ideal queue beside it. */
  predicate InLegal(q: InQueue, i: InIdeal, sts: seq<InStep>)
    decreases |sts|
  {
    sts == [] || (Sound(i.f) && InReady(q) && InAllowed(q, i, sts[0])
                  && InLegal(InApply(q, i, sts[0]), InIdealStep(q, i, sts[0]), sts[1..]))
  }

  function InRun(q: InQueue, i: InIdeal, sts: seq<InStep>): (InQueue, InIdeal)
    requires InLegal(q, i, sts)
    decreases |sts|
  {
    if sts == [] then (q, i) else InRun(InApply(q, i, sts[0]), InIdealStep(q, i, sts[0]), sts[1..])
  }

  lemma {:induction false} InRunKeeps(q: InQueue, i: InIdeal, sts: seq<InStep>)
    requires InLaw(q, i) && InReady(q) && InLegal(q, i, sts)
    ensures var (q', i') := InRun(q, i, sts); InLaw(q', i') && InReady(q')
    decreases |sts|
  {
    if sts != [] {
      InStepKeeps(q, i, sts[0]);
      InRunKeeps(InApply(q, i, sts[0]), InIdealStep(q, i, sts[0]), sts[1..]);
    }
  }

  function NewIn(n: nat, blank: Record): InQueue { InQueue(NewSq(n + 1, blank), 0, 0, seq(n, _ => []), [], []) }

  /** The messages handled are the messages the T2 completed, in order and unaltered; and while completion k is
      being handled, data_head names the buffer posted k-th, still holding message k. */
  predicate HandledInOrder(q: InQueue, i: InIdeal) {
    && q.got <= i.received && |q.got| == i.f.released <= i.f.taken <= |i.received| <= |q.posted|
    && (i.f.released < i.f.taken ==>
          && q.dataHead == q.posted[i.f.released] && q.dataHead < |q.data|
          && q.data[q.dataHead] == i.received[i.f.released])
  }

  lemma InLawMeans(q: InQueue, i: InIdeal)
    requires InLaw(q, i) && InReady(q)
    ensures HandledInOrder(q, i)
  {
    assert i.f.released < i.f.taken ==> q.data[i.f.released % |q.data|] == i.received[i.f.released];
  }

  lemma NewInLaw(n: nat, blank: Record)
    requires n > 0
    ensures InLaw(NewIn(n, blank), InIdeal(NewFifo(n + 1), [])) && InReady(NewIn(n, blank))
  {
  }

  /** Inbound messages are handled once each, in the order the T2 completed them, from the right buffer. */
  lemma InboundInOrder(n: nat, blank: Record, q0: InQueue, i0: InIdeal, sts: seq<InStep>)
    requires n > 0 && q0 == NewIn(n, blank) && i0 == InIdeal(NewFifo(n + 1), []) && InLegal(q0, i0, sts)
    ensures HandledInOrder(InRun(q0, i0, sts).0, InRun(q0, i0, sts).1)
  {
    NewInLaw(n, blank);
    InRunKeeps(q0, i0, sts);
    InLawMeans(InRun(q0, i0, sts).0, InRun(q0, i0, sts).1);
  }

  // ---------------------------------------------------------------- the queues, updated in place

  class AudioOutQueue {
    const sq: SubmissionQueue
    const data: array<Bytes>
    var dataTail: nat
    ghost var posted: seq<nat>
    ghost var sent: seq<Bytes>

    ghost function View(): OutQueue
      reads this, sq, sq.completionData, data
    {
      OutQueue(sq.View(), dataTail, data[..], posted)
    }

    ghost predicate Valid()
      reads this, sq, sq.completionData, data
    {
      sq.Valid() && OutLaw(View(), OutIdeal(sq.fifo, sent)) && OutReady(View())
    }

    constructor (n: nat, blank: Record)
      requires n > 0
      ensures Valid() && sq.fifo == NewFifo(n + 1) && sent == [] && fresh(sq) && fresh(sq.completionData) && fresh(data)
    {
      sq := new SubmissionQueue(n + 1, blank);
      data := new Bytes[n](_ => []);
      dataTail, posted, sent := 0, [], [];
      new;
      NewOutLaw(n, blank);
      assert data[..] == NewOut(n, blank).data;
      assert OutLaw(View(), OutIdeal(sq.fifo, sent));
    }

    /** __aaudio_send_prepare followed by __aaudio_send: write the message where data_tail points, submit it. */
    method Send(msg: Bytes)
      requires Valid() && sq.fifo.reserved > 0
      modifies this, sq, data
      ensures Valid() && sent == old(sent) + [msg]
      ensures sq.fifo == FifoStep(old(sq.fifo), NextSubmission).0
      ensures View() == OutApply(old(View()), OutStep.Send(msg))
    {
      OutStepKeeps(View(), OutIdeal(sq.fifo, sent), OutStep.Send(msg));
      data[dataTail] := msg;
      var slot := sq.NextSubmission();
      posted, sent := posted + [dataTail], sent + [msg];
      dataTail := (dataTail + 1) % data.Length;
    }

    /** aaudio_bce_out_queue_completion: every confirmed send gives its credit and its slot back. */
    method Completion()
      requires Valid() && sq.fifo.taken == sq.fifo.released
      modifies sq
      ensures Valid()
      ensures sq.fifo == old(sq.fifo).(taken := |old(sq.fifo).harvested|, released := |old(sq.fifo).harvested|)
    {
      var confirmed := sq.Drain();
    }
  }

  class AudioInQueue {
    const sq: SubmissionQueue
    const data: array<Bytes>
    var dataHead: nat
    var dataTail: nat
    var got: seq<Bytes>
    ghost var posted: seq<nat>
    ghost var received: seq<Bytes>

    ghost function View(): InQueue
      reads this, sq, sq.completionData, data
    {
      InQueue(sq.View(), dataHead, dataTail, data[..], posted, got)
    }

    ghost function Ideal(): InIdeal
      reads this, sq
    {
      InIdeal(sq.fifo, received)
    }

    ghost predicate Valid()
      reads this, sq, sq.completionData, data
    {
      sq.Valid() && InLaw(View(), Ideal()) && InReady(View())
    }

    constructor (n: nat, blank: Record)
      requires n > 0
      ensures Valid() && sq.fifo == NewFifo(n + 1) && received == [] && fresh(sq) && fresh(sq.completionData)
          && fresh(data)
    {
      sq := new SubmissionQueue(n + 1, blank);
      data := new Bytes[n](_ => []);
      dataHead, dataTail, got, posted, received := 0, 0, [], [], [];
      new;
      NewInLaw(n, blank);
      assert data[..] == NewIn(n, blank).data;
      assert Ideal() == InIdeal(NewFifo(n + 1), []);
      assert InLaw(View(), Ideal());
    }

    lemma Bounded()
      requires Valid()
      ensures sq.fifo.submitted - sq.fifo.released <= data.Length
    {
    }

    /** One turn of the loop of aaudio_bce_in_queue_submit_pending. */
    method PostOne() returns (ok: bool)
      requires Valid()
      modifies this`dataTail, this`posted, sq
      ensures Valid() && posted == if ok then old(posted) + [old(dataTail)] else old(posted)
      ensures ok <==> old(sq.fifo.submitted - sq.fifo.released) < data.Length
      ensures sq.fifo.submitted - sq.fifo.released <= data.Length
      ensures sq.fifo == old(sq.fifo).(submitted := old(sq.fifo).submitted + if ok then 1 else 0)
    {
      InStepKeeps(View(), Ideal(), Post);
      ok := sq.Reserve();
      if ok {
        var slot := sq.NextSubmission();
        posted := posted + [dataTail];
        dataTail := (dataTail + 1) % data.Length;
      }
    }

    /** The reservation fails exactly when more buffers are asked for than slots are free. */
    method SubmitPending(count: nat) returns (failed: bool)
      requires Valid()
      modifies this`dataTail, this`posted, sq
      ensures Valid()
      ensures failed <==> old(sq.fifo.submitted - sq.fifo.released) + count > data.Length
      ensures !failed ==> sq.fifo == old(sq.fifo).(submitted := old(sq.fifo).submitted + count)
    {
      ghost var f := sq.fifo;
      var left := count;
      ghost var made := 0;
      Bounded();
      while left > 0
        invariant Valid() && left + made == count && sq.fifo.submitted - sq.fifo.released <= data.Length
        invariant sq.fifo == f.(submitted := f.submitted + made)
      {
        var ok := PostOne();
        if !ok {
          return true;
        }
        left := left - 1;
        made := made + 1;
      }
      assert made == count;
      failed := false;
    }

    /** bce_next_completion. */
    method TakeOne() returns (some: bool)
      requires Valid() && sq.fifo.taken == sq.fifo.released
      modifies sq
      ensures Valid() && sq.View() == Step(old(sq.View()), NextCompletion).0
      ensures some <==> old(sq.fifo).taken < |sq.fifo.harvested|
      ensures sq.fifo == old(sq.fifo).(taken := old(sq.fifo).taken + if some then 1 else 0)
    {
      InStepKeeps(View(), Ideal(), Take);
      var r := sq.NextCompletion();
      some := r.Some?;
    }

    /** Handle the message at data_head, move on, notify. */
    method FinishOne()
      requires Valid() && sq.fifo.released < sq.fifo.taken
      modifies this`dataHead, this`got, sq
      ensures Valid() && sq.fifo == old(sq.fifo).(released := old(sq.fifo).released + 1)
      ensures got == old(got) + [received[old(sq.fifo).released]]
    {
      InLawMeans(View(), Ideal());
      InStepKeeps(View(), Ideal(), Finish);
      got := got + [data[dataHead]];
      dataHead := (dataHead + 1) % data.Length;
      sq.NotifyComplete();
    }

    /** aaudio_bce_in_queue_completion: every message harvested so far is handled once and in order, and as many
        buffers are posted as were used up, none of them failing for want of a credit. */
    method Completion()
      requires Valid() && sq.fifo.taken == sq.fifo.released
      modifies this`dataHead, this`dataTail, this`got, this`posted, sq
      ensures Valid() && got == received
      ensures sq.fifo.released == sq.fifo.taken == |received|
      ensures sq.fifo.submitted - sq.fifo.released == old(sq.fifo.submitted - sq.fifo.released)
    {
      ghost var f := sq.fifo;
      var cnt := 0;
      var some := TakeOne();
      while some
        invariant Valid() && sq.fifo == f.(taken := sq.fifo.taken, released := sq.fifo.released)
        invariant sq.fifo.released == f.released + cnt && sq.fifo.taken == sq.fifo.released + if some then 1 else 0
        invariant !some ==> sq.fifo.taken == |f.harvested|
        decreases |f.harvested| - sq.fifo.released, some
      {
        FinishOne();
        cnt := cnt + 1;
        some := TakeOne();
      }
      var failed := SubmitPending(cnt);
      assert received[..|received|] == received;
    }
  }
}
