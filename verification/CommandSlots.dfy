/** The BCE command queue of queue.c: submitters park a stack-allocated result in the slot of their command,
    completions fill it, timeouts clear it. */
module CommandSlots {
  import opened Arithmetic
  import opened SubmissionRing

  /** A call of bce_cmd_start/bce_cmd_finish. `number` counts its submission without wrapping, and `fills`
      lists the submissions whose completions wrote into its result. */
  datatype Caller =
    | Reserved
    | Waiting(number: nat, fills: seq<nat>)
    | Expired(number: nat, fills: seq<nat>)     // the wait timed out, the slot is not cleared yet
    | Returned(number: nat, ok: bool, fills: seq<nat>)

  predicate InFlight(c: Caller) { c.Waiting? || c.Expired? }

  /** Between critical sections on cmdq->lck. `head` and `tail` are the unwrapped counts of the ring, whose
      indices are these modulo the ring size. */
  datatype Cmdq = Cmdq(
    elCount: nat,
    head: nat,
    tail: nat,
    available: int,
    tres: seq<Option<nat>>,
    callers: map<nat, Caller>)

  datatype Step =
    | Reserve(c: nat)                           // bce_reserve_submission in bce_cmd_start
    | Submit(c: nat)                            // the locked part of bce_cmd_start and bce_cmd_finish
    | Complete(count: nat)                      // bce_cmdq_completion, with that many answers
    | Wake(c: nat)                              // the wait of bce_cmd_finish succeeds
    | Expire(c: nat)                            // the wait of bce_cmd_finish times out
    | Clear(c: nat)                             // the timed-out caller empties its slot and returns

  predicate Enabled(q: Cmdq, s: Step) {
    match s
    case Reserve(c) => c !in q.callers
    case Submit(c) => c in q.callers && q.callers[c] == Reserved
    case Complete(count) => count <= q.tail - q.head
    case Wake(c) => c in q.callers && q.callers[c].Waiting? && q.callers[c].fills != []
    case Expire(c) => c in q.callers && q.callers[c].Waiting? && q.callers[c].fills == []
    case Clear(c) => c in q.callers && q.callers[c].Expired?
  }

  predicate Shaped(q: Cmdq) { q.elCount > 0 && |q.tres| == q.elCount }

  /** Writing the result and complete(), for a caller that is still there. */
  function Filled(c: Caller, number: nat): Caller {
    match c
    case Waiting(k, fills) => Waiting(k, fills + [number])
    case Expired(k, fills) => Expired(k, fills + [number])
    case _ => c
  }

  function Fill(callers: map<nat, Caller>, c: nat, number: nat): map<nat, Caller> {
    if c in callers then callers[c := Filled(callers[c], number)] else callers
  }

  /** One round of the loop of bce_cmdq_completion. */
  function CompleteOne(q: Cmdq): Cmdq
    requires Shaped(q)
  {
    var slot := q.head % q.elCount;
    q.(callers := if q.tres[slot].Some? then Fill(q.callers, q.tres[slot].value, q.head) else q.callers,
       tres := q.tres[slot := None],
       head := q.head + 1,
       available := q.available + 1)
  }

  function CompleteAll(q: Cmdq, count: nat): Cmdq
    requires Shaped(q)
    decreases count
  {
    if count == 0 then q else CompleteAll(CompleteOne(q), count - 1)
  }

  function Apply(q: Cmdq, s: Step): Cmdq
    requires Shaped(q) && Enabled(q, s)
  {
    match s
    case Reserve(c) =>
      if q.available > 0 then q.(available := q.available - 1, callers := q.callers[c := Reserved]) else q
    case Submit(c) =>
      q.(tres := q.tres[q.tail % q.elCount := Some(c)], tail := q.tail + 1,
         callers := q.callers[c := Waiting(q.tail, [])])
    case Complete(count) => CompleteAll(q, count)
    case Wake(c) => q.(callers := q.callers[c := Returned(q.callers[c].number, true, q.callers[c].fills)])
    case Expire(c) => q.(callers := q.callers[c := Expired(q.callers[c].number, q.callers[c].fills)])
    case Clear(c) =>
      q.(tres := q.tres[q.callers[c].number % q.elCount := None],
         callers := q.callers[c := Returned(q.callers[c].number, false, q.callers[c].fills)])
  }

  // ---------------------------------------------------------------- the law

  /** A result was written by nobody, or once, by the completion of its own submission. */
  predicate FilledByOwn(c: Caller) {
    && (c != Reserved ==> c.fills == [] || c.fills == [c.number])
    && (c.Returned? && c.ok ==> c.fills == [c.number])
  }

  /** A slot refers to a caller that is still there, whose submission is in flight and owns the slot. */
  predicate SlotOwner(q: Cmdq, j: nat)
    requires j < |q.tres| && q.elCount > 0
  {
    q.tres[j].Some? ==>
      var c := q.tres[j].value;
      && c in q.callers && InFlight(q.callers[c]) && q.callers[c].fills == []
      && q.head <= q.callers[c].number < q.tail && q.callers[c].number % q.elCount == j
  }

  function Holding(callers: map<nat, Caller>): set<nat> { set c | c in callers && callers[c] == Reserved }

  predicate SlotLaw(q: Cmdq) {
    && Shaped(q)
    && q.head <= q.tail
    && q.available >= 0
    && q.available + |Holding(q.callers)| + (q.tail - q.head) == q.elCount - 1
    && (forall j :: 0 <= j < |q.tres| ==> SlotOwner(q, j))
    && (forall c :: c in q.callers ==> FilledByOwn(q.callers[c]))
    && (forall c :: c in q.callers && InFlight(q.callers[c]) ==> q.callers[c].number < q.tail)
  }

  lemma CompleteOneKeeps(q: Cmdq)
    requires SlotLaw(q) && q.head < q.tail
    ensures SlotLaw(CompleteOne(q))
  {
    var r := CompleteOne(q);
    var slot := q.head % q.elCount;
    assert SlotOwner(q, slot);
    assert Holding(r.callers) == Holding(q.callers);
    if q.tres[slot].Some? {
      SameSlot(q.head, q.callers[q.tres[slot].value].number, q.elCount);
    }
    forall j | 0 <= j < |r.tres|
      ensures SlotOwner(r, j)
    {
      assert SlotOwner(q, j);
    }
  }

  lemma {:induction false} CompleteAllKeeps(q: Cmdq, count: nat)
    requires SlotLaw(q) && count <= q.tail - q.head
    ensures SlotLaw(CompleteAll(q, count))
    decreases count
  {
    if count > 0 {
      CompleteOneKeeps(q);
      CompleteAllKeeps(CompleteOne(q), count - 1);
    }
  }

  lemma SubmitKeeps(q: Cmdq, c: nat)
    requires SlotLaw(q) && Enabled(q, Submit(c))
    ensures SlotLaw(Apply(q, Submit(c)))
  {
    var r := Apply(q, Submit(c));
    assert c in Holding(q.callers);
    assert Holding(r.callers) == Holding(q.callers) - {c};
    forall j | 0 <= j < |r.tres|
      ensures SlotOwner(r, j)
    {
      assert SlotOwner(q, j);
    }
  }

  lemma StepKeeps(q: Cmdq, s: Step)
    requires SlotLaw(q) && Enabled(q, s)
    ensures SlotLaw(Apply(q, s))
  {
    match s
    case Complete(count) => CompleteAllKeeps(q, count);
    case Submit(c) => SubmitKeeps(q, c);
    case Reserve(c) => ReserveKeeps(q, c);
    case _ => ReturnKeeps(q, s);
  }

  lemma ReserveKeeps(q: Cmdq, c: nat)
    requires SlotLaw(q) && Enabled(q, Step.Reserve(c))
    ensures SlotLaw(Apply(q, Step.Reserve(c)))
  {
    var r := Apply(q, Step.Reserve(c));
    if q.available > 0 {
      assert Holding(r.callers) == Holding(q.callers) + {c};
      forall j | 0 <= j < |r.tres|
        ensures SlotOwner(r, j)
      {
        assert SlotOwner(q, j);
      }
    }
  }

  lemma ReturnKeeps(q: Cmdq, s: Step)
    requires SlotLaw(q) && Enabled(q, s) && (s.Wake? || s.Expire? || s.Clear?)
    ensures SlotLaw(Apply(q, s))
  {
    var r := Apply(q, s);
    assert Holding(r.callers) == Holding(q.callers);
    forall j | 0 <= j < |r.tres|
      ensures SlotOwner(r, j)
    {
      assert SlotOwner(q, j);
    }
  }

  predicate Legal(q: Cmdq, steps: seq<Step>)
    requires Shaped(q)
    decreases |steps|
  {
    steps == [] || (Enabled(q, steps[0]) && Shaped(Apply(q, steps[0])) && Legal(Apply(q, steps[0]), steps[1..]))
  }

  function Run(q: Cmdq, steps: seq<Step>): Cmdq
    requires Shaped(q) && Legal(q, steps)
    decreases |steps|
  {
    if steps == [] then q else Run(Apply(q, steps[0]), steps[1..])
  }

  lemma {:induction false} RunKeeps(q: Cmdq, steps: seq<Step>)
    requires SlotLaw(q) && Legal(q, steps)
    ensures SlotLaw(Run(q, steps))
    decreases |steps|
  {
    if steps != [] {
      StepKeeps(q, steps[0]);
      RunKeeps(Apply(q, steps[0]), steps[1..]);
    }
  }

  function NewCmdq(elCount: nat): Cmdq
    requires elCount > 0
  {
    Cmdq(elCount, 0, 0, elCount - 1, seq(elCount, i => None), map[])
  }

  /** For every interleaving of submitters, timeouts and completions over any number of laps: a result is
      written at most once and only by the completion of its own submission, no slot refers to a caller that
      has returned, and a call that reports success was answered. */
  lemma CommandSlotSafety(elCount: nat, steps: seq<Step>, c: nat)
    requires elCount > 0 && Legal(NewCmdq(elCount), steps)
    ensures var q := Run(NewCmdq(elCount), steps);
      && (c in q.callers && q.callers[c] != Reserved ==>
            q.callers[c].fills == [] || q.callers[c].fills == [q.callers[c].number])
      && (c in q.callers && q.callers[c].Returned? && q.callers[c].ok ==> q.callers[c].fills == [q.callers[c].number])
      && (forall j :: 0 <= j < |q.tres| && q.tres[j] == Some(c) ==> c in q.callers && InFlight(q.callers[c]))
      && 0 <= q.available && q.tail - q.head <= elCount - 1
  {
    RunKeeps(NewCmdq(elCount), steps);
    var q := Run(NewCmdq(elCount), steps);
    ElCountStays(NewCmdq(elCount), steps);
    forall j | 0 <= j < |q.tres| && q.tres[j] == Some(c)
      ensures c in q.callers && InFlight(q.callers[c])
    {
      assert SlotOwner(q, j);
    }
  }

  lemma {:induction false} CompleteAllShape(q: Cmdq, count: nat)
    requires Shaped(q)
    ensures CompleteAll(q, count).elCount == q.elCount
    decreases count
  {
    if count > 0 {
      CompleteAllShape(CompleteOne(q), count - 1);
    }
  }

  lemma {:induction false} ElCountStays(q: Cmdq, steps: seq<Step>)
    requires Shaped(q) && Legal(q, steps)
    ensures Run(q, steps).elCount == q.elCount
    decreases |steps|
  {
    if steps != [] {
      if steps[0].Complete? {
        CompleteAllShape(q, steps[0].count);
      }
      ElCountStays(Apply(q, steps[0]), steps[1..]);
    }
  }

  // ---------------------------------------------------------------- every answer arrives

  /** The completion of a command fills the result of the caller that its slot refers to, with the command's number. */
  lemma CompletionFills(q: Cmdq, c: nat)
    requires SlotLaw(q) && q.head < q.tail && q.tres[q.head % q.elCount] == Some(c)
    ensures var r := CompleteOne(q);
      && c in q.callers && c in r.callers && InFlight(r.callers[c]) && r.callers[c].Waiting? == q.callers[c].Waiting?
      && r.callers[c].number == q.callers[c].number == q.head && r.callers[c].fills == [q.head]
      && (forall x :: x in q.callers && x != c ==> x in r.callers && r.callers[x] == q.callers[x])
      && r.tres[q.head % q.elCount] == None && r.head == q.head + 1
  {
    assert SlotOwner(q, q.head % q.elCount);
    SameSlot(q.head, q.callers[c].number, q.elCount);
    assert [] + [q.head] == [q.head];
  }

  /** The callers whose slots a timed-out caller of this run cleared; `so` is what came before. */
  function Dropped(q: Cmdq, steps: seq<Step>, so: set<nat>): set<nat>
    requires Shaped(q) && Legal(q, steps)
    decreases |steps|
  {
    if steps == [] then so
    else Dropped(Apply(q, steps[0]), steps[1..], DroppedBy(q, steps[0], so))
  }

  function DroppedBy(q: Cmdq, s: Step, so: set<nat>): set<nat>
    requires Shaped(q) && Enabled(q, s)
  {
    if s.Clear? then
      var victim := q.tres[q.callers[s.c].number % q.elCount];
      if victim.Some? && victim.value != s.c then so + {victim.value} else so
    else so
  }

  /** Every other caller in flight is in its slot until its command is answered, and has the answer afterwards. */
  predicate Heard(q: Cmdq, c: nat)
    requires Shaped(q) && c in q.callers
  {
    InFlight(q.callers[c]) ==>
      var k := q.callers[c].number;
      && (k >= q.head ==> q.tres[k % q.elCount] == Some(c) && q.callers[c].fills == [])
      && (k < q.head ==> q.callers[c].fills == [k])
  }

  predicate AllHeard(q: Cmdq, dropped: set<nat>)
    requires Shaped(q)
  {
    forall c :: c in q.callers && c !in dropped ==> Heard(q, c)
  }

  lemma SubmitHeard(q: Cmdq, c: nat, dropped: set<nat>)
    requires SlotLaw(q) && AllHeard(q, dropped) && Enabled(q, Submit(c))
    ensures Shaped(Apply(q, Submit(c))) && AllHeard(Apply(q, Submit(c)), dropped)
  {
    var r := Apply(q, Submit(c));
    forall x | x in r.callers && x !in dropped
      ensures Heard(r, x)
    {
      if x != c {
        assert Heard(q, x);
        var k := if InFlight(q.callers[x]) then q.callers[x].number else 0;
        if InFlight(q.callers[x]) && k >= q.head && k % q.elCount == q.tail % q.elCount {
          SameSlot(k, q.tail, q.elCount);
        }
      }
    }
  }

  lemma CompleteHeard(q: Cmdq, dropped: set<nat>)
    requires SlotLaw(q) && AllHeard(q, dropped) && q.head < q.tail
    ensures AllHeard(CompleteOne(q), dropped)
  {
    var r := CompleteOne(q);
    var slot := q.head % q.elCount;
    if q.tres[slot].Some? {
      CompletionFills(q, q.tres[slot].value);
    }
    forall x | x in r.callers && x !in dropped
      ensures Heard(r, x)
    {
      assert Heard(q, x);
      if InFlight(q.callers[x]) && q.callers[x].number > q.head && q.callers[x].number % q.elCount == slot {
        SameSlot(q.head, q.callers[x].number, q.elCount);
      }
    }
  }

  lemma {:induction false} CompleteAllHeard(q: Cmdq, count: nat, dropped: set<nat>)
    requires SlotLaw(q) && AllHeard(q, dropped) && count <= q.tail - q.head
    ensures Shaped(CompleteAll(q, count)) && AllHeard(CompleteAll(q, count), dropped)
    decreases count
  {
    if count > 0 {
      CompleteOneKeeps(q);
      CompleteHeard(q, dropped);
      CompleteAllHeard(CompleteOne(q), count - 1, dropped);
    }
  }

  lemma OtherHeard(q: Cmdq, s: Step, dropped: set<nat>)
    requires SlotLaw(q) && AllHeard(q, dropped) && Enabled(q, s) && !s.Submit? && !s.Complete?
    ensures Shaped(Apply(q, s)) && AllHeard(Apply(q, s), DroppedBy(q, s, dropped))
  {
    var r := Apply(q, s);
    forall x | x in r.callers && x !in DroppedBy(q, s, dropped)
      ensures Heard(r, x)
    {
      if x in q.callers {
        assert Heard(q, x);
      }
    }
  }

  lemma {:induction false} HeardRun(q: Cmdq, steps: seq<Step>, so: set<nat>)
    requires SlotLaw(q) && AllHeard(q, so) && Legal(q, steps)
    ensures Shaped(Run(q, steps)) && AllHeard(Run(q, steps), Dropped(q, steps, so))
    decreases |steps|
  {
    if steps != [] {
      StepKeeps(q, steps[0]);
      match steps[0] {
        case Submit(c) => SubmitHeard(q, c, so);
        case Complete(count) => CompleteAllHeard(q, count, so);
        case _ => OtherHeard(q, steps[0], so);
      }
      HeardRun(Apply(q, steps[0]), steps[1..], DroppedBy(q, steps[0], so));
    }
  }

  /** In every run: a caller in flight has its answer if and only if its command was answered, unless another caller's
      late timeout took its slot away. */
  lemma AnsweredUnlessDropped(elCount: nat, steps: seq<Step>, c: nat)
    requires elCount > 0 && Legal(NewCmdq(elCount), steps)
    ensures var q := Run(NewCmdq(elCount), steps);
      c in q.callers && InFlight(q.callers[c]) && c !in Dropped(NewCmdq(elCount), steps, {}) ==>
        && (q.callers[c].fills == [q.callers[c].number] <==> q.callers[c].number < q.head)
        && (q.callers[c].fills == [] <==> q.callers[c].number >= q.head)
  {
    var q0 := NewCmdq(elCount);
    HeardRun(q0, steps, {});
    var q := Run(q0, steps);
    if c in q.callers && c !in Dropped(q0, steps, {}) {
      assert Heard(q, c);
    }
  }

  /** A caller that was woken returns success with its own answer; one that timed out does not. */
  lemma ReturnsTell(q: Cmdq, c: nat)
    requires SlotLaw(q)
    ensures Enabled(q, Wake(c)) ==>
              Apply(q, Wake(c)).callers[c] == Returned(q.callers[c].number, true, [q.callers[c].number])
    ensures Enabled(q, Clear(c)) ==>
              Apply(q, Clear(c)).callers[c] == Returned(q.callers[c].number, false, q.callers[c].fills)
  {
    if c in q.callers {
      assert FilledByOwn(q.callers[c]);
    }
  }

  // ---------------------------------------------------------------- a timeout and a whole lap

  /** The slot of a caller that timed out is empty or still its own. */
  predicate SlotNotReused(q: Cmdq, c: nat)
    requires Shaped(q) && c in q.callers && q.callers[c].Expired?
  {
    q.tres[q.callers[c].number % q.elCount] in {None, Some(c)}
  }

  /** Every caller but `c` that a slot refers to before is referred to afterwards. */
  ghost predicate OthersKeepSlots(q: Cmdq, r: Cmdq, c: nat) {
    forall d :: Some(d) in q.tres && d != c ==> Some(d) in r.tres
  }

  /** The timeout path clears the slot by index. It leaves all other callers their slots if and only if nobody has
      reused the slot. */
  lemma ClearKeepsOthersIff(q: Cmdq, c: nat)
    requires SlotLaw(q) && Enabled(q, Clear(c))
    ensures OthersKeepSlots(q, Apply(q, Clear(c)), c) <==> SlotNotReused(q, c)
  {
    var slot := q.callers[c].number % q.elCount;
    var r := Apply(q, Clear(c));
    if SlotNotReused(q, c) {
      forall d | Some(d) in q.tres && d != c
        ensures Some(d) in r.tres
      {
        var j :| 0 <= j < |q.tres| && q.tres[j] == Some(d);
        assert r.tres[j] == Some(d);
      }
    } else {
      ClearDropsOther(q, c, q.tres[slot].value);
    }
  }

  /** Where it was reused, the new owner stays in flight with no slot, so that it can no longer be answered. */
  lemma ClearDropsOther(q: Cmdq, c: nat, d: nat)
    requires SlotLaw(q) && Enabled(q, Clear(c)) && d != c && q.tres[q.callers[c].number % q.elCount] == Some(d)
    ensures var r := Apply(q, Clear(c));
      d in r.callers && InFlight(r.callers[d]) && r.callers[d].fills == [] && Some(d) !in r.tres && Some(d) in q.tres
  {
    var slot := q.callers[c].number % q.elCount;
    assert SlotOwner(q, slot);
    var r := Apply(q, Clear(c));
    forall j | 0 <= j < |r.tres|
      ensures r.tres[j] != Some(d)
    {
      assert SlotOwner(q, j);
    }
  }

  /** One command from its reservation to its answer. */
  function Round(c: nat): seq<Step> { [Step.Reserve(c), Submit(c), Complete(1)] }

  /** The rounds of the callers a, .., b - 1. */
  function Rounds(a: nat, b: nat): seq<Step>
    decreases b - a
  {
    if a >= b then [] else Round(a) + Rounds(a + 1, b)
  }

  /** Nothing is in flight, caller 0 has timed out but not cleared its slot, and `i` commands were submitted. */
  predicate Settled(q: Cmdq, n: nat, i: nat) {
    && Shaped(q) && q.elCount == n > 1 && q.head == q.tail == i && q.available == n - 1
    && (forall j :: 0 <= j < n ==> q.tres[j] == None)
    && 0 in q.callers && q.callers[0] == Expired(0, [0])
    && (forall c :: c in q.callers ==> c < i)
  }

  lemma LegalPrepend(q: Cmdq, s: Step, rest: seq<Step>)
    requires Shaped(q) && Enabled(q, s) && Shaped(Apply(q, s)) && Legal(Apply(q, s), rest)
    ensures Legal(q, [s] + rest) && Run(q, [s] + rest) == Run(Apply(q, s), rest)
  {
    assert ([s] + rest)[1..] == rest;
  }

  lemma RoundSettles(q: Cmdq, n: nat, i: nat, rest: seq<Step>) returns (r: Cmdq)
    requires Settled(q, n, i) && i > 0
    ensures Settled(r, n, i + 1)
    ensures Legal(r, rest) ==> Legal(q, Round(i) + rest) && Run(q, Round(i) + rest) == Run(r, rest)
  {
    var s0, s1, s2 := Step.Reserve(i), Submit(i), Complete(1);
    var q1 := Apply(q, s0);
    var q2 := Apply(q1, s1);
    assert q2.tres[i % n] == Some(i);
    r := Apply(q2, s2);
    assert r == CompleteOne(q2);
    if Legal(r, rest) {
      LegalPrepend(q2, s2, rest);
      LegalPrepend(q1, s1, [s2] + rest);
      LegalPrepend(q, s0, [s1] + ([s2] + rest));
      assert Round(i) + rest == [s0] + ([s1] + ([s2] + rest));
    }
  }

  lemma {:induction false} RoundsSettle(q: Cmdq, n: nat, i: nat, b: nat, rest: seq<Step>) returns (r: Cmdq)
    requires Settled(q, n, i) && 0 < i <= b
    ensures Settled(r, n, b)
    ensures Legal(r, rest) ==> Legal(q, Rounds(i, b) + rest) && Run(q, Rounds(i, b) + rest) == Run(r, rest)
    decreases b - i
  {
    if i == b {
      r := q;
      assert Rounds(i, b) + rest == rest;
    } else {
      var q1 := RoundSettles(q, n, i, Rounds(i + 1, b) + rest);
      r := RoundsSettle(q1, n, i + 1, b, rest);
      assert Rounds(i, b) + rest == Round(i) + (Rounds(i + 1, b) + rest);
    }
  }

  /** The run: caller 0 times out, its answer comes, a whole lap of further commands goes through, and caller `n`
      submits into slot 0 before caller 0 gets to clear it. */
  function LapRun(n: nat): seq<Step> {
    [Step.Reserve(0), Submit(0), Expire(0), Complete(1)] + (Rounds(1, n) + [Step.Reserve(n), Submit(n)])
  }

  /** For every ring size this happens: the slot caller 0 is about to clear belongs to caller `n`. */
  lemma LapReusesSlot(n: nat)
    requires n > 1
    ensures Legal(NewCmdq(n), LapRun(n))
    ensures var q := Run(NewCmdq(n), LapRun(n));
      Shaped(q) && Enabled(q, Clear(0)) && q.elCount == n && q.tres[0] == Some(n)
  {
    var q0 := NewCmdq(n);
    var s0, s1, s2, s3 := Step.Reserve(0), Submit(0), Expire(0), Complete(1);
    var q1 := Apply(q0, s0);
    var q2 := Apply(q1, s1);
    var q3 := Apply(q2, s2);
    assert q3.tres[0] == Some(0);
    var q4 := Apply(q3, s3);
    assert q4 == CompleteOne(q3);
    var last := [Step.Reserve(n), Submit(n)];
    var q5 := RoundsSettle(q4, n, 1, n, last);
    LastSubmit(q5, n);
    var rest := Rounds(1, n) + last;
    LegalPrepend(q3, s3, rest);
    LegalPrepend(q2, s2, [s3] + rest);
    LegalPrepend(q1, s1, [s2] + ([s3] + rest));
    LegalPrepend(q0, s0, [s1] + ([s2] + ([s3] + rest)));
    assert LapRun(n) == [s0] + ([s1] + ([s2] + ([s3] + rest)));
  }

  lemma LastSubmit(q: Cmdq, n: nat)
    requires Settled(q, n, n)
    ensures Legal(q, [Step.Reserve(n), Submit(n)])
    ensures var r := Run(q, [Step.Reserve(n), Submit(n)]);
      Shaped(r) && Enabled(r, Clear(0)) && r.elCount == n && r.tres[0] == Some(n)
  {
    var s0, s1 := Step.Reserve(n), Submit(n);
    var q1 := Apply(q, s0);
    var q2 := Apply(q1, s1);
    LegalPrepend(q1, s1, []);
    assert [s1] + [] == [s1];
    LegalPrepend(q, s0, [s1]);
    assert [s0] + [s1] == [s0, s1];
  }

  // ---------------------------------------------------------------- in place

  class CommandQueue {
    const elCount: nat
    const tres: array<Option<nat>>
    var head: nat
    var tail: nat
    var available: int
    ghost var callers: map<nat, Caller>     // the result structs live on the callers' stacks
    ghost var released: nat         // head and tail, unwrapped
    ghost var submitted: nat

    ghost function View(): Cmdq
      reads this, tres
    {
      Cmdq(elCount, released, submitted, available, tres[..], callers)
    }

    ghost predicate Valid()
      reads this, tres
    {
      SlotLaw(View()) && head == released % elCount && tail == submitted % elCount
    }

    constructor (elCount: nat)
      requires elCount > 0
      ensures Valid() && View() == NewCmdq(elCount) && fresh(tres)
    {
      this.elCount := elCount;
      tres := new Option<nat>[elCount](i => None);
      head, tail, available, callers, released, submitted := 0, 0, elCount - 1, map[], 0, 0;
      new;
      assert tres[..] == seq(elCount, i => None);
    }

    /** bce_cmd_start to the unlock in bce_cmd_finish, for a caller that holds a reservation. */
    method Start(c: nat) returns (slot: nat)
      requires Valid() && Enabled(View(), Submit(c))
      modifies this, tres
      ensures Valid() && View() == Apply(old(View()), Submit(c)) && slot == old(submitted) % elCount
    {
      SubmitKeeps(View(), c);
      ModStep(submitted, elCount);
      slot := tail;
      tres[tail] := Some(c);
      callers := callers[c := Waiting(submitted, [])];
      tail := (tail + 1) % elCount;
      submitted := submitted + 1;
    }

    method CompleteRecord()
      requires Valid() && released < submitted
      modifies this, tres
      ensures Valid() && View() == CompleteOne(old(View())) && released == old(released) + 1
          && submitted == old(submitted)
    {
      ghost var q := View();
      CompleteOneKeeps(q);
      ModStep(released, elCount);
      var el := tres[head];
      assert el == q.tres[q.head % q.elCount];
      if el.Some? {
        callers := Fill(callers, el.value, released);
      }
      tres[head] := None;
      head := (head + 1) % elCount;
      available := available + 1;
      released := released + 1;
      assert tres[..] == q.tres[q.head % q.elCount := None];
      assert View() == CompleteOne(q);
    }

    /** bce_cmdq_completion */
    method Completion(count: nat)
      requires Valid() && Enabled(View(), Complete(count))
      modifies this, tres
      ensures Valid() && View() == CompleteAll(old(View()), count)
    {
      var left: nat := count;
      while left > 0
        invariant Valid() && left <= submitted - released
        invariant CompleteAll(View(), left) == CompleteAll(old(View()), count)
      {
        CompleteRecord();
        left := left - 1;
      }
    }

    /** The timeout branch of bce_cmd_finish. */
    method ClearSlot(c: nat, slot: nat)
      requires Valid() && Enabled(View(), Clear(c)) && slot == callers[c].number % elCount
      modifies this, tres
      ensures Valid() && View() == Apply(old(View()), Clear(c))
    {
      ReturnKeeps(View(), Clear(c));
      tres[slot] := None;
      callers := callers[c := Returned(callers[c].number, false, callers[c].fills)];
    }
  }
}
