/** Endpoint 0: runs from a new queue that show where its laws stop. */
module TransferStale {
  import opened TransferModel
  import opened TransferRuns
  import opened TransferAccounting
  import opened TransferTheorems
  import opened TransferWitness
  import opened TransferShort

  const SETUP_ANSWER := Completion(false, SETUP_PACKET_SIZE)

  function Setup(id: nat): Submission { Submission(id, true, SETUP_PACKET_SIZE) }

  /** An active endpoint 0 with a free slot and no URB. */
  predicate NoUrb(c: Core) {
    && c.cfg.control && c.urbs == [] && c.evq == [] && c.flags.active
    && c.counters == Counters(1, [], []) && c.dma.sqOut == Ring(RING_CREDITS, []) && c.dma.grants == []
  }

  /** Its only URB is in state `s`; nothing is deferred. */
  predicate OneUrb(c: Core, id: nat, dirIn: bool, length: nat, s: UrbState) {
    && c.cfg.control && c.evq == [] && c.flags.active && c.counters == Counters(0, [], []) && c.dma.grants == []
    && c.urbs == [FreshUrb(id, dirIn, length).(state := s)]
  }

  lemma Starts(c: Core, internal: bool, id: nat, dirIn: bool, length: nat)
    requires NoUrb(c)
    ensures var r := UrbCreate(c, internal, id, dirIn, length, 0).q;
      && OneUrb(r, id, dirIn, length, ControlWaitingForSetupRequest)
      && r.dma == c.dma && r.log == c.log && r.cfg == c.cfg && r.giveback == c.giveback
  {
    var c1 := c.(urbs := [FreshUrb(id, dirIn, length)]);
    assert c.urbs + [FreshUrb(id, dirIn, length)] == c1.urbs;
    var s := FirstInit(c1, internal, 0);
    AllStarted(s.q, 0);
    assert DeliverLoop(s.q) == s.q;
  }

  lemma AsksForSetup(c: Core, id: nat, dirIn: bool, length: nat, len: nat)
    requires OneUrb(c, id, dirIn, length, ControlWaitingForSetupRequest) && c.dma.sqOut == Ring(RING_CREDITS, [])
    ensures var r := Event(c, false, RequestFor(len), true);
      && OneUrb(r, id, dirIn, length, ControlWaitingForSetupCompletion)
      && r.dma.sqOut == Ring(RING_CREDITS - 1, [Setup(id)]) && r.dma.sqIn == c.dma.sqIn
      && r.log == c.log + [Sent(Setup(id), SETUP_PACKET_SIZE)] && r.cfg == c.cfg && r.giveback == c.giveback
  {
    AllStarted(c, 0);
    var s := UrbUpdate(c, 0, RequestFor(len));
    AllStarted(s.q, 0);
    assert [] + [Setup(id)] == [Setup(id)];
  }

  /** The setup packet of an IN transfer is answered and its data is submitted. */
  lemma SetupAnswered(c: Core, id: nat, length: nat)
    requires OneUrb(c, id, true, length, ControlWaitingForSetupCompletion) && length < U32_RANGE
    requires c.dma.sqOut == Ring(RING_CREDITS - 1, [Setup(id)]) && c.dma.sqIn == Ring(RING_CREDITS, [])
    ensures var r := CompletionHandler(c, true, [SETUP_ANSWER]);
      && OneUrb(r, id, true, length, WaitingForCompletion)
      && r.dma.sqOut == Ring(RING_CREDITS, []) && r.dma.sqIn == Ring(RING_CREDITS - 1, [Submission(id, false, length)])
      && r.cfg == c.cfg && r.giveback == c.giveback
  {
    var n := Notify(c, true, ToLive(id, SETUP_PACKET_SIZE));
    var s := DataStart(n, 0);
    assert ControlCheckStatus(s.q, 0) == Outcome(s.q, 0);
    assert CompleteOne(c, true, SETUP_ANSWER) == s.q;
    assert CompleteLoop(s.q, true, [SETUP_ANSWER][1..]) == s.q;
    AllStarted(s.q, 0);
    assert DeliverLoop(s.q) == s.q;
  }

  /** Another URB's completion arrives while the setup packet of an OUT transfer is on the wire: it is taken for the
      setup's, and the URB moves on. */
  lemma StaleCompletionAdvances(c: Core, id: nat, length: nat, size: nat)
    requires OneUrb(c, id, false, length, ControlWaitingForSetupCompletion) && c.dma.sqIn.owed != []
    ensures var r := CompletionHandler(c, false, [Completion(false, size)]);
      && r.urbs != [] && r.urbs[0].id == id && r.urbs[0].state != ControlWaitingForSetupCompletion
      && r.dma.sqOut == c.dma.sqOut
      && r.log == c.log + [Answered(c.dma.sqIn.owed[0], ToLive(id, size))]
  {
    var cs := [Completion(false, size)];
    var n := Notify(c, false, ToLive(id, size));
    var s := DataStart(n, 0);
    assert ControlCheckStatus(s.q, 0) == Outcome(s.q, 0);
    assert CompleteOne(c, false, cs[0]) == s.q;
    assert CompleteLoop(s.q, false, cs[1..]) == s.q;
    AllStarted(s.q, 0);
    assert DeliverLoop(s.q) == s.q;
  }

  /** An IN transfer `a` gets as far as its data submission. */
  lemma DataOwed(cfg: Config, a: nat, la: nat, acts: seq<Action>)
    requires cfg.control && cfg.maxActive == 1 && la < U32_RANGE
    requires acts == [Submit(a, true, la, 0, []), Deliver(RequestFor(0), true, []), Harvested(true, [SETUP_ANSWER], [])]
    ensures Legal(NewQueue(cfg), acts)
    ensures var q := Run(NewQueue(cfg), acts);
      && q == NewQueue(cfg).(core := q.core) && OneUrb(q.core, a, true, la, WaitingForCompletion)
      && q.core.cfg == cfg && q.core.giveback == []
      && q.core.dma.sqOut == Ring(RING_CREDITS, [])
      && q.core.dma.sqIn == Ring(RING_CREDITS - 1, [Submission(a, false, la)])
  {
    var q0 := NewQueue(cfg);
    Starts(Granted(q0.core, []), false, a, true, la);
    var q1 := Apply(q0, acts[0]);
    AsksForSetup(Granted(q1.core, []), a, true, la, 0);
    var q2 := Apply(q1, acts[1]);
    SetupAnswered(Granted(q2.core, []), a, la);
    var q3 := Apply(q2, acts[2]);
    RunSteps(q2, acts[2], []);
    assert [acts[2]] + [] == acts[2..];
    TwoSteps(q0, acts, acts[2..]);
  }

  /** It is cancelled and flushed without the T2 answering. */
  lemma CancelAndFlush(q: Queue, a: nat, la: nat, acts: seq<Action>)
    requires OneUrb(q.core, a, true, la, WaitingForCompletion) && q.core.cfg.maxActive == 1
    requires q == NewQueue(q.core.cfg).(core := q.core) && q.core.giveback == []
    requires q.core.dma.sqOut == Ring(RING_CREDITS, [])
    requires acts == [Cancel(a, ECONNRESET), StartFlush, ResetCounters]
    ensures Legal(q, acts)
    ensures var r := Run(q, acts);
      && NoUrb(r.core) && r.core.dma == q.core.dma && r.core.cfg == q.core.cfg
      && r.pausedBy == {} && r.core.giveback == [Done(a, ECONNRESET, 0)] && r.flushGiveback == [] && r.inHand == []
      && r.given == []
  {
    assert IndexOf(q.core.urbs, a) == 0;
    var q1 := Apply(q, acts[0]);
    assert q1.core.urbs == [] && q1.flushGiveback == [Done(a, ECONNRESET, 0)];
    var q2 := Apply(q1, acts[1]);
    var q3 := Apply(q2, acts[2]);
    RunSteps(q2, acts[2], []);
    assert [acts[2]] + [] == acts[2..];
    TwoSteps(q, acts, acts[2..]);
  }

  /** An OUT transfer `b` sends its setup packet, and the T2 answers the old submission. */
  lemma SetupMeetsStale(q: Queue, a: nat, b: nat, lb: nat, size: nat, acts: seq<Action>)
    requires NoUrb(q.core) && q.pausedBy == {} && a != b && lb < U32_RANGE && q.core.dma.sqIn.owed != []
    requires q.core.giveback == [Done(a, ECONNRESET, 0)] && q.flushGiveback == [] && q.inHand == [] && q.given == []
    requires acts == [Submit(b, false, lb, 0, []), Deliver(RequestFor(0), true, []),
                      Harvested(false, [Completion(false, size)], [])]
    ensures Legal(q, acts)
    ensures var r := Run(q, acts).core;
      && r.urbs != [] && r.urbs[0].id == b && r.urbs[0].state != ControlWaitingForSetupCompletion
      && r.dma.sqOut.owed == [Setup(b)]
      && r.log != [] && r.log[|r.log| - 1] == Answered(q.core.dma.sqIn.owed[0], ToLive(b, size))
  {
    GoingAppend([], Done(a, ECONNRESET, 0), b);
    assert [] + [Done(a, ECONNRESET, 0)] == q.core.giveback;
    Starts(Granted(q.core, []), false, b, false, lb);
    var q1 := Apply(q, acts[0]);
    AsksForSetup(Granted(q1.core, []), b, false, lb, 0);
    var q2 := Apply(q1, acts[1]);
    StaleCompletionAdvances(Granted(q2.core, []), b, lb, size);
    RunSteps(q2, acts[2], []);
    assert [acts[2]] + [] == acts[2..];
    TwoSteps(q, acts, acts[2..]);
  }

  lemma {:induction false} RunConcat(q: Queue, first: seq<Action>, rest: seq<Action>)
    requires Legal(q, first) && Legal(Run(q, first), rest)
    ensures Legal(q, first + rest) && Run(q, first + rest) == Run(Run(q, first), rest)
    decreases |first|
  {
    if first == [] {
      assert first + rest == rest;
    } else {
      RunConcat(Apply(q, first[0]), first[1..], rest);
      assert (first + rest)[0] == first[0];
      assert (first + rest)[1..] == first[1..] + rest;
    }
  }

  /** The whole run: the completion of the cancelled URB's data is charged to the new URB, which leaves its setup stage
      with its setup packet still on the wire. */
  lemma StaleRun(cfg: Config, a: nat, b: nat, la: nat, lb: nat, size: nat, x: seq<Action>, y: seq<Action>,
                 z: seq<Action>)
    requires cfg.control && cfg.maxActive == 1 && a != b && la < U32_RANGE && lb < U32_RANGE
    requires x == [Submit(a, true, la, 0, []), Deliver(RequestFor(0), true, []), Harvested(true, [SETUP_ANSWER], [])]
    requires y == [Cancel(a, ECONNRESET), StartFlush, ResetCounters]
    requires z == [Submit(b, false, lb, 0, []), Deliver(RequestFor(0), true, []),
                   Harvested(false, [Completion(false, size)], [])]
    ensures Legal(NewQueue(cfg), x + (y + z))
    ensures var r := Run(NewQueue(cfg), x + (y + z)).core;
      && r.urbs != [] && r.urbs[0].id == b && r.urbs[0].state != ControlWaitingForSetupCompletion
      && r.dma.sqOut.owed == [Setup(b)]
      && r.log != [] && r.log[|r.log| - 1] == Answered(Submission(a, false, la), ToLive(b, size))
  {
    var q0 := NewQueue(cfg);
    DataOwed(cfg, a, la, x);
    var q3 := Run(q0, x);
    CancelAndFlush(q3, a, la, y);
    var q6 := Run(q3, y);
    SetupMeetsStale(q6, a, b, lb, size, z);
    RunConcat(q3, y, z);
    RunConcat(q0, x, y + z);
  }

  /** Destroying endpoint 0 while a cancelled URB waits for the flush gives the URB back without its slot. */
  lemma DestroyBreaksConservation(cfg: Config, a: nat, la: nat, acts: seq<Action>)
    requires LegalConfig(cfg) && cfg.control && la < U32_RANGE
    requires acts == [Submit(a, true, la, 0, []), Cancel(a, ECONNRESET), Destroy]
    ensures Legal(NewQueue(cfg), acts) && Load(Run(NewQueue(cfg), acts)) == cfg.maxActive - 1
  {
    var q0 := NewQueue(cfg);
    Starts(Granted(q0.core, []), false, a, true, la);
    var q1 := Apply(q0, acts[0]);
    assert IndexOf(q1.core.urbs, a) == 0;
    var q2 := Apply(q1, acts[1]);
    assert q2.core.urbs == [];
    RunSteps(q2, acts[2], []);
    assert [acts[2]] + [] == acts[2..];
    TwoSteps(q0, acts, acts[2..]);
  }
}
