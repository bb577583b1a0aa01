/** Runs that show where the laws of the transfer queue stop. */
module TransferWitness {
  import opened TransferModel
  import opened TransferRuns
  import opened TransferAccounting
  import opened TransferTheorems
  import opened TransferIn

  lemma RunSteps(q: Queue, a: Action, rest: seq<Action>)
    requires Enabled(q, a) && Legal(Apply(q, a), rest)
    ensures Legal(q, [a] + rest) && Run(q, [a] + rest) == Run(Apply(q, a), rest)
  {
    assert ([a] + rest)[1..] == rest;
  }

  /** An URB submitted to an idle active IN endpoint takes a slot at once. */
  lemma SubmitTakesSlot(q: Queue, id: nat, length: nat)
    requires InConfig(q.core.cfg) && q.core.urbs == [] && q.core.evq == [] && q.core.flags.active
    requires q.core.counters.remaining > 0 && q.core.dma.sqIn.available > 0
    requires Enabled(q, Submit(id, true, length, 0, []))
    ensures var r := Apply(q, Submit(id, true, length, 0, []));
      && |r.core.urbs| == 1 && r.core.urbs[0].id == id && r.core.urbs[0].dirIn && Waiting(r.core.urbs[0])
      && r.core.counters == Taken(q.core.counters)
      && r == q.(core := r.core) && r.core.cfg == q.core.cfg && r.core.flags == q.core.flags
      && r.core.evq == [] && r.core.giveback == q.core.giveback
      && r.core.dma.sqIn.available == q.core.dma.sqIn.available - 1
  {
    var c := Granted(q.core, []);
    var u := FreshUrb(id, true, length);
    var c1 := c.(urbs := c.urbs + [u]);
    assert c1.urbs == [u];
    var s := FirstInit(c1, InternalWq in q.pausedBy, 0);
    assert s.q.urbs == [s.q.urbs[0]] && Waiting(s.q.urbs[0]);
    assert DeliverLoop(s.q) == s.q;
    assert InitPendingFrom(s.q, 0) == s.q;
  }

  /** An URB cancelled right after its submission leaves the list; its slot is now a ghost's. */
  lemma SubmitThenCancel(cfg: Config, a: nat, b: nat, length: nat)
    requires InConfig(cfg) && cfg.maxActive > 1 && a != b && length < U32_RANGE
    ensures var q0 := NewQueue(cfg); var a0 := Submit(a, true, length, 0, []); var a1 := Cancel(a, ECONNRESET);
      && Enabled(q0, a0) && Enabled(Apply(q0, a0), a1)
      && var q := Apply(Apply(q0, a0), a1);
         && q.core.cfg == cfg && q.core.urbs == [] && q.core.evq == [] && q.core.flags == q0.core.flags
         && q.flushQueued && !q.flushRunning
         && q.core.counters.remaining == cfg.maxActive - 1 && q.core.dma.sqIn.available > 0
         && Enabled(q, Submit(b, true, length, 0, []))
  {
    var q0 := NewQueue(cfg);
    var a0, a1 := Submit(a, true, length, 0, []), Cancel(a, ECONNRESET);
    SubmitTakesSlot(q0, a, length);
    var q1 := Apply(q0, a0);
    assert IndexOf(q1.core.urbs, a) == 0;
    var q2 := Apply(q1, a1);
    assert Places(q2, b) == 0 by {
      PlacesStep(q0, a0, b);
      PlacesStep(q1, a1, b);
    }
  }

  /** An URB submitted while the flush is queued keeps its slot, and the worker's reset hands it out once more. */
  lemma SubmitThenFlush(q: Queue, b: nat, length: nat)
    requires InConfig(q.core.cfg) && q.core.urbs == [] && q.core.evq == [] && q.core.flags.active
    requires q.core.counters.remaining > 0 && q.core.dma.sqIn.available > 0 && q.flushQueued && !q.flushRunning
    requires Enabled(q, Submit(b, true, length, 0, []))
    ensures var acts := [Submit(b, true, length, 0, [])] + ([StartFlush] + [ResetCounters]);
      Legal(q, acts) && Load(Run(q, acts)) == q.core.cfg.maxActive + 1
  {
    var a2, a3, a4 := Submit(b, true, length, 0, []), StartFlush, ResetCounters;
    SubmitTakesSlot(q, b, length);
    var q3 := Apply(q, a2);
    var q4 := Apply(q3, a3);
    var q5 := Apply(q4, a4);
    assert q5.core.urbs == [q3.core.urbs[0]];
    TallyOne(q3.core.urbs[0], 0);
    RunSteps(q4, a4, []);
    assert [a4] + [] == [a4];
    RunSteps(q3, a3, [a4]);
    RunSteps(q, a2, [a3] + [a4]);
  }

  /** On an endpoint with more than one slot, an URB submitted between the cancel that queues the flush and
      the worker's reset breaks slot conservation. */
  lemma FlushBreaksConservation(cfg: Config, a: nat, b: nat, length: nat, acts: seq<Action>)
    requires InConfig(cfg) && cfg.maxActive > 1 && a != b && length < U32_RANGE
    requires acts == [Submit(a, true, length, 0, []), Cancel(a, ECONNRESET), Submit(b, true, length, 0, []),
                      StartFlush, ResetCounters]
    ensures Legal(NewQueue(cfg), acts) && Load(Run(NewQueue(cfg), acts)) == cfg.maxActive + 1
  {
    var q0 := NewQueue(cfg);
    SubmitThenCancel(cfg, a, b, length);
    var q2 := Apply(Apply(q0, acts[0]), acts[1]);
    SubmitThenFlush(q2, b, length);
    TwoSteps(q0, acts, [acts[2]] + ([StartFlush] + [ResetCounters]));
  }

  lemma TwoSteps(q: Queue, acts: seq<Action>, rest: seq<Action>)
    requires |acts| >= 2 && acts[2..] == rest && Enabled(q, acts[0]) && Enabled(Apply(q, acts[0]), acts[1])
    requires Legal(Apply(Apply(q, acts[0]), acts[1]), rest)
    ensures Legal(q, acts) && Run(q, acts) == Run(Apply(Apply(q, acts[0]), acts[1]), rest)
  {
    assert acts[1..][1..] == rest;
    RunSteps(Apply(q, acts[0]), acts[1], rest);
    assert [acts[1]] + rest == acts[1..];
    RunSteps(q, acts[0], acts[1..]);
    assert [acts[0]] + acts[1..] == acts;
  }
}
