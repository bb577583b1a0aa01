/** OUT endpoints when the T2 asks for less than the buffer: where exact attribution stops. */
module TransferShort {
  import opened TransferModel
  import opened TransferRuns
  import opened TransferAccounting
  import opened TransferTheorems
  import opened TransferOut
  import opened TransferWitness

  function RequestFor(len: nat): Message { Message(CMD_TRANSFER_REQUEST, 0, len) }

  predicate ReadyUrb(u: Vurb) { OutUrb(u) && u.state == WaitingForTransferRequest }

  /** URBs wait for their transfer requests on an OUT endpoint with nothing in flight. */
  predicate Ready(c: Core) {
    && OutConfig(c.cfg) && c.flags.active && c.evq == [] && c.dma.sqOut == Ring(RING_CREDITS, [])
    && forall i :: 0 <= i < |c.urbs| ==> ReadyUrb(c.urbs[i])
  }

  /** The T2 asks for `part` bytes of the head's buffer and reports everything sent that was submitted. */
  function Served(c: Core, part: nat): Core
    requires c.urbs != []
  {
    CompletionHandler(Event(c, false, RequestFor(part), true), true,
                      [Completion(false, Min(c.urbs[0].length, part % U32_RANGE))])
  }

  predicate Whole(c: Core, part: nat)
    requires c.urbs != []
  {
    part % U32_RANGE >= c.urbs[0].length
  }

  lemma {:induction false} AllStarted(q: Core, i: nat)
    requires forall k :: 0 <= k < |q.urbs| ==> Holds(q.urbs[k])
    ensures InitPendingFrom(q, i) == q
    decreases |q.urbs| - i
  {
    if i < |q.urbs| && CanInit(q) {
      AllStarted(q, i + 1);
    }
  }

  /** The request, up to its submission. */
  function Sending(c: Core, part: nat): Core
    requires c.urbs != []
  {
    UrbUpdate(c, 0, RequestFor(part)).q
  }

  lemma RequestSends(c: Core, part: nat)
    requires Ready(c) && c.urbs != []
    ensures Event(c, false, RequestFor(part), true) == Sending(c, part)
    ensures var u := c.urbs[0]; var len := Min(u.length, part % U32_RANGE); var sub := Submission(u.id, false, len);
      Sending(c, part) == c.(urbs := c.urbs[0 := u.(sendOffset := len, state := WaitingForCompletion)],
                             dma := c.dma.(sqOut := Ring(RING_CREDITS - 1, [sub]), sqOutPending := c.dma.sqOutPending
                                 + 1),
                             log := c.log + [Sent(sub, u.length)])
  {
    AllStarted(c, 0);
    AllStarted(Sending(c, part), 0);
    assert [] + [Submission(c.urbs[0].id, false, Min(c.urbs[0].length, part % U32_RANGE))]
        == [Submission(c.urbs[0].id, false, Min(c.urbs[0].length, part % U32_RANGE))];
  }

  /** One completion on a list whose URBs all hold slots is one round of the loop. */
  lemma OneRound(w: Core, size: nat)
    requires w.dma.sqOut.owed != [] && w.evq == []
    requires var r := CompleteOne(w, true, Completion(false, size));
      r.evq == [] && forall k :: 0 <= k < |r.urbs| ==> Holds(r.urbs[k])
    ensures CompletionHandler(w, true, [Completion(false, size)]) == CompleteOne(w, true, Completion(false, size))
  {
    var cs := [Completion(false, size)];
    var r := CompleteOne(w, true, cs[0]);
    assert CompleteLoop(r, true, cs[1..]) == r;
    AllStarted(r, 0);
    assert DeliverLoop(r) == r;
  }

  /** A whole request: the head is done, charged with its own completion, and the others are as ready as before. */
  lemma WholeServed(c: Core, part: nat, r: Core)
    requires Ready(c) && c.urbs != [] && c.counters.ghostOut == [] && Whole(c, part) && r == Served(c, part)
    ensures Ready(r) && r.urbs == c.urbs[1..] && r.counters.ghostOut == []
    ensures AllExact(c.log) ==> AllExact(r.log)
  {
    RequestSends(c, part);
    var w := Sending(c, part);
    HeadDone(w, true, Completion(false, c.urbs[0].length));
    OneRound(w, c.urbs[0].length);
    assert w.urbs[1..] == c.urbs[1..];
    assert r.log[..|w.log| + 1] == w.log + [Answered(w.dma.sqOut.owed[0], ToLive(c.urbs[0].id, c.urbs[0].length))];
    assert forall i :: 0 <= i <= |w.log| ==> r.log[i] == r.log[..|w.log| + 1][i];
  }

  /** A short request: the head goes on waiting although nothing is owed any more. */
  lemma ShortServed(c: Core, part: nat, r: Core)
    requires Ready(c) && c.urbs != [] && c.counters.ghostOut == [] && !Whole(c, part) && r == Served(c, part)
    ensures |r.urbs| == |c.urbs| && Waiting(r.urbs[0]) && r.urbs[0].id == c.urbs[0].id && !r.urbs[0].dirIn
    ensures r.urbs[1..] == c.urbs[1..] && r.counters == c.counters && r.cfg == c.cfg && r.flags == c.flags
        && r.evq == []
    ensures r.dma.sqOut == Ring(RING_CREDITS, [])
  {
    RequestSends(c, part);
    var w := Sending(c, part);
    ShortRound(w, part % U32_RANGE);
    OneRound(w, part % U32_RANGE);
  }

  lemma ShortRound(w: Core, size: nat)
    requires !w.cfg.control && w.counters.ghostOut == [] && w.dma.sqOut.owed != [] && w.urbs != []
    requires Waiting(w.urbs[0]) && !w.urbs[0].dirIn && w.urbs[0].receiveOffset == 0
    requires size < w.urbs[0].length < U32_RANGE
    ensures var r := CompleteOne(w, true, Completion(false, size)); var u := w.urbs[0];
      && r.urbs == w.urbs[0 := u.(receiveOffset := size)] && r.counters == w.counters && r.cfg == w.cfg
      && r.flags == w.flags && r.evq == w.evq
      && r.dma.sqOut == Ring(w.dma.sqOut.available + 1, w.dma.sqOut.owed[1..])
  {
  }

  /** The head waits for a completion that nobody owes. */
  predicate Stranded(r: Core, id: nat) {
    r.urbs != [] && r.urbs[0].id == id && Waiting(r.urbs[0]) && r.dma.sqOut.owed == []
  }

  /** After a request and its full completion the head is stranded if and only if the request was short. */
  lemma StrandedIff(c: Core, part: nat)
    requires Ready(c) && c.urbs != [] && c.counters.ghostOut == []
    ensures Stranded(Served(c, part), c.urbs[0].id) <==> !Whole(c, part)
  {
    if Whole(c, part) {
      WholeServed(c, part, Served(c, part));
    } else {
      ShortServed(c, part, Served(c, part));
    }
  }

  /** bce_vhci_urb_request_cancel as far as it concerns the endpoint list; an URB no longer listed is left alone. */
  function CancelById(c: Core, id: nat): Core {
    if IndexOf(c.urbs, id) < |c.urbs| then CancelUrb(c, IndexOf(c.urbs, id)) else c
  }

  /** A ghost with no DMA behind it swallows the completion of the next URB. */
  lemma EmptyGhostMischarges(c: Core, gone: nat)
    requires Ready(c) && c.urbs != [] && c.urbs[0].id != gone && c.counters.ghostOut == [gone]
    ensures var len := c.urbs[0].length;
      && Sending(c, len).dma.sqOut.owed == [Submission(c.urbs[0].id, false, len)]
      && Served(c, len).log
         == Sending(c, len).log + [Answered(Submission(c.urbs[0].id, false, len), ToCancelled(gone))]
  {
    var len := c.urbs[0].length;
    RequestSends(c, len);
    var w := Sending(c, len);
    var k := w.counters;
    var n := Notify(w, true, ToCancelled(gone)).(counters := Freed(k).(ghostOut := k.ghostOut[1..]));
    AllStarted(n, 0);
    OneRound(w, len);
  }

  /** Ask for `part` of the first URB and complete it, cancel it, then ask for all of the second and complete it. */
  function CancelledAfter(c: Core, part: nat): Core
    requires |c.urbs| >= 2
  {
    var r := CancelById(Served(c, part), c.urbs[0].id);
    if r.urbs == [] then r else Served(r, c.urbs[1].length)
  }

  /** Every completion of that sequence is charged to its own URB if and only if the request was whole. */
  lemma ExactIffWhole(c: Core, part: nat)
    requires Ready(c) && |c.urbs| >= 2 && c.counters.ghostOut == [] && AllExact(c.log)
    requires forall i :: 0 < i < |c.urbs| ==> c.urbs[i].id != c.urbs[0].id
    ensures AllExact(CancelledAfter(c, part).log) <==> Whole(c, part)
  {
    var a, b := c.urbs[0], c.urbs[1];
    var r := Served(c, part);
    if Whole(c, part) {
      WholeServed(c, part, r);
      assert IndexOf(r.urbs, a.id) == |r.urbs|;
      assert CancelById(r, a.id) == r && r.urbs[0] == b;
      WholeServed(r, b.length, Served(r, b.length));
    } else {
      ShortServed(c, part, r);
      var x := CancelById(r, a.id);
      assert IndexOf(r.urbs, a.id) == 0 && x == CancelUrb(r, 0);
      assert x.urbs == c.urbs[1..] && x.counters.ghostOut == [a.id];
      EmptyGhostMischarges(x, a.id);
      var z := Served(x, b.length);
      assert !Exact(z.log[|Sending(x, b.length).log|]);
    }
  }

  // ---------------------------------------------------------------- such a state is reached

  lemma SubmitReady(q: Queue, id: nat, length: nat)
    requires Ready(q.core) && q.core.counters.remaining > 0 && 0 < length < U32_RANGE
    requires Enabled(q, Submit(id, false, length, 0, []))
    ensures var r := Apply(q, Submit(id, false, length, 0, []));
      && Ready(r.core) && r == q.(core := r.core) && r.core.log == q.core.log
      && r.core.counters == Taken(q.core.counters)
      && r.core.urbs == q.core.urbs + [FreshUrb(id, false, length).(state := WaitingForTransferRequest)]
  {
    var c := Granted(q.core, []);
    var n := |c.urbs|;
    var c1 := c.(urbs := c.urbs + [FreshUrb(id, false, length)]);
    var s := FirstInit(c1, InternalWq in q.pausedBy, n);
    assert s.q.urbs == q.core.urbs + [FreshUrb(id, false, length).(state := WaitingForTransferRequest)];
    assert DeliverLoop(s.q) == s.q;
    AllStarted(s.q, 0);
  }

  /** Two submissions on a new OUT endpoint with more than one slot lead to such a state. */
  lemma TwoSubmitsReady(cfg: Config, a: nat, b: nat, la: nat, lb: nat, acts: seq<Action>)
    requires OutConfig(cfg) && cfg.maxActive > 1 && a != b && 0 < la < U32_RANGE && 0 < lb < U32_RANGE
    requires acts == [Submit(a, false, la, 0, []), Submit(b, false, lb, 0, [])]
    ensures Legal(NewQueue(cfg), acts)
    ensures var c := Run(NewQueue(cfg), acts).core;
      && Ready(c) && c.counters.ghostOut == [] && c.log == []
      && |c.urbs| == 2 && c.urbs[0].id == a && c.urbs[0].length == la && c.urbs[1].id == b && c.urbs[1].length == lb
  {
    var q0 := NewQueue(cfg);
    SubmitReady(q0, a, la);
    var q1 := Apply(q0, acts[0]);
    PlacesStep(q0, acts[0], b);
    SubmitReady(q1, b, lb);
    TwoSteps(q0, acts, []);
  }
}
