/** One control transfer, and every order in which its events can arrive. */
module TransferOrder {
  import opened TransferModel
  import opened TransferAccounting

  /** What the T2 can do next. */
  datatype Arrival =
    | Request(len: nat)             // TRANSFER_REQUEST, early or not
    | Status(code: nat)             // CONTROL_TRANSFER_STATUS
    | Landed(out: bool, size: nat)  // the oldest submission of a ring completes

  function Arrive(q: Core, a: Arrival): Core {
    match a
    case Request(len) => Event(q, false, Message(CMD_TRANSFER_REQUEST, 0, len), true)
    case Status(code) => Event(q, false, Message(CMD_CONTROL_TRANSFER_STATUS, code, 0), true)
    case Landed(out, size) => CompletionHandler(q, out, [Completion(false, size)])
  }

  /** The T2 answers only what was submitted. Where OUT data is concerned it asks for the whole buffer and reports it
      sent; the sizes in requests for the setup packet, in requests of other transfers and in the setup packet's
      completion are its own affair. */
  predicate Admissible(q: Core, u: Vurb, a: Arrival) {
    match a
    case Request(len) =>
      || q.urbs == [] || q.urbs[0].state == ControlWaitingForSetupRequest
      || !HasOutData(u) || len % U32_RANGE >= u.length
    case Status(code) => code > 0
    case Landed(out, size) =>
      Owed(q.dma, out) != [] && (out && !Owed(q.dma, out)[0].setup ==> size == Owed(q.dma, out)[0].len)
  }

  predicate AdmissibleOrder(q: Core, u: Vurb, xs: seq<Arrival>)
    decreases |xs|
  {
    xs == [] || (Admissible(q, u, xs[0]) && AdmissibleOrder(Arrive(q, xs[0]), u, xs[1..]))
  }

  function ArriveAll(q: Core, xs: seq<Arrival>): Core
    decreases |xs|
  {
    if xs == [] then q else ArriveAll(Arrive(q, xs[0]), xs[1..])
  }

  function Requests(xs: seq<Arrival>): nat {
    if xs == [] then 0 else Requests(xs[1..]) + if xs[0].Request? then 1 else 0
  }

  /** The status codes that arrive. */
  function Codes(xs: seq<Arrival>): seq<nat> {
    if xs == [] then [] else (if xs[0].Status? then [xs[0].code] else []) + Codes(xs[1..])
  }

  predicate HasOutData(u: Vurb) { !u.dirIn && u.length > 0 }

  /** One request for the setup packet, one more for OUT data. */
  function RequestsNeeded(u: Vurb): nat { if HasOutData(u) then 2 else 1 }

  function Verdict(code: nat): int { if code == STATUS_SUCCESS then 0 else EPIPE }

  predicate IsRequest(m: Message) { m.cmd == CMD_TRANSFER_REQUEST }

  /** An active endpoint 0 with no URB; `evq` may hold requests that came before their URB. */
  predicate Resting(q: Core) {
    && q.cfg.control && q.urbs == [] && q.counters == Counters(1, [], [])
    && q.dma == Dma(Ring(RING_CREDITS, []), Ring(RING_CREDITS, []), 0, []) && q.flags.active
    && forall i :: 0 <= i < |q.evq| ==> IsRequest(q.evq[i])
  }

  /** Requests on the event list; those for OUT data ask for the whole buffer. */
  predicate AllRequests(u: Vurb, evq: seq<Message>) {
    forall i :: 0 <= i < |evq| ==> IsRequest(evq[i]) && (HasOutData(u) ==> evq[i].param2 % U32_RANGE >= u.length)
  }

  predicate Idle(r: Ring) { r == Ring(RING_CREDITS, []) }

  predicate Owes(r: Ring, sub: Submission) { r == Ring(RING_CREDITS - 1, [sub]) }

  /** The URB is still listed: what its state says about the rings and the requests seen so far (k). */
  predicate Live(q: Core, u: Vurb, k: nat, codes: seq<nat>) {
    && q.cfg.control && q.counters == Counters(0, [], []) && q.flags.active && q.dma.grants == []
    && |q.urbs| == 1 && AllRequests(u, q.evq)
    && var v := q.urbs[0];
    && v.id == u.id && v.dirIn == u.dirIn && v.length == u.length < U32_RANGE
    && codes == (if v.receivedStatus == 0 then [] else [v.receivedStatus])
    && match v.state
       case ControlWaitingForSetupRequest =>
         k == 0 && q.evq == [] && Idle(q.dma.sqIn) && Idle(q.dma.sqOut) && v.sendOffset == v.receiveOffset == 0
       case ControlWaitingForSetupCompletion =>
         && k == 1 + |q.evq| && Idle(q.dma.sqIn) && Owes(q.dma.sqOut, Submission(u.id, true, SETUP_PACKET_SIZE))
         && v.sendOffset == v.receiveOffset == 0
       case WaitingForTransferRequest =>
         && HasOutData(u) && k == 1 && q.evq == [] && Idle(q.dma.sqIn) && Idle(q.dma.sqOut)
         && v.sendOffset == v.receiveOffset == 0 && v.receivedStatus <= STATUS_SUCCESS
       case WaitingForCompletion =>
         && v.receivedStatus <= STATUS_SUCCESS && v.receiveOffset == 0
         && (if u.dirIn then k == 1 + |q.evq| && |q.dma.sqIn.owed| == 1 == RING_CREDITS - q.dma.sqIn.available
            && Idle(q.dma.sqOut)
             else HasOutData(u) && k == 2 + |q.evq| && Idle(q.dma.sqIn)
                  && Owes(q.dma.sqOut, Submission(u.id, false, u.length)))
       case DataTransferComplete => v.receivedStatus == 0 && Idle(q.dma.sqIn) && Idle(q.dma.sqOut)
       case _ => false
  }

  /** The URB was completed with the status its code asks for. */
  predicate Over(q: Core, u: Vurb, given: seq<Done>, codes: seq<nat>) {
    && q.cfg.control && q.urbs == [] && q.counters == Counters(1, [], []) && |codes| == 1
    && |q.giveback| == |given| + 1 && q.giveback[..|given|] == given
    && q.giveback[|given|].id == u.id && q.giveback[|given|].status == Verdict(codes[0])
    && q.flags.active == (codes[0] == STATUS_SUCCESS)
    && (codes[0] != STATUS_SUCCESS ==> q.flags.stalled && q.flags.resetQueued)
  }

  predicate OrderLaw(q: Core, u: Vurb, given: seq<Done>, k: nat, codes: seq<nat>) {
    Over(q, u, given, codes) || (Live(q, u, k, codes) && q.giveback == given)
  }

  lemma NothingToStart(q: Core)
    requires |q.urbs| <= 1 && (q.urbs == [] || Holds(q.urbs[0]))
    ensures InitPendingUrbs(q) == q
  {
    if q.urbs != [] && CanInit(q) {
      assert InitPendingFrom(q, 0) == InitPendingFrom(q, 1);
    }
  }

  /** At rest no deferred request can be delivered. */
  lemma Undeliverable(q: Core, u: Vurb, k: nat, codes: seq<nat>)
    requires Live(q, u, k, codes)
    ensures DeliverPending(q) == q
  {
    NothingToStart(q);
  }

  lemma StatusArrives(q: Core, u: Vurb, given: seq<Done>, k: nat, code: nat)
    requires Live(q, u, k, []) && q.giveback == given && code > 0
    ensures OrderLaw(Arrive(q, Status(code)), u, given, k, [code])
  {
    Undeliverable(q, u, k, []);
    var s := UrbUpdate(q, 0, Message(CMD_CONTROL_TRANSFER_STATUS, code, 0));
    NothingToStart(s.q);
  }

  lemma RequestArrives(q: Core, u: Vurb, k: nat, codes: seq<nat>, len: nat)
    requires Live(q, u, k, codes) && Admissible(q, u, Request(len))
    ensures var r := Arrive(q, Request(len)); Live(r, u, k + 1, codes) && r.giveback == q.giveback
  {
    Undeliverable(q, u, k, codes);
    var msg := Message(CMD_TRANSFER_REQUEST, 0, len);
    var s := UrbUpdate(q, 0, msg);
    if s.status != EAGAIN {
      NothingToStart(s.q);
    }
  }

  /** What the completion handler makes of one completion while the URB is listed. */
  function Charged(q: Core, out: bool, size: nat): Core
    requires Owed(q.dma, out) != [] && q.urbs != []
  {
    ControlTransferCompletion(Notify(q, out, ToLive(q.urbs[0].id, size)), 0, Completion(false, size)).q
  }

  lemma LandedIs(q: Core, u: Vurb, k: nat, codes: seq<nat>, out: bool, size: nat)
    requires Live(q, u, k, codes) && Owed(q.dma, out) != []
    ensures Arrive(q, Landed(out, size)) == DeliverPending(Charged(q, out, size))
  {
    var cs := [Completion(false, size)];
    var r := CompleteOne(q, out, cs[0]);
    assert r == Charged(q, out, size);
    assert CompleteLoop(r, out, cs[1..]) == r;
  }

  lemma NothingLeft(q: Core)
    requires q.urbs == []
    ensures DeliverPending(q) == q
  {
  }

  /** The setup packet of a transfer without OUT data was sent. */
  lemma SetupLanded(q: Core, u: Vurb, given: seq<Done>, k: nat, codes: seq<nat>, size: nat)
    requires Live(q, u, k, codes) && q.giveback == given && !HasOutData(u)
    requires q.urbs[0].state == ControlWaitingForSetupCompletion
    ensures OrderLaw(DeliverPending(Charged(q, true, size)), u, given, k, codes)
  {
    var r := Charged(q, true, size);
    assert OrderLaw(r, u, given, k, codes);
    if r.urbs == [] {
      NothingLeft(r);
    } else {
      Undeliverable(r, u, k, codes);
    }
  }

  /** The setup packet of a transfer with OUT data was sent: a request that came early is served now. */
  lemma SetupLandedOut(q: Core, u: Vurb, given: seq<Done>, k: nat, codes: seq<nat>, size: nat)
    requires Live(q, u, k, codes) && q.giveback == given && HasOutData(u)
    requires q.urbs[0].state == ControlWaitingForSetupCompletion
    ensures OrderLaw(DeliverPending(Charged(q, true, size)), u, given, k, codes)
  {
    var r := Charged(q, true, size);
    if r.urbs == [] {
      NothingLeft(r);
    } else if r.evq == [] {
      assert Live(r, u, k, codes);
      Undeliverable(r, u, k, codes);
    } else {
      assert r.giveback == given && LandedEarly(r, u, k, codes);
      DataRequested(r, u, given, k, codes);
    }
  }

  /** The setup packet landed and the request for the data came before it. */
  predicate LandedEarly(r: Core, u: Vurb, k: nat, codes: seq<nat>) {
    && r.evq != [] && r.urbs != [] && r.urbs[0].state == WaitingForTransferRequest && HasOutData(u)
    && k == 1 + |r.evq|
    && Live(r.(evq := []), u, 1, codes) && AllRequests(u, r.evq)
  }

  lemma DataRequested(r: Core, u: Vurb, given: seq<Done>, k: nat, codes: seq<nat>)
    requires LandedEarly(r, u, k, codes) && r.giveback == given
    ensures OrderLaw(DeliverPending(r), u, given, k, codes)
  {
    var s := UrbUpdate(r, 0, r.evq[0]);
    var r1 := s.q.(evq := r.evq[1..]);
    assert Live(r1, u, k, codes);
    Undeliverable(r1, u, k, codes);
  }

  lemma DataLanded(q: Core, u: Vurb, given: seq<Done>, k: nat, codes: seq<nat>, out: bool, size: nat)
    requires Live(q, u, k, codes) && q.giveback == given && Owed(q.dma, out) != []
    requires q.urbs[0].state == WaitingForCompletion && (out ==> size == u.length)
    ensures OrderLaw(DeliverPending(Charged(q, out, size)), u, given, k, codes)
  {
    var r := Charged(q, out, size);
    assert OrderLaw(r, u, given, k, codes);
    if r.urbs == [] {
      NothingLeft(r);
    } else {
      Undeliverable(r, u, k, codes);
    }
  }

  lemma AfterTheEnd(q: Core, u: Vurb, given: seq<Done>, codes: seq<nat>, a: Arrival)
    requires Over(q, u, given, codes) && Admissible(q, u, a) && !a.Status?
    ensures Over(Arrive(q, a), u, given, codes)
  {
    NothingLeft(q);
    if a.Landed? {
      var cs := [Completion(false, a.size)];
      var r := CompleteOne(q, a.out, cs[0]);
      assert CompleteLoop(r, a.out, cs[1..]) == r;
      NothingLeft(r);
    }
  }

  function Seen(codes: seq<nat>, a: Arrival): seq<nat> { codes + if a.Status? then [a.code] else [] }

  lemma OrderStep(q: Core, u: Vurb, given: seq<Done>, k: nat, codes: seq<nat>, a: Arrival)
    requires OrderLaw(q, u, given, k, codes) && Admissible(q, u, a)
    requires a.Status? ==> codes == []
    ensures OrderLaw(Arrive(q, a), u, given, k + (if a.Request? then 1 else 0), Seen(codes, a))
  {
    if Over(q, u, given, codes) {
      AfterTheEnd(q, u, given, codes, a);
    } else {
      match a
      case Request(len) => RequestArrives(q, u, k, codes, len);
      case Status(code) => StatusArrives(q, u, given, k, code);
      case Landed(out, size) =>
        LandedIs(q, u, k, codes, out, size);
        if q.urbs[0].state == WaitingForCompletion {
          DataLanded(q, u, given, k, codes, out, size);
        } else if HasOutData(u) {
          SetupLandedOut(q, u, given, k, codes, size);
        } else {
          SetupLanded(q, u, given, k, codes, size);
        }
    }
  }

  lemma TailCounts(xs: seq<Arrival>, codes: seq<nat>)
    requires xs != []
    ensures Seen(codes, xs[0]) + Codes(xs[1..]) == codes + Codes(xs)
    ensures Requests(xs) == Requests(xs[1..]) + if xs[0].Request? then 1 else 0
    ensures xs[0].Status? ==> |Codes(xs)| >= 1
    ensures |Seen(codes, xs[0])| + |Codes(xs[1..])| == |codes| + |Codes(xs)|
  {
    var c := if xs[0].Status? then [xs[0].code] else [];
    assert Codes(xs) == c + Codes(xs[1..]);
    Regroup(codes, c, Codes(xs[1..]));
  }

  lemma Regroup(a: seq<nat>, b: seq<nat>, c: seq<nat>)
    ensures (a + b) + c == a + (b + c)
  {
  }

  lemma FirstArrival(q: Core, u: Vurb, given: seq<Done>, k: nat, codes: seq<nat>, xs: seq<Arrival>)
    returns (q1: Core)
    requires OrderLaw(q, u, given, k, codes) && xs != [] && AdmissibleOrder(q, u, xs)
    requires xs[0].Status? ==> codes == []
    ensures OrderLaw(q1, u, given, k + (if xs[0].Request? then 1 else 0), Seen(codes, xs[0]))
    ensures AdmissibleOrder(q1, u, xs[1..]) && ArriveAll(q1, xs[1..]) == ArriveAll(q, xs)
  {
    q1 := Arrive(q, xs[0]);
    OrderStep(q, u, given, k, codes, xs[0]);
  }

  /** Along any admissible order the law holds for the `n` requests and the `all` status codes that came in all. */
  lemma {:induction false} OrderRun(q: Core, u: Vurb, given: seq<Done>, k: nat, codes: seq<nat>, xs: seq<Arrival>,
                                    n: nat, all: seq<nat>)
    requires OrderLaw(q, u, given, k, codes) && AdmissibleOrder(q, u, xs)
    requires n == k + Requests(xs) && all == codes + Codes(xs) && |all| <= 1
    ensures OrderLaw(ArriveAll(q, xs), u, given, n, all)
    decreases |xs|
  {
    if xs == [] {
      assert all == codes;
    } else {
      TailCounts(xs, codes);
      var q1 := FirstArrival(q, u, given, k, codes, xs);
      OrderRun(q1, u, given, k + if xs[0].Request? then 1 else 0, Seen(codes, xs[0]), xs[1..], n, all);
    }
  }

  // ---------------------------------------------------------------- requests that come before the URB

  /** A request that finds no URB is put on the event list. */
  lemma EarlyRequest(q: Core, len: nat)
    requires Resting(q)
    ensures Arrive(q, Request(len)) == q.(evq := q.evq + [Message(CMD_TRANSFER_REQUEST, 0, len)])
    ensures Resting(Arrive(q, Request(len)))
  {
    NothingLeft(q);
  }

  /** The first request on the list is for the setup packet, the others are for OUT data if there is any. */
  predicate EarlyEnough(u: Vurb, evq: seq<Message>) { evq == [] || AllRequests(u, evq[1..]) }

  /** Submitting the URB consumes the first early request, if there is one, and keeps the others. */
  lemma SubmitToResting(q: Core, internal: bool, id: nat, dirIn: bool, length: nat, r: Core)
    requires Resting(q) && length < U32_RANGE && EarlyEnough(FreshUrb(id, dirIn, length), q.evq)
    requires r == UrbCreate(q, internal, id, dirIn, length, 0).q
    ensures Live(r, FreshUrb(id, dirIn, length), |q.evq|, []) && r.giveback == q.giveback
  {
    var u := FreshUrb(id, dirIn, length);
    var q1 := q.(urbs := [u]);
    assert q.urbs + [u] == [u];
    var s := FirstInit(q1, internal, 0);
    assert s.status == 0 && s.q.urbs == [u.(state := ControlWaitingForSetupRequest)];
    assert r == DeliverPending(s.q);
    if q.evq == [] {
      assert Live(s.q, u, 0, []);
      Undeliverable(s.q, u, 0, []);
    } else {
      var t := UrbUpdate(s.q, 0, q.evq[0]);
      var q2 := t.q.(evq := q.evq[1..]);
      assert Live(q2, u, |q.evq|, []);
      Undeliverable(q2, u, |q.evq|, []);
      assert DeliverLoop(s.q) == DeliverLoop(q2);
    }
  }

  /** However the requests (before the URB or after), the status event and the DMA completions of one control transfer
      interleave, once all of them arrived the URB is given back with 0 for SUCCESS (1) and -EPIPE (-32) for anything
      else, and in the second case the endpoint is stalled and its reset queued. */
  lemma OrderDoesNotMatter(q: Core, internal: bool, u: Vurb, q1: Core, xs: seq<Arrival>, code: nat)
    requires Resting(q) && u == FreshUrb(u.id, u.dirIn, u.length) && u.length < U32_RANGE && EarlyEnough(u, q.evq)
    requires q1 == UrbCreate(q, internal, u.id, u.dirIn, u.length, 0).q && AdmissibleOrder(q1, u, xs)
    requires Codes(xs) == [code] && |q.evq| + Requests(xs) >= RequestsNeeded(u)
    requires ArriveAll(q1, xs).dma.sqIn.owed == [] && ArriveAll(q1, xs).dma.sqOut.owed == []
    ensures var r := ArriveAll(q1, xs);
      && r.urbs == []
      && |r.giveback| == |q.giveback| + 1 && r.giveback[..|q.giveback|] == q.giveback
      && r.giveback[|q.giveback|].id == u.id
      && r.giveback[|q.giveback|].status == (if code == 1 then 0 else -32)
      && r.flags.active == (code == 1) && (code != 1 ==> r.flags.stalled && r.flags.resetQueued)
  {
    SubmitToResting(q, internal, u.id, u.dirIn, u.length, q1);
    assert [] + Codes(xs) == [code];
    OrderRun(q1, u, q.giveback, |q.evq|, [], xs, |q.evq| + Requests(xs), [code]);
  }
}
