/** Conservation laws of the transfer queue: slots, URBs, output DMA, and the pause mask. */
module TransferAccounting {
  import opened TransferModel
  import opened TransferRuns

  // ---------------------------------------------------------------- tallies

  predicate Holds(u: Vurb) { u.state != InitPending }

  /** Listed URBs that hold an active slot. */
  function Slots(urbs: seq<Vurb>): nat {
    if urbs == [] then 0
    else Slots(urbs[..|urbs| - 1]) + if Holds(urbs[|urbs| - 1]) then 1 else 0
  }

  lemma {:induction false} TallyConcat(a: seq<Vurb>, b: seq<Vurb>, id: nat)
    ensures Slots(a + b) == Slots(a) + Slots(b)
    ensures Listed(a + b, id) == Listed(a, id) + Listed(b, id)
  {
    if b == [] {
      assert a + b == a;
    } else {
      var n := |b| - 1;
      assert (a + b)[..|a + b| - 1] == a + b[..n];
      TallyConcat(a, b[..n], id);
    }
  }

  lemma TallyOne(u: Vurb, id: nat)
    ensures Slots([u]) == (if Holds(u) then 1 else 0) && Listed([u], id) == if u.id == id then 1 else 0
  {
    assert [u][..0] == [];
  }

  lemma TallyAt(urbs: seq<Vurb>, i: nat, id: nat)
    requires i < |urbs|
    ensures Slots(urbs) == Slots(urbs[..i]) + (if Holds(urbs[i]) then 1 else 0) + Slots(urbs[i + 1..])
    ensures Listed(urbs, id) == Listed(urbs[..i], id) + (if urbs[i].id == id then 1 else 0) + Listed(urbs[i + 1..], id)
  {
    var a, m, b := urbs[..i], [urbs[i]], urbs[i + 1..];
    assert urbs == (a + m) + b;
    TallyOne(urbs[i], id);
    TallyConcat(a, m, id);
    TallyConcat(a + m, b, id);
  }

  lemma TallyUpdate(urbs: seq<Vurb>, i: nat, u: Vurb, id: nat)
    requires i < |urbs| && u.id == urbs[i].id
    ensures Slots(urbs[i := u]) == Slots(urbs) + (if Holds(u) then 1 else 0) - (if Holds(urbs[i]) then 1 else 0)
    ensures Listed(urbs[i := u], id) == Listed(urbs, id)
  {
    TallyAt(urbs, i, id);
    TallyAt(urbs[i := u], i, id);
    assert urbs[i := u][..i] == urbs[..i];
    assert urbs[i := u][i + 1..] == urbs[i + 1..];
  }

  lemma TallyRemove(urbs: seq<Vurb>, i: nat, id: nat)
    requires i < |urbs|
    ensures Slots(Without(urbs, i)) == Slots(urbs) - if Holds(urbs[i]) then 1 else 0
    ensures Listed(Without(urbs, i), id) == Listed(urbs, id) - if urbs[i].id == id then 1 else 0
  {
    TallyAt(urbs, i, id);
    TallyConcat(urbs[..i], urbs[i + 1..], id);
  }

  lemma {:induction false} GoingConcat(a: seq<Done>, b: seq<Done>, id: nat)
    ensures Going(a + b, id) == Going(a, id) + Going(b, id)
  {
    if b == [] {
      assert a + b == a;
    } else {
      var n := |b| - 1;
      assert (a + b)[..|a + b| - 1] == a + b[..n];
      GoingConcat(a, b[..n], id);
    }
  }

  lemma GoingAppend(ds: seq<Done>, d: Done, id: nat)
    ensures Going(ds + [d], id) == Going(ds, id) + if d.id == id then 1 else 0
  {
    assert (ds + [d])[..|ds|] == ds;
  }

  lemma GoingRemove(ds: seq<Done>, k: nat, id: nat)
    requires k < |ds|
    ensures Going(ds, id) == Going(ds[..k] + ds[k + 1..], id) + if ds[k].id == id then 1 else 0
  {
    var a, b := ds[..k], ds[k + 1..];
    assert ds == (a + [ds[k]]) + b;
    GoingAppend(a, ds[k], id);
    GoingConcat(a + [ds[k]], b, id);
    GoingConcat(a, b, id);
  }

  // ---------------------------------------------------------------- what every critical section keeps

  /** sq_out_pending counts the output DMA in flight; the credits of both rings do too. */
  predicate Drained(d: Dma) {
    && OutDrained(d)
    && InEntries(d) == RING_CREDITS && d.sqIn.available >= 0
  }

  predicate OutDrained(d: Dma) {
    d.sqOutPending == |d.sqOut.owed| == RING_CREDITS - d.sqOut.available && d.sqOut.available >= 0
  }

  /** Entries of sq_in, free or in flight. */
  function InEntries(d: Dma): int { d.sqIn.available + |d.sqIn.owed| }

  function Ghosts(k: Counters): nat { |k.ghostIn| + |k.ghostOut| }

  /** Slots that are free, held by a listed URB, or held by a cancelled one whose DMA is in flight. */
  function SlotsSeen(q: Core): int { q.counters.remaining + Slots(q.urbs) + Ghosts(q.counters) }

  /** What one critical section may not change: a preorder on queues. */
  predicate Kept(q: Core, r: Core, id: nat) {
    && r.cfg == q.cfg
    && (r.flags.active ==> q.flags.active)
    && SlotsSeen(r) == SlotsSeen(q)
    && Ghosts(r.counters) <= Ghosts(q.counters)
    && (q.counters.remaining >= 0 ==> r.counters.remaining >= 0)
    && (OutDrained(q.dma) ==> OutDrained(r.dma))
    && InEntries(r.dma) == InEntries(q.dma) && (q.dma.sqIn.available >= 0 ==> r.dma.sqIn.available >= 0)
    && Listed(r.urbs, id) + Going(r.giveback, id) == Listed(q.urbs, id) + Going(q.giveback, id)
    && q.log <= r.log
  }

  lemma KeptSetUrb(q: Core, i: nat, u: Vurb, id: nat)
    requires i < |q.urbs| && u.id == q.urbs[i].id && Holds(u) == Holds(q.urbs[i])
    ensures Kept(q, SetUrb(q, i, u), id)
  {
    TallyUpdate(q.urbs, i, u, id);
  }

  lemma KeptUrbComplete(q: Core, i: nat, status: int, id: nat)
    requires i < |q.urbs|
    ensures Kept(q, UrbComplete(q, i, status), id)
  {
    var r := UrbComplete(q, i, status);
    assert SlotsSeen(r) == SlotsSeen(q) && Listed(r.urbs, id) == Listed(q.urbs, id) - if q.urbs[i].id == id then 1
        else 0 by {
      TallyRemove(q.urbs, i, id);
    }
    assert Going(r.giveback, id) == Going(q.giveback, id) + if q.urbs[i].id == id then 1 else 0 by {
      GoingAppend(q.giveback, Done(q.urbs[i].id, status, q.urbs[i].actualLength), id);
    }
  }

  /** A successful start turns one free slot into one held slot. */
  predicate Started(q: Core, s: Outcome, i: nat, id: nat)
    requires i < |q.urbs|
  {
    && |s.q.urbs| == |q.urbs|
    && s.q.counters == q.counters
    && (s.status == 0 ==> Holds(s.q.urbs[i]))
    && (s.status != 0 ==> s.q.urbs == q.urbs)
    && Kept(q, if s.status == 0 && !Holds(q.urbs[i]) then s.q.(counters := Taken(q.counters)) else s.q, id)
  }

  lemma KeptDataTransferIn(q: Core, i: nat, id: nat)
    requires i < |q.urbs| && (Holds(q.urbs[i]) || CanInit(q))
    ensures Started(q, DataTransferIn(q, i), i, id)
  {
    var s := DataTransferIn(q, i);
    if s.status == 0 {
      TallyUpdate(q.urbs, i, s.q.urbs[i], id);
    }
  }

  lemma KeptDataStart(q: Core, i: nat, id: nat)
    requires i < |q.urbs| && (Holds(q.urbs[i]) || CanInit(q))
    ensures Started(q, DataStart(q, i), i, id)
  {
    KeptDataTransferIn(q, i, id);
    if !q.urbs[i].dirIn {
      TallyUpdate(q.urbs, i, DataStart(q, i).q.urbs[i], id);
    }
  }

  lemma KeptUrbInit(q: Core, i: nat, id: nat)
    requires i < |q.urbs| && !Holds(q.urbs[i]) && CanInit(q)
    ensures Kept(q, UrbInit(q, i).q, id)
    ensures UrbInit(q, i).status != 0 ==> UrbInit(q, i).q.urbs == q.urbs
  {
    KeptDataStart(q, i, id);
    TallyUpdate(q.urbs, i, q.urbs[i].(state := ControlWaitingForSetupRequest), id);
  }

  lemma KeptSendOut(q: Core, sub: Submission, wanted: nat, id: nat)
    ensures Kept(q, SendOut(q, sub, wanted).q, id)
  {
  }

  lemma KeptDataUpdate(q: Core, i: nat, msg: Message, id: nat)
    requires i < |q.urbs| && Holds(q.urbs[i])
    ensures Kept(q, DataUpdate(q, i, msg).q, id)
    ensures |DataUpdate(q, i, msg).q.urbs| == |q.urbs| && Holds(DataUpdate(q, i, msg).q.urbs[i])
  {
    var u := q.urbs[i];
    if u.state == WaitingForTransferRequest && msg.cmd == CMD_TRANSFER_REQUEST {
      var s := DataUpdate(q, i, msg);
      if s.status == 0 {
        TallyUpdate(q.urbs, i, s.q.urbs[i], id);
      }
    }
  }

  lemma KeptDataTransferCompletion(q: Core, i: nat, c: Completion, id: nat)
    requires i < |q.urbs| && Holds(q.urbs[i])
    ensures var s := DataTransferCompletion(q, i, c);
      && Kept(q, s.q, id)
      && (s.status == 0 ==> |s.q.urbs| == |q.urbs| && Holds(s.q.urbs[i]))
  {
    var u := q.urbs[i];
    if u.state == WaitingForCompletion {
      var u1 := u.(receiveOffset := (u.receiveOffset + c.dataSize) % U32_RANGE);
      var u2 := u1.(actualLength := u1.receiveOffset, state := DataTransferComplete);
      KeptSetUrb(q, i, u1, id);
      KeptSetUrb(q, i, u2, id);
      KeptUrbComplete(SetUrb(q, i, u2), i, 0, id);
    }
  }

  lemma KeptControlCheckStatus(q: Core, i: nat, id: nat)
    requires i < |q.urbs| && Holds(q.urbs[i])
    ensures Kept(q, ControlCheckStatus(q, i).q, id)
  {
    var q1 := SetState(q, i, ControlComplete);
    KeptSetUrb(q, i, q.urbs[i].(state := ControlComplete), id);
    KeptUrbComplete(q1, i, EPIPE, id);
    KeptUrbComplete(q1, i, 0, id);
  }

  lemma KeptStatusNote(q: Core, i: nat, code: nat, id: nat)
    requires i < |q.urbs| && Holds(q.urbs[i])
    ensures Kept(q, q.(urbs := q.urbs[i := q.urbs[i].(receivedStatus := code)],
                       log := q.log + [StatusReceived(q.urbs[i].id, code)]), id)
  {
    TallyUpdate(q.urbs, i, q.urbs[i].(receivedStatus := code), id);
  }

  lemma KeptControlUpdate(q: Core, i: nat, msg: Message, id: nat)
    requires i < |q.urbs| && Holds(q.urbs[i])
    ensures Kept(q, ControlUpdate(q, i, msg).q, id)
  {
    var u := q.urbs[i];
    if msg.cmd == CMD_CONTROL_TRANSFER_STATUS {
      KeptStatusNote(q, i, msg.status, id);
      KeptControlCheckStatus(
        q.(urbs := q.urbs[i := u.(receivedStatus := msg.status)], log := q.log + [StatusReceived(u.id, msg.status)]),
            i, id);
    } else if u.state == ControlWaitingForSetupRequest && msg.cmd == CMD_TRANSFER_REQUEST {
      var sub := Submission(u.id, true, SETUP_PACKET_SIZE);
      KeptSendOut(q, sub, SETUP_PACKET_SIZE, id);
      KeptSetUrb(SendOut(q, sub, SETUP_PACKET_SIZE).q, i, u.(state := ControlWaitingForSetupCompletion), id);
    } else if u.state == WaitingForTransferRequest || u.state == WaitingForCompletion {
      KeptDataUpdate(q, i, msg, id);
      KeptControlCheckStatus(DataUpdate(q, i, msg).q, i, id);
    }
  }

  lemma KeptControlTransferCompletion(q: Core, i: nat, c: Completion, id: nat)
    requires i < |q.urbs| && Holds(q.urbs[i])
    ensures Kept(q, ControlTransferCompletion(q, i, c).q, id)
  {
    var u := q.urbs[i];
    if u.state == ControlWaitingForSetupCompletion {
      KeptDataStart(q, i, id);
      var s := DataStart(q, i);
      if s.status != 0 {
        KeptUrbComplete(s.q, i, s.status, id);
      } else {
        KeptControlCheckStatus(s.q, i, id);
      }
    } else if u.state == WaitingForTransferRequest || u.state == WaitingForCompletion {
      KeptDataTransferCompletion(q, i, c, id);
      var s := DataTransferCompletion(q, i, c);
      if s.status == 0 {
        KeptControlCheckStatus(s.q, i, id);
      }
    }
  }

  lemma KeptUrbUpdate(q: Core, i: nat, msg: Message, id: nat)
    requires i < |q.urbs|
    ensures Kept(q, UrbUpdate(q, i, msg).q, id)
  {
    if Holds(q.urbs[i]) {
      KeptControlUpdate(q, i, msg, id);
      KeptDataUpdate(q, i, msg, id);
    }
  }

  lemma KeptUrbTransferCompletion(q: Core, i: nat, c: Completion, id: nat)
    requires i < |q.urbs| && Holds(q.urbs[i])
    ensures Kept(q, UrbTransferCompletion(q, i, c).q, id)
  {
    KeptControlTransferCompletion(q, i, c, id);
    KeptDataTransferCompletion(q, i, c, id);
  }

  lemma {:induction false} KeptInitPendingFrom(q: Core, i: nat, id: nat)
    ensures Kept(q, InitPendingFrom(q, i), id)
    decreases |q.urbs| - i
  {
    if i < |q.urbs| && CanInit(q) {
      var q1 := if q.urbs[i].state == InitPending then UrbInit(q, i).q else q;
      if q.urbs[i].state == InitPending {
        KeptUrbInit(q, i, id);
      }
      KeptInitPendingFrom(q1, i + 1, id);
    }
  }

  lemma {:induction false} KeptDeliverLoop(q: Core, id: nat)
    ensures Kept(q, DeliverLoop(q), id)
    decreases |q.evq|
  {
    if q.urbs != [] && q.evq != [] {
      KeptUrbUpdate(q, 0, q.evq[0], id);
      var s := UrbUpdate(q, 0, q.evq[0]);
      if s.status != EAGAIN {
        KeptDeliverLoop(s.q.(evq := q.evq[1..]), id);
      }
    }
  }

  lemma KeptDeliverPending(q: Core, id: nat)
    ensures Kept(q, DeliverPending(q), id)
  {
    KeptDeliverLoop(q, id);
    KeptInitPendingFrom(DeliverLoop(q), 0, id);
  }

  lemma KeptEvent(q: Core, internal: bool, msg: Message, memory: bool, id: nat)
    ensures Kept(q, Event(q, internal, msg, memory), id)
  {
    if q.flags.active {
      var d := DeliverPending(q);
      KeptDeliverPending(q, id);
      if msg.cmd == CMD_TRANSFER_REQUEST && (d.evq != [] || d.urbs == []) {
        KeptDefer(d, msg, memory, id);
      } else if d.urbs != [] {
        KeptHeadUpdate(d, msg, memory, id);
      }
    } else {
      KeptDefer(q, msg, memory, id);
    }
  }

  lemma KeptHeadUpdate(d: Core, msg: Message, memory: bool, id: nat)
    requires d.urbs != []
    ensures var s := UrbUpdate(d, 0, msg);
      Kept(d, if s.status == EAGAIN then DeferEvent(s.q, msg, memory) else InitPendingUrbs(s.q), id)
  {
    KeptUrbUpdate(d, 0, msg, id);
    var s := UrbUpdate(d, 0, msg);
    KeptDefer(s.q, msg, memory, id);
    KeptInitPendingFrom(s.q, 0, id);
  }

  lemma KeptDefer(q: Core, msg: Message, memory: bool, id: nat)
    ensures Kept(q, DeferEvent(q, msg, memory), id)
  {
  }

  lemma KeptNotify(q: Core, out: bool, charge: Charge, id: nat)
    requires Owed(q.dma, out) != []
    ensures Kept(q, Notify(q, out, charge), id)
  {
  }

  lemma KeptGhostIn(q: Core, id: nat)
    requires q.dma.sqIn.owed != [] && q.counters.ghostIn != []
    ensures Kept(q, GhostInDone(q), id)
  {
    var k := q.counters;
    KeptInitPendingFrom(TakeIn(q, ToCancelled(k.ghostIn[0])).(counters := Freed(k).(ghostIn := k.ghostIn[1..])), 0, id);
  }

  /** With entries to spare, or on endpoint 0, it makes no difference when the ring gets its entry back. */
  lemma {:induction false} CreditCommutes(q: Core, i: nat)
    requires q.cfg.control || q.dma.sqIn.available >= q.counters.remaining
    ensures CreditIn(InitPendingFrom(q, i)) == InitPendingFrom(CreditIn(q), i)
    decreases |q.urbs| - i
  {
    if i < |q.urbs| && CanInit(q) {
      var q1 := if q.urbs[i].state == InitPending then UrbInit(q, i).q else q;
      var r1 := if q.urbs[i].state == InitPending then UrbInit(CreditIn(q), i).q else CreditIn(q);
      assert r1 == CreditIn(q1);
      CreditCommutes(q1, i + 1);
    }
  }

  lemma GhostInAsNotify(q: Core)
    requires q.dma.sqIn.owed != [] && q.counters.ghostIn != []
    requires q.cfg.control || q.dma.sqIn.available > q.counters.remaining
    ensures var k := q.counters;
      GhostInDone(q) ==
      InitPendingUrbs(Notify(q, false, ToCancelled(k.ghostIn[0])).(counters := Freed(k).(ghostIn := k.ghostIn[1..])))
  {
    var k := q.counters;
    CreditCommutes(TakeIn(q, ToCancelled(k.ghostIn[0])).(counters := Freed(k).(ghostIn := k.ghostIn[1..])), 0);
  }

  lemma KeptCompleteOne(q: Core, out: bool, c: Completion, id: nat)
    requires Owed(q.dma, out) != []
    ensures Kept(q, CompleteOne(q, out, c), id)
  {
    var k := q.counters;
    if c.aborted {
      KeptNotify(q, out, ToNobody, id);
    } else if !out && k.ghostIn != [] {
      KeptGhostIn(q, id);
    } else if out && k.ghostOut != [] {
      var n := Notify(q, out, ToCancelled(k.ghostOut[0]));
      KeptNotify(q, out, ToCancelled(k.ghostOut[0]), id);
      KeptInitPendingFrom(n.(counters := Freed(k).(ghostOut := k.ghostOut[1..])), 0, id);
    } else if q.urbs == [] || q.urbs[0].state == InitPending {
      KeptNotify(q, out, ToNobody, id);
    } else {
      KeptNotify(q, out, ToLive(q.urbs[0].id, c.dataSize), id);
      KeptUrbTransferCompletion(Notify(q, out, ToLive(q.urbs[0].id, c.dataSize)), 0, c, id);
    }
  }

  lemma {:induction false} KeptCompleteLoop(q: Core, out: bool, cs: seq<Completion>, id: nat)
    ensures Kept(q, CompleteLoop(q, out, cs), id)
    decreases |cs|
  {
    if cs != [] && Owed(q.dma, out) != [] {
      KeptCompleteOne(q, out, cs[0], id);
      KeptCompleteLoop(CompleteOne(q, out, cs[0]), out, cs[1..], id);
    }
  }

  lemma {:induction false} KeptResumeFrom(q: Core, i: nat, id: nat)
    ensures Kept(q, ResumeFrom(q, i), id)
    decreases |q.urbs| - i
  {
    if i < |q.urbs| {
      if q.urbs[i].state == InitPending {
        if CanInit(q) {
          KeptUrbInit(q, i, id);
          KeptResumeFrom(UrbInit(q, i).q, i + 1, id);
        }
      } else {
        KeptUrbResume(q, i, id);
        var q1 := UrbResume(q, i);
        KeptResumeFrom(q1, if |q1.urbs| < |q.urbs| then i else i + 1, id);
      }
    }
  }

  lemma KeptUrbResume(q: Core, i: nat, id: nat)
    requires i < |q.urbs| && Holds(q.urbs[i])
    ensures Kept(q, UrbResume(q, i), id)
  {
    KeptDataTransferIn(q, i, id);
    var s := DataTransferIn(q, i);
    if s.status != 0 {
      KeptUrbComplete(s.q, i, s.status, id);
    }
  }

  lemma {:induction false} KeptCancelLoop(q: Core, id: nat)
    ensures Kept(q, CancelLoop(q), id)
    decreases |q.urbs|
  {
    if q.urbs != [] {
      KeptUrbComplete(q, 0, ECONNRESET, id);
      KeptCancelLoop(UrbComplete(q, 0, ECONNRESET), id);
    }
  }

  /** A submission adds its URB to the endpoint exactly when it succeeds. */
  lemma KeptUrbCreate(q: Core, internal: bool, nid: nat, dirIn: bool, length: nat, link: int, id: nat)
    ensures var s := UrbCreate(q, internal, nid, dirIn, length, link);
      && Kept(q.(urbs := if s.status == 0 then q.urbs + [FreshUrb(nid, dirIn, length)] else q.urbs), s.q, id)
  {
    if link == 0 {
      var q1 := q.(urbs := q.urbs + [FreshUrb(nid, dirIn, length)]);
      var s := FirstInit(q1, internal, |q.urbs|);
      assert Kept(q1, s.q, id) && (s.status != 0 ==> s.q.urbs == q1.urbs) by {
        if q.flags.active && CanInit(q1) {
          KeptUrbInit(q1, |q.urbs|, id);
        }
      }
      if s.status == 0 {
        KeptDeliverPending(s.q, id);
      } else {
        assert Without(q1.urbs, |q.urbs|) == q.urbs;
        TallyRemove(q1.urbs, |q.urbs|, id);
      }
    }
  }

  lemma KeptResumeActivate(q: Core, id: nat)
    ensures Kept(q.(flags := q.flags.(active := true)), ResumeActivate(q), id)
  {
    var q1 := q.(flags := q.flags.(active := true));
    KeptResumeFrom(q1, 0, id);
    KeptDeliverPending(ResumeFrom(q1, 0), id);
  }

  lemma KeptCompletionHandler(q: Core, out: bool, cs: seq<Completion>, id: nat)
    ensures Kept(q, CompletionHandler(q, out, cs), id)
  {
    KeptCompleteLoop(q, out, cs, id);
    KeptDeliverPending(CompleteLoop(q, out, cs), id);
  }

  /** A completion that finishes the head of a data endpoint takes it off the list and frees its slot. */
  lemma HeadDone(q: Core, out: bool, c: Completion)
    requires !q.cfg.control && q.urbs != [] && Waiting(q.urbs[0])
    requires Owed(q.dma, out) != [] && !c.aborted
    requires if out then q.counters.ghostOut == [] else q.counters.ghostIn == []
    requires q.urbs[0].dirIn || (q.urbs[0].receiveOffset + c.dataSize) % U32_RANGE >= q.urbs[0].length
    ensures var r := CompleteOne(q, out, c);
            var n := Notify(q, out, ToLive(q.urbs[0].id, c.dataSize));
      && r.urbs == q.urbs[1..] && r.counters == Freed(q.counters) && r.dma == n.dma
      && r.cfg == q.cfg && r.flags == q.flags
      && |r.log| == |q.log| + 2 && r.log[..|q.log| + 1] == n.log && r.log[|q.log| + 1].Finished?
  {
    var u := q.urbs[0];
    var off := (u.receiveOffset + c.dataSize) % U32_RANGE;
    var u2 := u.(receiveOffset := off, actualLength := off, state := DataTransferComplete);
    assert Without(q.urbs[0 := u2], 0) == q.urbs[1..];
  }

  lemma TallyTail(urbs: seq<Vurb>)
    requires urbs != []
    ensures Slots(urbs[1..]) == Slots(urbs) - if Holds(urbs[0]) then 1 else 0
  {
    TallyRemove(urbs, 0, 0);
    assert Without(urbs, 0) == urbs[1..];
  }
}
