/** Endpoint 0 when every setup packet goes out on a quiet wire: whatever the T2 still owes, it owes to the URB that
    sent the last setup packet. */
module TransferDebt {
  import opened TransferModel
  import opened TransferRuns
  import opened TransferAccounting
  import opened TransferTheorems

  predicate IsSetup(n: Note) { n.Sent? && n.sub.setup }

  /** Who sent the last setup packet, -1 for nobody. */
  function LastSetup(log: seq<Note>): int {
    if log == [] then -1
    else if IsSetup(log[|log| - 1]) then log[|log| - 1].sub.owner
    else LastSetup(log[..|log| - 1])
  }

  /** Submissions sent and not answered. */
  function Balance(log: seq<Note>): int {
    if log == [] then 0
    else
      var n := log[|log| - 1];
      Balance(log[..|log| - 1]) + (if n.Sent? then 1 else if n.Answered? then -1 else 0)
  }

  /** No setup packet was sent while the T2 still owed an answer to an earlier submission. */
  predicate QuietSetups(log: seq<Note>) {
    log == [] ||
    (QuietSetups(log[..|log| - 1]) && (IsSetup(log[|log| - 1]) ==> Balance(log[..|log| - 1]) == 0))
  }

  lemma AppendNote(log: seq<Note>, n: Note)
    ensures LastSetup(log + [n]) == if IsSetup(n) then n.sub.owner else LastSetup(log)
    ensures Balance(log + [n]) == Balance(log) + (if n.Sent? then 1 else if n.Answered? then -1 else 0)
    ensures QuietSetups(log + [n]) <==> QuietSetups(log) && (IsSetup(n) ==> Balance(log) == 0)
  {
    assert (log + [n])[..|log|] == log;
  }

  lemma {:induction false} QuietPrefix(a: seq<Note>, b: seq<Note>)
    requires a <= b && QuietSetups(b)
    ensures QuietSetups(a)
    decreases |b|
  {
    if |a| == |b| {
      assert a == b;
    } else {
      QuietPrefix(a, b[..|b| - 1]);
    }
  }

  predicate OwnedBy(owed: seq<Submission>, id: int) { forall k :: 0 <= k < |owed| ==> owed[k].owner == id }

  /** The setup packet is out. */
  predicate SetupOut(u: Vurb) { u.state != InitPending && u.state != ControlWaitingForSetupRequest }

  predicate SetupOutAre(urbs: seq<Vurb>, id: int) {
    forall i :: 0 <= i < |urbs| && SetupOut(urbs[i]) ==> urbs[i].id == id
  }

  /** While the setup packet is on the wire nothing else is; afterwards it is not. */
  predicate Stage(s: UrbState, d: Dma) {
    if s == ControlWaitingForSetupCompletion then
      d.sqIn.owed == [] && |d.sqOut.owed| <= 1 && forall k :: 0 <= k < |d.sqOut.owed| ==> d.sqOut.owed[k].setup
    else
      && (forall k :: 0 <= k < |d.sqIn.owed| ==> !d.sqIn.owed[k].setup)
      && (forall k :: 0 <= k < |d.sqOut.owed| ==> !d.sqOut.owed[k].setup)
  }

  predicate StagesMatch(urbs: seq<Vurb>, d: Dma) {
    forall i :: 0 <= i < |urbs| && SetupOut(urbs[i]) ==> Stage(urbs[i].state, d)
  }

  predicate Own(q: Core) {
    && OwnedBy(q.dma.sqIn.owed, LastSetup(q.log)) && OwnedBy(q.dma.sqOut.owed, LastSetup(q.log))
    && Balance(q.log) == |q.dma.sqIn.owed| + |q.dma.sqOut.owed|
    && SetupOutAre(q.urbs, LastSetup(q.log)) && StagesMatch(q.urbs, q.dma)
  }

  predicate DebtLaw(q: Core) {
    && q.cfg.control && q.counters.remaining >= 0 && SlotsSeen(q) <= 1
    && (QuietSetups(q.log) ==> Own(q))
  }

  // ---------------------------------------------------------------- single updates

  lemma OneHolder(urbs: seq<Vurb>, i: nat, j: nat)
    requires i < |urbs| && j < |urbs| && i != j && Holds(urbs[i]) && Holds(urbs[j])
    ensures Slots(urbs) >= 2
  {
    TallyAt(urbs, i, 0);
    if j < i {
      TallyAt(urbs[..i], j, 0);
    } else {
      TallyAt(urbs[i + 1..], j - i - 1, 0);
    }
  }

  /** An URB changes state without anything going over the wire. */
  lemma DebtSet(q: Core, i: nat, u: Vurb)
    requires DebtLaw(q) && i < |q.urbs| && u.id == q.urbs[i].id
    requires Holds(u) == Holds(q.urbs[i]) && (SetupOut(u) ==> SetupOut(q.urbs[i]))
    requires SetupOut(u) && QuietSetups(q.log) ==> Stage(u.state, q.dma)
    ensures DebtLaw(SetUrb(q, i, u))
  {
    TallyUpdate(q.urbs, i, u, 0);
  }

  lemma DebtInit(q: Core, i: nat)
    requires DebtLaw(q) && i < |q.urbs| && !Holds(q.urbs[i]) && CanInit(q)
    ensures DebtLaw(UrbInit(q, i).q) && UrbInit(q, i).status == 0
  {
    TallyUpdate(q.urbs, i, q.urbs[i].(state := ControlWaitingForSetupRequest), 0);
  }

  lemma DebtComplete(q: Core, i: nat, status: int)
    requires DebtLaw(q) && i < |q.urbs|
    ensures DebtLaw(UrbComplete(q, i, status))
  {
    TallyRemove(q.urbs, i, 0);
    AppendNote(q.log, Finished(q.urbs[i], status));
    assert forall k :: 0 <= k < |q.urbs| - 1 ==> Without(q.urbs, i)[k] == q.urbs[if k < i then k else k + 1];
  }

  lemma DebtTransferIn(q: Core, i: nat)
    requires DebtLaw(q) && i < |q.urbs| && SetupOut(q.urbs[i])
    requires QuietSetups(q.log) ==> Stage(WaitingForCompletion, q.dma)
    ensures var s := DataTransferIn(q, i); DebtLaw(s.q) && (s.status != 0 ==> s.q.urbs == q.urbs)
  {
    var s := DataTransferIn(q, i);
    if s.status == 0 {
      OthersPend(q, i);
      TallyUpdate(q.urbs, i, s.q.urbs[i], 0);
      AppendNote(q.log, s.q.log[|q.log|]);
      assert s.q.urbs == q.urbs[i := s.q.urbs[i]];
      assert SetupOut(s.q.urbs[i]);
    }
  }

  lemma OthersPend(q: Core, i: nat)
    requires DebtLaw(q) && i < |q.urbs| && Holds(q.urbs[i])
    ensures forall j :: 0 <= j < |q.urbs| && j != i ==> !Holds(q.urbs[j])
  {
    forall j | 0 <= j < |q.urbs| && j != i
      ensures !Holds(q.urbs[j])
    {
      if Holds(q.urbs[j]) {
        OneHolder(q.urbs, i, j);
      }
    }
  }

  /** The setup packet of the only URB that holds a slot. */
  lemma DebtSendSetup(q: Core, i: nat, u: Vurb)
    requires DebtLaw(q) && i < |q.urbs| && Holds(q.urbs[i]) && q.dma.sqOut.available > 0
    requires u == q.urbs[i].(state := ControlWaitingForSetupCompletion)
    ensures DebtLaw(SetUrb(SendOut(q, Submission(u.id, true, SETUP_PACKET_SIZE), SETUP_PACKET_SIZE).q, i, u))
  {
    OthersPend(q, i);
    TallyUpdate(q.urbs, i, u, 0);
    var n := Sent(Submission(u.id, true, SETUP_PACKET_SIZE), SETUP_PACKET_SIZE);
    AppendNote(q.log, n);
    if QuietSetups(q.log + [n]) {
      assert q.dma.sqIn.owed == [] && q.dma.sqOut.owed == [];
    }
  }

  /** Data of an URB whose setup packet is out and answered. */
  lemma DebtSendData(q: Core, i: nat, len: nat, wanted: nat, u: Vurb)
    requires DebtLaw(q) && i < |q.urbs| && q.urbs[i].state == WaitingForTransferRequest && q.dma.sqOut.available > 0
    requires u.id == q.urbs[i].id && u.state == WaitingForCompletion
    ensures DebtLaw(SetUrb(SendOut(q, Submission(u.id, false, len), wanted).q, i, u))
  {
    OthersPend(q, i);
    TallyUpdate(q.urbs, i, u, 0);
    AppendNote(q.log, Sent(Submission(u.id, false, len), wanted));
    assert QuietSetups(q.log) ==> Stage(q.urbs[i].state, q.dma);
  }

  lemma DebtNotify(q: Core, out: bool, charge: Charge)
    requires DebtLaw(q) && Owed(q.dma, out) != []
    ensures DebtLaw(Notify(q, out, charge))
  {
    AppendNote(q.log, Answered(Owed(q.dma, out)[0], charge));
  }

  // ---------------------------------------------------------------- the law, function by function

  lemma DebtCheckStatus(q: Core, i: nat)
    requires DebtLaw(q) && i < |q.urbs| && Holds(q.urbs[i])
    ensures DebtLaw(ControlCheckStatus(q, i).q)
  {
    var u := q.urbs[i];
    if ControlCheckStatus(q, i).status == ENOENT {
      var q1 := SetState(q, i, ControlComplete);
      assert SetupOut(u);
      DebtSet(q, i, u.(state := ControlComplete));
      DebtComplete(q1, i, if u.receivedStatus != STATUS_SUCCESS then EPIPE else 0);
    }
  }

  lemma DebtDataUpdate(q: Core, i: nat, msg: Message)
    requires DebtLaw(q) && i < |q.urbs|
    ensures var s := DataUpdate(q, i, msg);
      DebtLaw(s.q) && |s.q.urbs| == |q.urbs| && (Holds(q.urbs[i]) ==> Holds(s.q.urbs[i]))
  {
    var u := q.urbs[i];
    if u.state == WaitingForTransferRequest && msg.cmd == CMD_TRANSFER_REQUEST {
      var wanted := (u.length - u.sendOffset) % U32_RANGE;
      var len := Min(wanted, msg.param2 % U32_RANGE);
      if q.dma.sqOut.available > 0 {
        DebtSendData(q, i, len, wanted, u.(sendOffset := (u.sendOffset + len) % U32_RANGE,
            state := WaitingForCompletion));
      }
    }
  }

  lemma DebtStatus(q: Core, i: nat, code: nat)
    requires DebtLaw(q) && i < |q.urbs|
    ensures DebtLaw(q.(urbs := q.urbs[i := q.urbs[i].(receivedStatus := code)],
                       log := q.log + [StatusReceived(q.urbs[i].id, code)]))
  {
    DebtSet(q, i, q.urbs[i].(receivedStatus := code));
    AppendNote(q.log, StatusReceived(q.urbs[i].id, code));
  }

  lemma DebtUpdate(q: Core, i: nat, msg: Message)
    requires DebtLaw(q) && i < |q.urbs|
    ensures DebtLaw(UrbUpdate(q, i, msg).q)
  {
    var u := q.urbs[i];
    if u.state == InitPending {
    } else if msg.cmd == CMD_CONTROL_TRANSFER_STATUS {
      DebtStatus(q, i, msg.status);
      DebtCheckStatus(q.(urbs := q.urbs[i := u.(receivedStatus := msg.status)],
                         log := q.log + [StatusReceived(u.id, msg.status)]), i);
    } else if u.state == ControlWaitingForSetupRequest && msg.cmd == CMD_TRANSFER_REQUEST {
      if q.dma.sqOut.available > 0 {
        DebtSendSetup(q, i, u.(state := ControlWaitingForSetupCompletion));
      }
    } else if u.state == WaitingForTransferRequest || u.state == WaitingForCompletion {
      DebtDataUpdate(q, i, msg);
      DebtCheckStatus(DataUpdate(q, i, msg).q, i);
    }
  }

  lemma DebtTransferCompletion(q: Core, i: nat, c: Completion)
    requires DebtLaw(q) && i < |q.urbs|
    requires SetupOut(q.urbs[i]) && QuietSetups(q.log) ==> Stage(WaitingForCompletion, q.dma)
    ensures DebtLaw(UrbTransferCompletion(q, i, c).q)
  {
    var u := q.urbs[i];
    if u.state == ControlWaitingForSetupCompletion {
      if u.dirIn {
        DebtTransferIn(q, i);
      } else {
        DebtSet(q, i, DataStart(q, i).q.urbs[i]);
      }
      var s := DataStart(q, i);
      if s.status != 0 {
        DebtComplete(s.q, i, s.status);
      } else {
        DebtCheckStatus(s.q, i);
      }
    } else if u.state == WaitingForCompletion {
      DebtSet(q, i, DataTransferCompletion(q, i, c).q.urbs[i]);
      DebtCheckStatus(DataTransferCompletion(q, i, c).q, i);
    } else if u.state == WaitingForTransferRequest {
      DebtCheckStatus(q, i);
    }
  }

  lemma {:induction false} DebtInitPending(q: Core, i: nat)
    requires DebtLaw(q)
    ensures DebtLaw(InitPendingFrom(q, i))
    decreases |q.urbs| - i
  {
    if i < |q.urbs| && CanInit(q) {
      if q.urbs[i].state == InitPending {
        DebtInit(q, i);
        DebtInitPending(UrbInit(q, i).q, i + 1);
      } else {
        DebtInitPending(q, i + 1);
      }
    }
  }

  lemma {:induction false} DebtDeliverLoop(q: Core)
    requires DebtLaw(q)
    ensures DebtLaw(DeliverLoop(q))
    decreases |q.evq|
  {
    if q.urbs != [] && q.evq != [] {
      DebtUpdate(q, 0, q.evq[0]);
      var s := UrbUpdate(q, 0, q.evq[0]);
      if s.status != EAGAIN {
        DebtDeliverLoop(s.q.(evq := q.evq[1..]));
      }
    }
  }

  lemma DebtDeliver(q: Core)
    requires DebtLaw(q)
    ensures DebtLaw(DeliverPending(q))
  {
    DebtDeliverLoop(q);
    DebtInitPending(DeliverLoop(q), 0);
  }

  lemma DebtEvent(q: Core, internal: bool, msg: Message, memory: bool)
    requires DebtLaw(q)
    ensures DebtLaw(Event(q, internal, msg, memory))
  {
    if q.flags.active {
      var d := DeliverPending(q);
      DebtDeliver(q);
      if d.urbs != [] {
        DebtUpdate(d, 0, msg);
        DebtInitPending(UrbUpdate(d, 0, msg).q, 0);
      }
    }
  }

  lemma DebtGhost(q: Core, out: bool, ghosts: Counters)
    requires DebtLaw(q) && Owed(q.dma, out) != []
    requires ghosts.remaining == q.counters.remaining + 1 && Ghosts(ghosts) == Ghosts(q.counters) - 1
    ensures forall charge :: DebtLaw(Notify(q, out, charge).(counters := ghosts))
  {
    forall charge
      ensures DebtLaw(Notify(q, out, charge).(counters := ghosts))
    {
      DebtNotify(q, out, charge);
    }
  }

  lemma DebtCompleteOne(q: Core, out: bool, c: Completion)
    requires DebtLaw(q) && Owed(q.dma, out) != []
    ensures DebtLaw(CompleteOne(q, out, c))
  {
    var k := q.counters;
    if c.aborted {
      DebtNotify(q, out, ToNobody);
    } else if !out && k.ghostIn != [] {
      GhostInAsNotify(q);
      DebtGhost(q, out, Freed(k).(ghostIn := k.ghostIn[1..]));
      DebtInitPending(Notify(q, out, ToCancelled(k.ghostIn[0])).(counters := Freed(k).(ghostIn := k.ghostIn[1..])), 0);
    } else if out && k.ghostOut != [] {
      DebtGhost(q, out, Freed(k).(ghostOut := k.ghostOut[1..]));
      DebtInitPending(Notify(q, out, ToCancelled(k.ghostOut[0])).(counters := Freed(k).(ghostOut := k.ghostOut[1..])),
          0);
    } else if q.urbs == [] || q.urbs[0].state == InitPending {
      DebtNotify(q, out, ToNobody);
    } else {
      DebtNotify(q, out, ToLive(q.urbs[0].id, c.dataSize));
      DebtTransferCompletion(Notify(q, out, ToLive(q.urbs[0].id, c.dataSize)), 0, c);
    }
  }

  lemma {:induction false} DebtCompleteLoop(q: Core, out: bool, cs: seq<Completion>)
    requires DebtLaw(q)
    ensures DebtLaw(CompleteLoop(q, out, cs))
    decreases |cs|
  {
    if cs != [] && Owed(q.dma, out) != [] {
      DebtCompleteOne(q, out, cs[0]);
      DebtCompleteLoop(CompleteOne(q, out, cs[0]), out, cs[1..]);
    }
  }

  lemma {:induction false} DebtCancelLoop(q: Core)
    requires DebtLaw(q)
    ensures DebtLaw(CancelLoop(q))
    decreases |q.urbs|
  {
    if q.urbs != [] {
      DebtComplete(q, 0, ECONNRESET);
      DebtCancelLoop(UrbComplete(q, 0, ECONNRESET));
    }
  }

  lemma {:induction false} DebtResumeFrom(q: Core, i: nat)
    requires DebtLaw(q)
    ensures DebtLaw(ResumeFrom(q, i))
    decreases |q.urbs| - i
  {
    if i < |q.urbs| {
      var u := q.urbs[i];
      if u.state == InitPending {
        if CanInit(q) {
          DebtInit(q, i);
          DebtResumeFrom(UrbInit(q, i).q, i + 1);
        }
      } else {
        var q1 := UrbResume(q, i);
        if u.state == WaitingForCompletion {
          DebtTransferIn(q, i);
          var s := DataTransferIn(q, i);
          if s.status != 0 {
            DebtComplete(s.q, i, s.status);
          }
        }
        DebtResumeFrom(q1, if |q1.urbs| < |q.urbs| then i else i + 1);
      }
    }
  }

  lemma DebtAppend(q: Core, u: Vurb)
    requires DebtLaw(q) && u.state == InitPending
    ensures DebtLaw(q.(urbs := q.urbs + [u]))
  {
    TallyConcat(q.urbs, [u], 0);
    TallyOne(u, 0);
  }

  lemma DebtCreate(q: Core, internal: bool, id: nat, dirIn: bool, length: nat, link: int)
    requires DebtLaw(q)
    ensures DebtLaw(UrbCreate(q, internal, id, dirIn, length, link).q)
  {
    if link == 0 {
      var u := FreshUrb(id, dirIn, length);
      var q1 := q.(urbs := q.urbs + [u]);
      DebtAppend(q, u);
      if q.flags.active && CanInit(q) {
        DebtInit(q1, |q.urbs|);
      }
      DebtDeliver(FirstInit(q1, internal, |q.urbs|).q);
    }
  }

  lemma DebtCancel(q: Core, i: nat)
    requires DebtLaw(q) && i < |q.urbs|
    ensures DebtLaw(CancelUrb(q, i))
  {
    TallyRemove(q.urbs, i, 0);
    assert forall k :: 0 <= k < |q.urbs| - 1 ==> Without(q.urbs, i)[k] == q.urbs[if k < i then k else k + 1];
  }

  lemma DebtHarvested(q: Core, out: bool, cs: seq<Completion>)
    requires DebtLaw(q)
    ensures DebtLaw(CompletionHandler(q, out, cs))
  {
    DebtCompleteLoop(q, out, cs);
    DebtDeliver(CompleteLoop(q, out, cs));
  }

  lemma DebtResume(q: Core)
    requires DebtLaw(q)
    ensures DebtLaw(ResumeActivate(q))
  {
    var q1 := q.(flags := q.flags.(active := true));
    DebtResumeFrom(q1, 0);
    DebtDeliver(ResumeFrom(q1, 0));
  }

  lemma DebtCancelled(q: Core, i: nat, status: int)
    requires DebtLaw(q) && i < |q.urbs|
    ensures DebtLaw(Withdraw(CancelUrb(q, i), q.urbs[i], status))
  {
    DebtCancel(q, i);
    AppendNote(q.log, Withdrawn(q.urbs[i], status));
  }

  lemma DebtStep(q: Queue, a: Action)
    requires SlotLaw(q) && DebtLaw(q.core) && Enabled(q, a) && FlushesSafely(q, a)
    ensures DebtLaw(Apply(q, a).core)
  {
    SlotStep(q, a);
    if Quiet(a) {
      QuietStep(q, a);
    } else {
      match a
      case Submit(id, dirIn, length, link, granted) =>
        DebtCreate(Granted(q.core, granted), InternalWq in q.pausedBy, id, dirIn, length, link);
      case Deliver(msg, memory, granted) =>
        DebtEvent(Granted(q.core, granted), InternalWq in q.pausedBy, msg, memory);
      case Harvested(out, cs, granted) => DebtHarvested(Granted(q.core, granted), out, cs);
      case Cancel(id, status) =>
        CancelCore(q, id, status);
        var i := IndexOf(q.core.urbs, id);
        if i < |q.core.urbs| {
          DebtCancelled(q.core, i, status);
        }
      case CancelEverything => DebtCancelLoop(q.core.(flags := q.core.flags.(active := false)));
      case ResumeGo(granted) => DebtResume(Granted(q.core, granted));
      case _ =>
    }
  }

  /** The URB the next completion is charged to, if its setup is out, is the one the completion belongs to. */
  lemma ChargeIsOwn(q: Core, out: bool)
    requires DebtLaw(q) && QuietSetups(q.log) && Owed(q.dma, out) != [] && q.urbs != [] && SetupOut(q.urbs[0])
    ensures Owed(q.dma, out)[0].owner == q.urbs[0].id
  {
  }
}
