/** Endpoint 0: an URB whose setup packet is not out has nothing on the wire. */
module TransferSilent {
  import opened TransferModel
  import opened TransferRuns
  import opened TransferAccounting
  import opened TransferTheorems
  import opened TransferDebt

  /** The T2 owes nothing to this URB. */
  predicate Nothing(d: Dma, id: nat) {
    && (forall k :: 0 <= k < |d.sqIn.owed| ==> d.sqIn.owed[k].owner != id)
    && (forall k :: 0 <= k < |d.sqOut.owed| ==> d.sqOut.owed[k].owner != id)
  }

  /** `seen` says whether the URB was ever enqueued. */
  predicate Silent(q: Core, id: nat, seen: bool) {
    && q.cfg.control
    && Listed(q.urbs, id) <= (if seen then 1 else 0)
    && (!seen ==> Nothing(q.dma, id))
    && (forall i :: 0 <= i < |q.urbs| && q.urbs[i].id == id && !SetupOut(q.urbs[i]) ==> Nothing(q.dma, id))
  }

  lemma OnceListed(urbs: seq<Vurb>, id: nat, i: nat, j: nat)
    requires i < j < |urbs| && urbs[i].id == urbs[j].id == id
    ensures Listed(urbs, id) >= 2
  {
    TallyAt(urbs, i, id);
    TallyAt(urbs[i + 1..], j - i - 1, id);
  }

  lemma SilentSet(q: Core, i: nat, u: Vurb, id: nat, seen: bool)
    requires Silent(q, id, seen) && i < |q.urbs| && u.id == q.urbs[i].id && (SetupOut(q.urbs[i]) ==> SetupOut(u))
    ensures Silent(SetUrb(q, i, u), id, seen)
  {
    TallyUpdate(q.urbs, i, u, id);
  }

  /** The URB at i sends; its setup packet is out then. */
  lemma SilentSend(q: Core, i: nat, u: Vurb, d: Dma, log: seq<Note>, id: nat, seen: bool)
    requires Silent(q, id, seen) && i < |q.urbs| && u.id == q.urbs[i].id && SetupOut(u)
    requires q.urbs[i].id != id && Nothing(q.dma, id) ==> Nothing(d, id)
    ensures Silent(q.(urbs := q.urbs[i := u], dma := d, log := log), id, seen)
  {
    TallyUpdate(q.urbs, i, u, id);
    TallyAt(q.urbs, i, id);
    forall j | 0 <= j < |q.urbs| && j != i && q.urbs[j].id == id
      ensures q.urbs[i].id != id
    {
      if q.urbs[i].id == id {
        OnceListed(q.urbs, id, if i < j then i else j, if i < j then j else i);
      }
    }
  }

  lemma SilentWithout(q: Core, i: nat, id: nat, seen: bool)
    requires Silent(q, id, seen) && i < |q.urbs|
    ensures Silent(q.(urbs := Without(q.urbs, i)), id, seen)
  {
    TallyRemove(q.urbs, i, id);
    assert forall k :: 0 <= k < |q.urbs| - 1 ==> Without(q.urbs, i)[k] == q.urbs[if k < i then k else k + 1];
  }

  lemma SilentComplete(q: Core, i: nat, status: int, id: nat, seen: bool)
    requires Silent(q, id, seen) && i < |q.urbs|
    ensures Silent(UrbComplete(q, i, status), id, seen)
  {
    SilentWithout(q, i, id, seen);
  }

  lemma SilentTransferIn(q: Core, i: nat, id: nat, seen: bool)
    requires Silent(q, id, seen) && i < |q.urbs|
    ensures var s := DataTransferIn(q, i); Silent(s.q, id, seen)
  {
    var s := DataTransferIn(q, i);
    if s.status == 0 {
      SilentSend(q, i, s.q.urbs[i], s.q.dma, s.q.log, id, seen);
    }
  }

  lemma SilentSendOut(q: Core, i: nat, sub: Submission, wanted: nat, u: Vurb, id: nat, seen: bool)
    requires Silent(q, id, seen) && i < |q.urbs| && u.id == q.urbs[i].id == sub.owner && SetupOut(u)
    ensures var s := SendOut(q, sub, wanted); if s.status == 0 then Silent(SetUrb(s.q, i, u), id, seen) else s.q == q
  {
    var s := SendOut(q, sub, wanted);
    if s.status == 0 {
      SilentSend(q, i, u, s.q.dma, s.q.log, id, seen);
    }
  }

  lemma SilentCheckStatus(q: Core, i: nat, id: nat, seen: bool)
    requires Silent(q, id, seen) && i < |q.urbs|
    ensures Silent(ControlCheckStatus(q, i).q, id, seen)
  {
    var u := q.urbs[i];
    if ControlCheckStatus(q, i).status == ENOENT {
      SilentSet(q, i, u.(state := ControlComplete), id, seen);
      SilentComplete(SetState(q, i, ControlComplete), i, if u.receivedStatus != STATUS_SUCCESS then EPIPE else 0, id,
          seen);
    }
  }

  lemma SilentUpdate(q: Core, i: nat, msg: Message, id: nat, seen: bool)
    requires Silent(q, id, seen) && i < |q.urbs|
    ensures Silent(UrbUpdate(q, i, msg).q, id, seen)
  {
    var u := q.urbs[i];
    if u.state == InitPending {
    } else if msg.cmd == CMD_CONTROL_TRANSFER_STATUS {
      SilentSet(q, i, u.(receivedStatus := msg.status), id, seen);
      SilentCheckStatus(q.(urbs := q.urbs[i := u.(receivedStatus := msg.status)],
                           log := q.log + [StatusReceived(u.id, msg.status)]), i, id, seen);
    } else if u.state == ControlWaitingForSetupRequest && msg.cmd == CMD_TRANSFER_REQUEST {
      SilentSendOut(q, i, Submission(u.id, true, SETUP_PACKET_SIZE), SETUP_PACKET_SIZE,
                    u.(state := ControlWaitingForSetupCompletion), id, seen);
    } else if u.state == WaitingForTransferRequest || u.state == WaitingForCompletion {
      SilentDataUpdate(q, i, msg, id, seen);
      SilentCheckStatus(DataUpdate(q, i, msg).q, i, id, seen);
    }
  }

  lemma SilentDataUpdate(q: Core, i: nat, msg: Message, id: nat, seen: bool)
    requires Silent(q, id, seen) && i < |q.urbs|
    ensures var s := DataUpdate(q, i, msg); Silent(s.q, id, seen) && |s.q.urbs| == |q.urbs|
  {
    var u := q.urbs[i];
    var wanted := (u.length - u.sendOffset) % U32_RANGE;
    var len := Min(wanted, msg.param2 % U32_RANGE);
    var u1 := u.(sendOffset := (u.sendOffset + len) % U32_RANGE, state := WaitingForCompletion);
    SilentSendOut(q, i, Submission(u.id, false, len), wanted, u1, id, seen);
  }

  lemma SilentTransferCompletion(q: Core, i: nat, c: Completion, id: nat, seen: bool)
    requires Silent(q, id, seen) && i < |q.urbs|
    ensures Silent(UrbTransferCompletion(q, i, c).q, id, seen)
  {
    var u := q.urbs[i];
    if u.state == ControlWaitingForSetupCompletion {
      if u.dirIn {
        SilentTransferIn(q, i, id, seen);
      } else {
        SilentSet(q, i, DataStart(q, i).q.urbs[i], id, seen);
      }
      var s := DataStart(q, i);
      if s.status != 0 {
        SilentComplete(s.q, i, s.status, id, seen);
      } else {
        SilentCheckStatus(s.q, i, id, seen);
      }
    } else if u.state == WaitingForCompletion {
      SilentSet(q, i, DataTransferCompletion(q, i, c).q.urbs[i], id, seen);
      SilentCheckStatus(DataTransferCompletion(q, i, c).q, i, id, seen);
    } else if u.state == WaitingForTransferRequest {
      SilentCheckStatus(q, i, id, seen);
    }
  }

  lemma SilentInit(q: Core, i: nat, id: nat, seen: bool)
    requires Silent(q, id, seen) && i < |q.urbs| && !Holds(q.urbs[i])
    ensures Silent(UrbInit(q, i).q, id, seen) && |UrbInit(q, i).q.urbs| == |q.urbs|
  {
    SilentSet(q, i, q.urbs[i].(state := ControlWaitingForSetupRequest), id, seen);
  }

  lemma {:induction false} SilentInitPending(q: Core, i: nat, id: nat, seen: bool)
    requires Silent(q, id, seen)
    ensures Silent(InitPendingFrom(q, i), id, seen)
    decreases |q.urbs| - i
  {
    if i < |q.urbs| && CanInit(q) {
      if q.urbs[i].state == InitPending {
        SilentInit(q, i, id, seen);
        SilentInitPending(UrbInit(q, i).q, i + 1, id, seen);
      } else {
        SilentInitPending(q, i + 1, id, seen);
      }
    }
  }

  lemma {:induction false} SilentDeliverLoop(q: Core, id: nat, seen: bool)
    requires Silent(q, id, seen)
    ensures Silent(DeliverLoop(q), id, seen)
    decreases |q.evq|
  {
    if q.urbs != [] && q.evq != [] {
      SilentUpdate(q, 0, q.evq[0], id, seen);
      var s := UrbUpdate(q, 0, q.evq[0]);
      if s.status != EAGAIN {
        SilentDeliverLoop(s.q.(evq := q.evq[1..]), id, seen);
      }
    }
  }

  lemma SilentDeliver(q: Core, id: nat, seen: bool)
    requires Silent(q, id, seen)
    ensures Silent(DeliverPending(q), id, seen)
  {
    SilentDeliverLoop(q, id, seen);
    SilentInitPending(DeliverLoop(q), 0, id, seen);
  }

  lemma SilentEvent(q: Core, internal: bool, msg: Message, memory: bool, id: nat, seen: bool)
    requires Silent(q, id, seen)
    ensures Silent(Event(q, internal, msg, memory), id, seen)
  {
    if q.flags.active {
      var d := DeliverPending(q);
      SilentDeliver(q, id, seen);
      if d.urbs != [] {
        SilentUpdate(d, 0, msg, id, seen);
        SilentInitPending(UrbUpdate(d, 0, msg).q, 0, id, seen);
      }
    }
  }

  lemma SilentNotify(q: Core, out: bool, charge: Charge, id: nat, seen: bool)
    requires Silent(q, id, seen) && Owed(q.dma, out) != []
    ensures Silent(Notify(q, out, charge), id, seen)
  {
    assert Nothing(q.dma, id) ==> Nothing(Notify(q, out, charge).dma, id);
  }

  lemma SilentCompleteOne(q: Core, out: bool, c: Completion, id: nat, seen: bool)
    requires Silent(q, id, seen) && Owed(q.dma, out) != []
    ensures Silent(CompleteOne(q, out, c), id, seen)
  {
    var k := q.counters;
    if c.aborted {
      SilentNotify(q, out, ToNobody, id, seen);
    } else if !out && k.ghostIn != [] {
      GhostInAsNotify(q);
      SilentNotify(q, out, ToCancelled(k.ghostIn[0]), id, seen);
      var n := Notify(q, out, ToCancelled(k.ghostIn[0])).(counters := Freed(k).(ghostIn := k.ghostIn[1..]));
      SilentInitPending(n, 0, id, seen);
    } else if out && k.ghostOut != [] {
      SilentNotify(q, out, ToCancelled(k.ghostOut[0]), id, seen);
      var n := Notify(q, out, ToCancelled(k.ghostOut[0])).(counters := Freed(k).(ghostOut := k.ghostOut[1..]));
      SilentInitPending(n, 0, id, seen);
    } else if q.urbs == [] || q.urbs[0].state == InitPending {
      SilentNotify(q, out, ToNobody, id, seen);
    } else {
      SilentNotify(q, out, ToLive(q.urbs[0].id, c.dataSize), id, seen);
      SilentTransferCompletion(Notify(q, out, ToLive(q.urbs[0].id, c.dataSize)), 0, c, id, seen);
    }
  }

  lemma {:induction false} SilentCompleteLoop(q: Core, out: bool, cs: seq<Completion>, id: nat, seen: bool)
    requires Silent(q, id, seen)
    ensures Silent(CompleteLoop(q, out, cs), id, seen)
    decreases |cs|
  {
    if cs != [] && Owed(q.dma, out) != [] {
      SilentCompleteOne(q, out, cs[0], id, seen);
      SilentCompleteLoop(CompleteOne(q, out, cs[0]), out, cs[1..], id, seen);
    }
  }

  lemma {:induction false} SilentCancelLoop(q: Core, id: nat, seen: bool)
    requires Silent(q, id, seen)
    ensures Silent(CancelLoop(q), id, seen)
    decreases |q.urbs|
  {
    if q.urbs != [] {
      SilentComplete(q, 0, ECONNRESET, id, seen);
      SilentCancelLoop(UrbComplete(q, 0, ECONNRESET), id, seen);
    }
  }

  lemma {:induction false} SilentResumeFrom(q: Core, i: nat, id: nat, seen: bool)
    requires Silent(q, id, seen)
    ensures Silent(ResumeFrom(q, i), id, seen)
    decreases |q.urbs| - i
  {
    if i < |q.urbs| {
      if q.urbs[i].state == InitPending {
        if CanInit(q) {
          SilentInit(q, i, id, seen);
          SilentResumeFrom(UrbInit(q, i).q, i + 1, id, seen);
        }
      } else {
        var q1 := UrbResume(q, i);
        if q.urbs[i].state == WaitingForCompletion {
          SilentTransferIn(q, i, id, seen);
          var s := DataTransferIn(q, i);
          if s.status != 0 {
            SilentComplete(s.q, i, s.status, id, seen);
          }
        }
        SilentResumeFrom(q1, if |q1.urbs| < |q.urbs| then i else i + 1, id, seen);
      }
    }
  }

  lemma SilentCreate(q: Core, internal: bool, added: nat, dirIn: bool, length: nat, link: int, id: nat, seen: bool)
    requires Silent(q, id, seen) && (added == id ==> !seen)
    ensures var s := UrbCreate(q, internal, added, dirIn, length, link);
      Silent(s.q, id, seen || (added == id && s.status == 0))
  {
    if link == 0 {
      var u := FreshUrb(added, dirIn, length);
      var q1 := q.(urbs := q.urbs + [u]);
      TallyConcat(q.urbs, [u], id);
      TallyOne(u, id);
      var now := seen || added == id;
      assert Silent(q1, id, now);
      if q.flags.active && CanInit(q) {
        SilentInit(q1, |q.urbs|, id, now);
      }
      SilentDeliver(FirstInit(q1, internal, |q.urbs|).q, id, now);
    }
  }

  lemma SeenLater(q: Core, id: nat, seen: bool, now: bool)
    requires Silent(q, id, seen) && (seen ==> now)
    ensures Silent(q, id, now)
  {
  }

  lemma SilentStep(q: Queue, a: Action, id: nat)
    requires Silent(q.core, id, Places(q, id) >= 1) && Enabled(q, a)
    ensures Silent(Apply(q, a).core, id, Places(Apply(q, a), id) >= 1)
  {
    var seen := Places(q, id) >= 1;
    PlacesStep(q, a, id);
    SilentCoreStep(q, a, id, seen);
    SeenLater(Apply(q, a).core, id, seen || Enqueues(q, a, id), Places(Apply(q, a), id) >= 1);
  }

  lemma SilentHarvested(q: Core, out: bool, cs: seq<Completion>, id: nat, seen: bool)
    requires Silent(q, id, seen)
    ensures Silent(CompletionHandler(q, out, cs), id, seen)
  {
    SilentCompleteLoop(q, out, cs, id, seen);
    SilentDeliver(CompleteLoop(q, out, cs), id, seen);
  }

  lemma SilentResume(q: Core, id: nat, seen: bool)
    requires Silent(q, id, seen)
    ensures Silent(ResumeActivate(q), id, seen)
  {
    var q1 := q.(flags := q.flags.(active := true));
    SilentResumeFrom(q1, 0, id, seen);
    SilentDeliver(ResumeFrom(q1, 0), id, seen);
  }

  lemma SilentCoreStep(q: Queue, a: Action, id: nat, seen: bool)
    requires Silent(q.core, id, seen) && Enabled(q, a) && seen == (Places(q, id) >= 1)
    ensures Silent(Apply(q, a).core, id, seen || Enqueues(q, a, id))
  {
    if Quiet(a) {
      QuietStep(q, a);
    } else {
      match a
      case Submit(added, dirIn, length, link, granted) =>
        SilentCreate(Granted(q.core, granted), InternalWq in q.pausedBy, added, dirIn, length, link, id, seen);
      case Deliver(msg, memory, granted) =>
        SilentEvent(Granted(q.core, granted), InternalWq in q.pausedBy, msg, memory, id, seen);
      case Harvested(out, cs, granted) =>
        SilentHarvested(Granted(q.core, granted), out, cs, id, seen);
      case Cancel(cid, status) =>
        CancelCore(q, cid, status);
        var i := IndexOf(q.core.urbs, cid);
        if i < |q.core.urbs| {
          SilentWithout(q.core, i, id, seen);
        }
      case CancelEverything => SilentCancelLoop(q.core.(flags := q.core.flags.(active := false)), id, seen);
      case ResumeGo(granted) =>
        SilentResume(Granted(q.core, granted), id, seen);
      case _ =>
    }
  }

  lemma {:induction false} SilentRun(q: Queue, acts: seq<Action>, id: nat)
    requires Silent(q.core, id, Places(q, id) >= 1) && Legal(q, acts)
    ensures Silent(Run(q, acts).core, id, Places(Run(q, acts), id) >= 1)
    decreases |acts|
  {
    if acts != [] {
      SilentStep(q, acts[0], id);
      SilentRun(Apply(q, acts[0]), acts[1..], id);
    }
  }

  // ---------------------------------------------------------------- the step that sends the setup packet

  /** Whichever ring answers next, the answer belongs to the URB at the head of the list. */
  predicate NextIsOwn(q: Core)
    requires q.urbs != []
  {
    && (q.dma.sqIn.owed != [] ==> q.dma.sqIn.owed[0].owner == q.urbs[0].id)
    && (q.dma.sqOut.owed != [] ==> q.dma.sqOut.owed[0].owner == q.urbs[0].id)
  }

  /** And the head is what it is charged to. */
  lemma NextIsCharged(q: Core, out: bool, c: Completion)
    requires q.cfg.control && Ghosts(q.counters) == 0 && q.urbs != [] && Holds(q.urbs[0])
    requires Owed(q.dma, out) != [] && !c.aborted
    ensures q.log + [Answered(Owed(q.dma, out)[0], ToLive(q.urbs[0].id, c.dataSize))] <= CompleteOne(q, out, c).log
  {
    KeptUrbTransferCompletion(Notify(q, out, ToLive(q.urbs[0].id, c.dataSize)), 0, c, 0);
  }

  /** In every reachable state in which a request makes the head send its setup packet: the next answer is the head's
      own if and only if nothing was owed on either ring. */
  lemma SetupIsOwnIff(cfg: Config, acts: seq<Action>, q: Core, msg: Message)
    requires cfg.control && Legal(NewQueue(cfg), acts) && q == Run(NewQueue(cfg), acts).core
    requires q.urbs != [] && q.urbs[0].state == ControlWaitingForSetupRequest && q.dma.sqOut.available > 0
    requires msg.cmd == CMD_TRANSFER_REQUEST
    ensures var r := UrbUpdate(q, 0, msg).q;
      && r.urbs != [] && r.urbs[0].state == ControlWaitingForSetupCompletion
      && (NextIsOwn(r) <==> q.dma.sqIn.owed == [] && q.dma.sqOut.owed == [])
  {
    var id := q.urbs[0].id;
    SilentRun(NewQueue(cfg), acts, id);
    assert Nothing(q.dma, id);
  }
}
