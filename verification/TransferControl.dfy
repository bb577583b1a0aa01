/** Control transfers: the setup, data and status stages of section 8.5.3 of the USB 2.0 specification. */
module TransferControl {
  import opened TransferModel
  import opened TransferRuns
  import opened TransferAccounting
  import opened TransferTheorems
  import opened TransferDebt

  // ---------------------------------------------------------------- how far a transfer got

  /** The submission a completion answers is the URB's own: its setup packet first, its data afterwards. */
  predicate IsOwn(sub: Submission, id: nat, p: nat) { sub.owner == id && (sub.setup <==> p == 1) }

  /** A completion that counts for an URB in phase p. */
  predicate Counts(sub: Submission, charge: Charge, id: nat, p: nat, own: bool) {
    charge.ToLive? && charge.id == id && p > 0 && (own ==> IsOwn(sub, id, p))
  }

  /** 0: nothing sent; 1: the setup packet was sent; 2: a completion was charged to the URB after that;
      one more for every further completion charged to it. With `own`, only completions of the URB's own
      submissions are counted. */
  function Phase(log: seq<Note>, id: nat, own: bool): nat {
    if log == [] then 0
    else
      var p := Phase(log[..|log| - 1], id, own);
      match log[|log| - 1]
      case Sent(sub, _) => if sub.setup && sub.owner == id && p == 0 then 1 else p
      case Answered(sub, charge) => if Counts(sub, charge, id, p, own) then p + 1 else p
      case _ => p
  }

  lemma {:induction false} PhaseAppend(log: seq<Note>, n: Note, id: nat, own: bool)
    ensures Phase(log + [n], id, own) ==
            var p := Phase(log, id, own);
            match n
            case Sent(sub, _) => if sub.setup && sub.owner == id && p == 0 then 1 else p
            case Answered(sub, charge) => if Counts(sub, charge, id, p, own) then p + 1
                else p
            case _ => p
  {
    assert (log + [n])[..|log|] == log;
  }

  /** What a phase stands for: that many notes in this order, the first the setup packet being sent, the k-th after
      it a completion charged to the URB (and, with `own`, answering the submission it should answer). */
  lemma {:induction false} Milestones(log: seq<Note>, id: nat, own: bool) returns (at: seq<nat>)
    ensures |at| == Phase(log, id, own)
    ensures forall k :: 0 <= k < |at| ==> at[k] < |log|
    ensures forall k, l :: 0 <= k < l < |at| ==> at[k] < at[l]
    ensures at != [] ==> log[at[0]].Sent? && log[at[0]].sub.setup && log[at[0]].sub.owner == id
    ensures forall k :: 1 <= k < |at| ==>
              && log[at[k]].Answered? && log[at[k]].charge.ToLive? && log[at[k]].charge.id == id
              && (own ==> IsOwn(log[at[k]].sub, id, k))
  {
    if log == [] {
      return [];
    }
    var n := |log| - 1;
    at := Milestones(log[..n], id, own);
    if Phase(log, id, own) > |at| {
      at := at + [n];
    }
  }

  lemma {:induction false} PhaseGrows(a: seq<Note>, b: seq<Note>, id: nat, own: bool)
    requires a <= b
    ensures Phase(a, id, own) <= Phase(b, id, own)
  {
    if |a| == |b| {
      assert a == b;
    } else {
      var b' := b[..|b| - 1];
      PhaseGrows(a, b', id, own);
      PhaseAppend(b', b[|b| - 1], id, own);
      assert b == b' + [b[|b| - 1]];
    }
  }

  /** Setup sent and answered, and the data stage answered if there is one. */
  function FullPhase(u: Vurb): nat { if u.dirIn || u.length > 0 then 3 else 2 }

  function EarnedPhase(u: Vurb): nat {
    match u.state
    case ControlWaitingForSetupCompletion => 1
    case WaitingForTransferRequest => 2
    case WaitingForCompletion => 2
    case DataTransferComplete => FullPhase(u)
    case _ => 0
  }

  predicate Told(log: seq<Note>, id: nat, code: nat) { StatusReceived(id, code) in log }

  /** The state of an URB never runs ahead of what happened on the wire. */
  predicate Earned(u: Vurb, log: seq<Note>, own: bool) {
    && Phase(log, u.id, own) >= EarnedPhase(u)
    && (u.receivedStatus != 0 ==> Told(log, u.id, u.receivedStatus))
  }

  /** The n-th note does not report success too early. */
  predicate JustifiedAt(log: seq<Note>, n: nat, own: bool)
    requires n < |log|
  {
    log[n].Finished? && log[n].status == 0 ==>
      && Phase(log[..n], log[n].urb.id, own) >= FullPhase(log[n].urb)
      && Told(log[..n], log[n].urb.id, STATUS_SUCCESS)
  }

  predicate Justified(log: seq<Note>, own: bool) { forall n :: 0 <= n < |log| ==> JustifiedAt(log, n, own) }

  predicate TraceLaw(q: Core, own: bool) {
    && q.cfg.control
    && (forall u :: u in q.urbs ==> Earned(u, q.log, own))
    && Justified(q.log, own)
  }

  lemma EarnedGrows(u: Vurb, a: seq<Note>, b: seq<Note>, own: bool)
    requires a <= b && Earned(u, a, own)
    ensures Earned(u, b, own)
  {
    PhaseGrows(a, b, u.id, own);
    assert a == b[..|a|];
  }

  lemma JustifiedAppend(log: seq<Note>, n: Note, own: bool)
    requires Justified(log, own)
    requires n.Finished? && n.status == 0 ==>
               Phase(log, n.urb.id, own) >= FullPhase(n.urb) && Told(log, n.urb.id, STATUS_SUCCESS)
    ensures Justified(log + [n], own)
  {
    var l := log + [n];
    forall k | 0 <= k < |l|
      ensures JustifiedAt(l, k, own)
    {
      if k < |log| {
        assert JustifiedAt(log, k, own);
        assert l[..k] == log[..k];
      } else {
        assert l[..k] == log;
      }
    }
  }

  /** To carry the law over a step it is enough to look at the URBs that are new or changed. */
  lemma TraceFrom(q: Core, r: Core, own: bool)
    requires TraceLaw(q, own) && r.cfg == q.cfg && q.log <= r.log && Justified(r.log, own)
    requires forall u :: u in r.urbs ==> u in q.urbs || Earned(u, r.log, own)
    ensures TraceLaw(r, own)
  {
    forall u | u in r.urbs
      ensures Earned(u, r.log, own)
    {
      if u in q.urbs {
        EarnedGrows(u, q.log, r.log, own);
      }
    }
  }

  // ---------------------------------------------------------------- the law, function by function

  lemma TraceComplete(q: Core, i: nat, status: int, own: bool)
    requires TraceLaw(q, own) && i < |q.urbs|
    requires status == 0 ==>
               Phase(q.log, q.urbs[i].id, own) >= FullPhase(q.urbs[i]) && Told(q.log, q.urbs[i].id, STATUS_SUCCESS)
    ensures TraceLaw(UrbComplete(q, i, status), own)
  {
    JustifiedAppend(q.log, Finished(q.urbs[i], status), own);
    TraceFrom(q, UrbComplete(q, i, status), own);
  }

  lemma TraceSet(q: Core, i: nat, u: Vurb, own: bool)
    requires TraceLaw(q, own) && i < |q.urbs| && Earned(u, q.log, own)
    ensures TraceLaw(SetUrb(q, i, u), own)
  {
    TraceFrom(q, SetUrb(q, i, u), own);
  }

  lemma TraceDataTransferIn(q: Core, i: nat, own: bool)
    requires TraceLaw(q, own) && i < |q.urbs| && Phase(q.log, q.urbs[i].id, own) >= 2
    ensures var s := DataTransferIn(q, i); TraceLaw(s.q, own) && (s.status != 0 ==> s.q.urbs == q.urbs)
  {
    var s := DataTransferIn(q, i);
    if s.status == 0 {
      JustifiedAppend(q.log, s.q.log[|q.log|], own);
      EarnedGrows(q.urbs[i], q.log, s.q.log, own);
      PhaseGrows(q.log, s.q.log, q.urbs[i].id, own);
      TraceFrom(q, s.q, own);
    }
  }

  lemma TraceCheckStatus(q: Core, i: nat, own: bool)
    requires TraceLaw(q, own) && i < |q.urbs|
    ensures TraceLaw(ControlCheckStatus(q, i).q, own)
  {
    var u := q.urbs[i];
    assert Earned(u, q.log, own);
    if ControlCheckStatus(q, i).status == ENOENT {
      var q1 := SetState(q, i, ControlComplete);
      TraceSet(q, i, u.(state := ControlComplete), own);
      TraceComplete(q1, i, if u.receivedStatus != STATUS_SUCCESS then EPIPE else 0, own);
    }
  }

  lemma TraceSendOut(q: Core, sub: Submission, wanted: nat, own: bool)
    requires TraceLaw(q, own)
    ensures var s := SendOut(q, sub, wanted);
      && TraceLaw(s.q, own) && (s.status == 0 ==> s.q.log == q.log + [Sent(sub, wanted)])
  {
    var s := SendOut(q, sub, wanted);
    if s.status == 0 {
      JustifiedAppend(q.log, Sent(sub, wanted), own);
      TraceFrom(q, s.q, own);
    }
  }

  lemma TraceDataUpdate(q: Core, i: nat, msg: Message, own: bool)
    requires TraceLaw(q, own) && i < |q.urbs|
    ensures TraceLaw(DataUpdate(q, i, msg).q, own) && |DataUpdate(q, i, msg).q.urbs| == |q.urbs|
  {
    var u := q.urbs[i];
    assert Earned(u, q.log, own);
    if u.state == WaitingForTransferRequest && msg.cmd == CMD_TRANSFER_REQUEST {
      var wanted := (u.length - u.sendOffset) % U32_RANGE;
      var len := Min(wanted, msg.param2 % U32_RANGE);
      var sub := Submission(u.id, false, len);
      TraceSendOut(q, sub, wanted, own);
      var s := SendOut(q, sub, wanted);
      if s.status == 0 {
        EarnedGrows(u, q.log, s.q.log, own);
        TraceSet(s.q, i, DataUpdate(q, i, msg).q.urbs[i], own);
      }
    }
  }

  lemma TraceStatus(q: Core, i: nat, code: nat, own: bool)
    requires TraceLaw(q, own) && i < |q.urbs|
    ensures TraceLaw(q.(urbs := q.urbs[i := q.urbs[i].(receivedStatus := code)],
                        log := q.log + [StatusReceived(q.urbs[i].id, code)]), own)
  {
    var u := q.urbs[i];
    var n := StatusReceived(u.id, code);
    var r := q.(urbs := q.urbs[i := u.(receivedStatus := code)], log := q.log + [n]);
    assert Earned(u, q.log, own);
    JustifiedAppend(q.log, n, own);
    PhaseGrows(q.log, r.log, u.id, own);
    assert r.log[|q.log|] == n;
    TraceFrom(q, r, own);
  }

  lemma TraceUpdate(q: Core, i: nat, msg: Message, own: bool)
    requires TraceLaw(q, own) && i < |q.urbs|
    ensures TraceLaw(UrbUpdate(q, i, msg).q, own)
  {
    var u := q.urbs[i];
    if u.state == InitPending {
    } else if msg.cmd == CMD_CONTROL_TRANSFER_STATUS {
      TraceStatus(q, i, msg.status, own);
      TraceCheckStatus(q.(urbs := q.urbs[i := u.(receivedStatus := msg.status)],
                          log := q.log + [StatusReceived(u.id, msg.status)]), i, own);
    } else if u.state == ControlWaitingForSetupRequest && msg.cmd == CMD_TRANSFER_REQUEST {
      var sub := Submission(u.id, true, SETUP_PACKET_SIZE);
      TraceSendOut(q, sub, SETUP_PACKET_SIZE, own);
      var s := SendOut(q, sub, SETUP_PACKET_SIZE);
      if s.status == 0 {
        assert Earned(u, q.log, own);
        EarnedGrows(u, q.log, s.q.log, own);
        PhaseAppend(q.log, Sent(sub, SETUP_PACKET_SIZE), u.id, own);
        TraceSet(s.q, i, u.(state := ControlWaitingForSetupCompletion), own);
      }
    } else if u.state == WaitingForTransferRequest || u.state == WaitingForCompletion {
      TraceDataUpdate(q, i, msg, own);
      TraceCheckStatus(DataUpdate(q, i, msg).q, i, own);
    }
  }

  /** The completion is already in the log, so the URB is one phase ahead of its state. */
  lemma TraceTransferCompletion(q: Core, i: nat, c: Completion, own: bool)
    requires TraceLaw(q, own) && i < |q.urbs|
    requires EarnedPhase(q.urbs[i]) > 0 ==> Phase(q.log, q.urbs[i].id, own) > EarnedPhase(q.urbs[i])
    ensures TraceLaw(UrbTransferCompletion(q, i, c).q, own)
  {
    var u := q.urbs[i];
    assert Earned(u, q.log, own);
    if u.state == ControlWaitingForSetupCompletion {
      if u.dirIn {
        TraceDataTransferIn(q, i, own);
      } else {
        TraceSet(q, i, DataStart(q, i).q.urbs[i], own);
      }
      var s := DataStart(q, i);
      if s.status != 0 {
        TraceComplete(s.q, i, s.status, own);
      } else {
        TraceCheckStatus(s.q, i, own);
      }
    } else if u.state == WaitingForCompletion {
      var s := DataTransferCompletion(q, i, c);
      TraceSet(q, i, s.q.urbs[i], own);
      TraceCheckStatus(s.q, i, own);
    } else if u.state == WaitingForTransferRequest {
      TraceCheckStatus(q, i, own);
    }
  }

  lemma {:induction false} TraceInitPending(q: Core, i: nat, own: bool)
    requires TraceLaw(q, own)
    ensures TraceLaw(InitPendingFrom(q, i), own)
    decreases |q.urbs| - i
  {
    if i < |q.urbs| && CanInit(q) {
      if q.urbs[i].state == InitPending {
        assert Earned(q.urbs[i], q.log, own);
        TraceSet(q, i, q.urbs[i].(state := ControlWaitingForSetupRequest), own);
        TraceInitPending(UrbInit(q, i).q, i + 1, own);
      } else {
        TraceInitPending(q, i + 1, own);
      }
    }
  }

  lemma {:induction false} TraceDeliverLoop(q: Core, own: bool)
    requires TraceLaw(q, own)
    ensures TraceLaw(DeliverLoop(q), own)
    decreases |q.evq|
  {
    if q.urbs != [] && q.evq != [] {
      TraceUpdate(q, 0, q.evq[0], own);
      var s := UrbUpdate(q, 0, q.evq[0]);
      if s.status != EAGAIN {
        TraceDeliverLoop(s.q.(evq := q.evq[1..]), own);
      }
    }
  }

  lemma TraceDeliver(q: Core, own: bool)
    requires TraceLaw(q, own)
    ensures TraceLaw(DeliverPending(q), own)
  {
    TraceDeliverLoop(q, own);
    TraceInitPending(DeliverLoop(q), 0, own);
  }

  lemma TraceEvent(q: Core, internal: bool, msg: Message, memory: bool, own: bool)
    requires TraceLaw(q, own)
    ensures TraceLaw(Event(q, internal, msg, memory), own)
  {
    if q.flags.active {
      var d := DeliverPending(q);
      TraceDeliver(q, own);
      if d.urbs != [] {
        TraceUpdate(d, 0, msg, own);
        TraceInitPending(UrbUpdate(d, 0, msg).q, 0, own);
      }
    }
  }

  lemma TraceNotify(q: Core, out: bool, charge: Charge, own: bool)
    requires TraceLaw(q, own) && Owed(q.dma, out) != []
    ensures TraceLaw(Notify(q, out, charge), own)
  {
    JustifiedAppend(q.log, Answered(Owed(q.dma, out)[0], charge), own);
    TraceFrom(q, Notify(q, out, charge), own);
  }

  lemma TraceCompleteOne(q: Core, out: bool, c: Completion, own: bool)
    requires TraceLaw(q, own) && Owed(q.dma, out) != []
    requires own ==> DebtLaw(q) && QuietSetups(q.log)
    ensures TraceLaw(CompleteOne(q, out, c), own)
  {
    var k := q.counters;
    if c.aborted {
      TraceNotify(q, out, ToNobody, own);
    } else if !out && k.ghostIn != [] {
      GhostInAsNotify(q);
      TraceNotify(q, out, ToCancelled(k.ghostIn[0]), own);
      TraceInitPending(Notify(q, out, ToCancelled(k.ghostIn[0])).(counters := Freed(k).(ghostIn := k.ghostIn[1..])), 0,
          own);
    } else if out && k.ghostOut != [] {
      TraceNotify(q, out, ToCancelled(k.ghostOut[0]), own);
      TraceInitPending(Notify(q, out, ToCancelled(k.ghostOut[0])).(counters := Freed(k).(ghostOut := k.ghostOut[1..])),
          0, own);
    } else if q.urbs == [] || q.urbs[0].state == InitPending {
      TraceNotify(q, out, ToNobody, own);
    } else {
      var u := q.urbs[0];
      TraceNotify(q, out, ToLive(u.id, c.dataSize), own);
      assert Earned(u, q.log, own);
      PhaseAppend(q.log, Answered(Owed(q.dma, out)[0], ToLive(u.id, c.dataSize)), u.id, own);
      TraceTransferCompletion(Notify(q, out, ToLive(u.id, c.dataSize)), 0, c, own);
    }
  }

  lemma {:induction false} TraceCompleteLoop(q: Core, out: bool, cs: seq<Completion>, own: bool)
    requires TraceLaw(q, own)
    requires own ==> DebtLaw(q) && QuietSetups(CompleteLoop(q, out, cs).log)
    ensures TraceLaw(CompleteLoop(q, out, cs), own)
    decreases |cs|
  {
    if cs != [] && Owed(q.dma, out) != [] {
      if own {
        KeptCompleteLoop(q, out, cs, 0);
        QuietPrefix(q.log, CompleteLoop(q, out, cs).log);
        DebtCompleteOne(q, out, cs[0]);
      }
      TraceCompleteOne(q, out, cs[0], own);
      TraceCompleteLoop(CompleteOne(q, out, cs[0]), out, cs[1..], own);
    }
  }

  lemma {:induction false} TraceCancelLoop(q: Core, own: bool)
    requires TraceLaw(q, own)
    ensures TraceLaw(CancelLoop(q), own)
    decreases |q.urbs|
  {
    if q.urbs != [] {
      TraceComplete(q, 0, ECONNRESET, own);
      TraceCancelLoop(UrbComplete(q, 0, ECONNRESET), own);
    }
  }

  lemma {:induction false} TraceResumeFrom(q: Core, i: nat, own: bool)
    requires TraceLaw(q, own)
    ensures TraceLaw(ResumeFrom(q, i), own)
    decreases |q.urbs| - i
  {
    if i < |q.urbs| {
      var u := q.urbs[i];
      assert Earned(u, q.log, own);
      if u.state == InitPending {
        if CanInit(q) {
          TraceSet(q, i, u.(state := ControlWaitingForSetupRequest), own);
          TraceResumeFrom(UrbInit(q, i).q, i + 1, own);
        }
      } else {
        var q1 := UrbResume(q, i);
        if u.state == WaitingForCompletion {
          TraceDataTransferIn(q, i, own);
          var s := DataTransferIn(q, i);
          if s.status != 0 {
            TraceComplete(s.q, i, s.status, own);
          }
        }
        TraceResumeFrom(q1, if |q1.urbs| < |q.urbs| then i else i + 1, own);
      }
    }
  }

  lemma TraceCreate(q: Core, internal: bool, id: nat, dirIn: bool, length: nat, link: int, own: bool)
    requires TraceLaw(q, own)
    ensures TraceLaw(UrbCreate(q, internal, id, dirIn, length, link).q, own)
  {
    if link == 0 {
      var u := FreshUrb(id, dirIn, length);
      var q1 := q.(urbs := q.urbs + [u]);
      TraceFrom(q, q1, own);
      TraceSet(q1, |q.urbs|, u.(state := ControlWaitingForSetupRequest), own);
      TraceDeliver(FirstInit(q1, internal, |q.urbs|).q, own);
    }
  }

  lemma TraceWithdraw(q: Core, i: nat, status: int, own: bool)
    requires TraceLaw(q, own) && i < |q.urbs|
    ensures TraceLaw(Withdraw(CancelUrb(q, i), q.urbs[i], status), own)
  {
    JustifiedAppend(q.log, Withdrawn(q.urbs[i], status), own);
    TraceFrom(q, Withdraw(CancelUrb(q, i), q.urbs[i], status), own);
  }

  lemma TraceStep(q: Queue, a: Action, own: bool)
    requires TraceLaw(q.core, own) && Enabled(q, a)
    requires own ==> DebtLaw(q.core) && QuietSetups(Apply(q, a).core.log)
    ensures TraceLaw(Apply(q, a).core, own)
  {
    if Quiet(a) {
      QuietStep(q, a);
    } else {
      match a
      case Submit(id, dirIn, length, link, granted) =>
        TraceCreate(Granted(q.core, granted), InternalWq in q.pausedBy, id, dirIn, length, link, own);
      case Deliver(msg, memory, granted) =>
        TraceEvent(Granted(q.core, granted), InternalWq in q.pausedBy, msg, memory, own);
      case Harvested(out, cs, granted) =>
        var c := Granted(q.core, granted);
        if own {
          KeptDeliverPending(CompleteLoop(c, out, cs), 0);
          QuietPrefix(CompleteLoop(c, out, cs).log, Apply(q, a).core.log);
        }
        TraceCompleteLoop(c, out, cs, own);
        TraceDeliver(CompleteLoop(c, out, cs), own);
      case Cancel(id, status) =>
        CancelCore(q, id, status);
        var i := IndexOf(q.core.urbs, id);
        if i < |q.core.urbs| {
          TraceWithdraw(q.core, i, status, own);
        }
      case CancelEverything => TraceCancelLoop(q.core.(flags := q.core.flags.(active := false)), own);
      case ResumeGo(granted) =>
        var c := Granted(q.core, granted);
        var c1 := c.(flags := c.flags.(active := true));
        TraceResumeFrom(c1, 0, own);
        TraceDeliver(ResumeFrom(c1, 0), own);
      case _ =>
    }
  }

  lemma {:induction false} TraceRun(q: Queue, acts: seq<Action>, own: bool)
    requires TraceLaw(q.core, own) && Legal(q, acts)
    requires own ==> SlotLaw(q) && DebtLaw(q.core) && AllFlushSafely(q, acts) && QuietSetups(Run(q, acts).core.log)
    ensures TraceLaw(Run(q, acts).core, own)
    decreases |acts|
  {
    if acts != [] {
      var q1 := Apply(q, acts[0]);
      if own {
        LogGrowsRun(q1, acts[1..]);
        QuietPrefix(q1.core.log, Run(q, acts).core.log);
        SlotStep(q, acts[0]);
        DebtStep(q, acts[0]);
      }
      TraceStep(q, acts[0], own);
      TraceRun(q1, acts[1..], own);
    }
  }

  /** In every run on endpoint 0, status 0 is reported only after the setup packet was sent, a completion
      answered it, the data stage (if any) was answered too, and the T2 reported SUCCESS. */
  lemma SuccessIsEarned(cfg: Config, acts: seq<Action>, n: nat)
    requires cfg.control && Legal(NewQueue(cfg), acts)
    requires n < |Run(NewQueue(cfg), acts).core.log|
    ensures var log := Run(NewQueue(cfg), acts).core.log;
      log[n].Finished? && log[n].status == 0 ==>
        && Phase(log[..n], log[n].urb.id, false) >= FullPhase(log[n].urb)
        && StatusReceived(log[n].urb.id, STATUS_SUCCESS) in log[..n]
  {
    TraceRun(NewQueue(cfg), acts, false);
    assert JustifiedAt(Run(NewQueue(cfg), acts).core.log, n, false);
  }

  /** And as long as no setup packet goes out while the T2 still owes an answer, the completions that earned it are
      the URB's own: first that of its setup packet, then that of its data. */
  lemma SuccessIsOwn(cfg: Config, acts: seq<Action>, n: nat)
    requires LegalConfig(cfg) && cfg.control && Legal(NewQueue(cfg), acts) && DestroysAtRest(NewQueue(cfg), acts)
    requires n < |Run(NewQueue(cfg), acts).core.log| && QuietSetups(Run(NewQueue(cfg), acts).core.log)
    ensures var log := Run(NewQueue(cfg), acts).core.log;
      log[n].Finished? && log[n].status == 0 ==>
        && Phase(log[..n], log[n].urb.id, true) >= FullPhase(log[n].urb)
        && StatusReceived(log[n].urb.id, STATUS_SUCCESS) in log[..n]
  {
    SafeOnZero(NewQueue(cfg), acts);
    TraceRun(NewQueue(cfg), acts, true);
    assert JustifiedAt(Run(NewQueue(cfg), acts).core.log, n, true);
  }
}
