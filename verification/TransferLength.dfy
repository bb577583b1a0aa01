/** What an URB is given back with: on every endpoint and over every run, the actual length is the number of bytes the
    T2 reported for its data. */
module TransferLength {
  import opened TransferModel
  import opened TransferRuns
  import opened TransferAccounting
  import opened TransferTheorems
  import TransferSilent

  // ---------------------------------------------------------------- the bytes in the history

  /** What stays the same about an URB. */
  datatype Key = Key(id: nat, dirIn: bool, length: nat)

  function KeyOf(u: Vurb): Key { Key(u.id, u.dirIn, u.length) }

  /** `sent`: a data submission is out. `total`: the bytes reported for it, in 32 bits. `closed`: the data is over,
      after one completion for IN, after the whole buffer for OUT. */
  datatype Progress = Progress(sent: bool, total: nat, closed: bool)

  const START := Progress(false, 0, false)

  function Progressed(p: Progress, n: Note, k: Key): Progress {
    match n
    case Sent(sub, _) => if sub.owner == k.id && !sub.setup then p.(sent := true) else p
    case Answered(_, charge) =>
      if charge.ToLive? && charge.id == k.id && p.sent && !p.closed then
        var total := (p.total + charge.size) % U32_RANGE;
        Progress(true, total, k.dirIn || total >= k.length)
      else p
    case _ => p
  }

  function Received(log: seq<Note>, k: Key): Progress {
    if log == [] then START else Progressed(Received(log[..|log| - 1], k), log[|log| - 1], k)
  }

  lemma ReceivedAppend(log: seq<Note>, n: Note, k: Key)
    ensures Received(log + [n], k) == Progressed(Received(log, k), n, k)
  {
    assert (log + [n])[..|log|] == log;
  }

  /** The bytes an URB is owed by the history. */
  function Reported(log: seq<Note>, k: Key): nat { if Received(log, k).closed then Received(log, k).total else 0 }

  /** The note is about the data of this URB. */
  predicate Names(n: Note, id: nat) {
    || (n.Sent? && n.sub.owner == id && !n.sub.setup)
    || (n.Answered? && n.charge.ToLive? && n.charge.id == id)
  }

  predicate Unheard(log: seq<Note>, id: nat) { forall i :: 0 <= i < |log| ==> !Names(log[i], id) }

  lemma {:induction false} UnheardStarts(log: seq<Note>, k: Key)
    requires Unheard(log, k.id)
    ensures Received(log, k) == START
  {
    if log != [] {
      UnheardStarts(log[..|log| - 1], k);
      assert !Names(log[|log| - 1], k.id);
    }
  }

  // ---------------------------------------------------------------- given back and noted

  predicate Ends(n: Note) { n.Finished? || n.Withdrawn? }

  function DoneOf(n: Note): Done
    requires Ends(n)
  {
    Done(n.urb.id, n.status, n.urb.actualLength)
  }

  /** How often a record is on a list of URBs going back. */
  function Copies(ds: seq<Done>, d: Done): nat {
    if ds == [] then 0 else Copies(ds[..|ds| - 1], d) + if ds[|ds| - 1] == d then 1 else 0
  }

  /** How often the history says that an URB went back like that, completed or cancelled. */
  function Finishes(log: seq<Note>, d: Done): nat {
    if log == [] then 0
    else Finishes(log[..|log| - 1], d) + if log[|log| - 1].Finished? && DoneOf(log[|log| - 1]) == d then 1 else 0
  }

  function Withdrawals(log: seq<Note>, d: Done): nat {
    if log == [] then 0
    else Withdrawals(log[..|log| - 1], d) + if log[|log| - 1].Withdrawn? && DoneOf(log[|log| - 1]) == d then 1 else 0
  }

  lemma {:induction false} CopiesConcat(a: seq<Done>, b: seq<Done>, d: Done)
    ensures Copies(a + b, d) == Copies(a, d) + Copies(b, d)
    decreases |b|
  {
    if b == [] {
      assert a + b == a;
    } else {
      CopiesConcat(a, b[..|b| - 1], d);
      assert (a + b)[..|a + b| - 1] == a + b[..|b| - 1];
    }
  }

  lemma CopiesAppend(ds: seq<Done>, e: Done, d: Done)
    ensures Copies(ds + [e], d) == Copies(ds, d) + if e == d then 1 else 0
  {
    assert (ds + [e])[..|ds|] == ds;
  }

  lemma NotesAppend(log: seq<Note>, n: Note, d: Done)
    ensures Finishes(log + [n], d) == Finishes(log, d) + if n.Finished? && DoneOf(n) == d then 1 else 0
    ensures Withdrawals(log + [n], d) == Withdrawals(log, d) + if n.Withdrawn? && DoneOf(n) == d then 1 else 0
  {
    assert (log + [n])[..|log|] == log;
  }

  // ---------------------------------------------------------------- the law

  predicate Fits(u: Vurb, p: Progress, control: bool) {
    match u.state
    case WaitingForCompletion => p.sent && !p.closed && u.receiveOffset == p.total && u.actualLength == 0
    case DataTransferComplete =>
      (p == START || (p.closed && control)) && u.actualLength == if p.closed then p.total else 0
    case ControlComplete => false
    case Cancelled => false
    case _ => p == START && u.receiveOffset == 0 && u.actualLength == 0
  }

  /** An URB that went back carried the bytes reported for it; on a data endpoint with status 0 exactly when its data
      was over. */
  predicate Measured(log: seq<Note>, n: nat, control: bool)
    requires n < |log|
  {
    Ends(log[n]) ==>
      var k := KeyOf(log[n].urb);
      && log[n].urb.actualLength == Reported(log[..n], k)
      && (!control && log[n].Finished? ==> (log[n].status == 0 <==> Received(log[..n], k).closed))
  }

  predicate AllMeasured(log: seq<Note>, id: nat, control: bool) {
    forall n :: 0 <= n < |log| && Ends(log[n]) && log[n].urb.id == id ==> Measured(log, n, control)
  }

  /** For one URB id, and one record d: `gap` is how many copies the giveback list has beyond those noted. */
  predicate LengthLaw(q: Core, id: nat, seen: bool, d: Done, gap: int) {
    && Listed(q.urbs, id) <= (if seen then 1 else 0)
    && (!seen ==> Unheard(q.log, id))
    && (forall i :: 0 <= i < |q.urbs| && q.urbs[i].id == id ==>
          Fits(q.urbs[i], Received(q.log, KeyOf(q.urbs[i])), q.cfg.control))
    && AllMeasured(q.log, id, q.cfg.control)
    && Copies(q.giveback, d) == Finishes(q.log, d) + Withdrawals(q.log, d) + gap
  }

  lemma MeasuredAppend(log: seq<Note>, n: Note, id: nat, control: bool)
    requires AllMeasured(log, id, control)
    requires Ends(n) && n.urb.id == id ==>
               && n.urb.actualLength == Reported(log, KeyOf(n.urb))
               && (!control && n.Finished? ==> (n.status == 0 <==> Received(log, KeyOf(n.urb)).closed))
    ensures AllMeasured(log + [n], id, control)
  {
    var l := log + [n];
    forall k | 0 <= k < |l| && Ends(l[k]) && l[k].urb.id == id
      ensures Measured(l, k, control)
    {
      if k < |log| {
        assert Measured(log, k, control);
        assert l[..k] == log[..k];
      } else {
        assert l[..k] == log;
      }
    }
  }

  lemma OnlyOne(q: Core, id: nat, i: nat, j: nat)
    requires Listed(q.urbs, id) <= 1 && i < |q.urbs| && j < |q.urbs| && q.urbs[i].id == q.urbs[j].id == id
    ensures i == j
  {
    if i != j {
      TransferSilent.OnceListed(q.urbs, id, if i < j then i else j, if i < j then j else i);
    }
  }

  /** The URB at i changes and one note is written, about no data but its own. */
  lemma Carry(q: Core, r: Core, i: nat, n: Note, id: nat, seen: bool, d: Done, gap: int)
    requires LengthLaw(q, id, seen, d, gap) && i < |q.urbs| && !Ends(n)
    requires r.cfg == q.cfg && r.giveback == q.giveback && r.log == q.log + [n]
    requires |r.urbs| == |q.urbs| && r.urbs == q.urbs[i := r.urbs[i]] && KeyOf(r.urbs[i]) == KeyOf(q.urbs[i])
    requires Names(n, id) ==> q.urbs[i].id == id
    requires q.urbs[i].id == id ==>
               Fits(r.urbs[i], Progressed(Received(q.log, KeyOf(q.urbs[i])), n, KeyOf(q.urbs[i])), q.cfg.control)
    ensures LengthLaw(r, id, seen, d, gap)
  {
    TallyUpdate(q.urbs, i, r.urbs[i], id);
    TallyAt(q.urbs, i, id);
    MeasuredAppend(q.log, n, id, q.cfg.control);
    NotesAppend(q.log, n, d);
    forall j | 0 <= j < |r.urbs| && r.urbs[j].id == id
      ensures Fits(r.urbs[j], Received(r.log, KeyOf(r.urbs[j])), r.cfg.control)
    {
      ReceivedAppend(q.log, n, KeyOf(r.urbs[j]));
      if q.urbs[i].id == id {
        OnlyOne(q, id, i, j);
      }
    }
  }

  /** The URB at i changes and nothing is written. */
  lemma LengthSet(q: Core, i: nat, u: Vurb, id: nat, seen: bool, d: Done, gap: int)
    requires LengthLaw(q, id, seen, d, gap) && i < |q.urbs| && KeyOf(u) == KeyOf(q.urbs[i])
    requires q.urbs[i].id == id ==> Fits(u, Received(q.log, KeyOf(u)), q.cfg.control)
    ensures LengthLaw(SetUrb(q, i, u), id, seen, d, gap)
  {
    TallyUpdate(q.urbs, i, u, id);
  }

  /** The URB at i goes back as `v`, which differs from it in nothing that counts here. */
  lemma LengthCompleteAs(q: Core, i: nat, v: Vurb, status: int, id: nat, seen: bool, d: Done, gap: int)
    requires LengthLaw(q, id, seen, d, gap) && i < |q.urbs|
    requires KeyOf(v) == KeyOf(q.urbs[i]) && v.actualLength == q.urbs[i].actualLength
    requires !q.cfg.control && q.urbs[i].id == id ==> (status == 0 <==> Received(q.log, KeyOf(q.urbs[i])).closed)
    ensures LengthLaw(UrbComplete(SetUrb(q, i, v), i, status), id, seen, d, gap)
  {
    LengthWithout(q, i, id, seen, d, gap);
    LengthGive(q.(urbs := Without(q.urbs, i)), v, status, id, seen, d, gap);
    assert Without(q.urbs[i := v], i) == Without(q.urbs, i);
  }

  lemma LengthComplete(q: Core, i: nat, status: int, id: nat, seen: bool, d: Done, gap: int)
    requires LengthLaw(q, id, seen, d, gap) && i < |q.urbs|
    requires !q.cfg.control && q.urbs[i].id == id ==> (status == 0 <==> Received(q.log, KeyOf(q.urbs[i])).closed)
    ensures LengthLaw(UrbComplete(q, i, status), id, seen, d, gap)
  {
    LengthCompleteAs(q, i, q.urbs[i], status, id, seen, d, gap);
    assert q.urbs[i := q.urbs[i]] == q.urbs;
  }

  lemma LengthWithout(q: Core, i: nat, id: nat, seen: bool, d: Done, gap: int)
    requires LengthLaw(q, id, seen, d, gap) && i < |q.urbs|
    ensures var r := q.(urbs := Without(q.urbs, i));
      && LengthLaw(r, id, seen, d, gap)
      && Listed(r.urbs, id) == Listed(q.urbs, id) - if q.urbs[i].id == id then 1 else 0
  {
    TallyRemove(q.urbs, i, id);
    assert forall k :: 0 <= k < |q.urbs| - 1 ==> Without(q.urbs, i)[k] == q.urbs[if k < i then k else k + 1];
  }

  /** A note about the data of an URB that is not listed any more. */
  lemma LengthNote(q: Core, n: Note, id: nat, seen: bool, d: Done, gap: int)
    requires LengthLaw(q, id, seen, d, gap) && !Ends(n) && (Names(n, id) ==> seen && Listed(q.urbs, id) == 0)
    ensures LengthLaw(q.(log := q.log + [n]), id, seen, d, gap)
  {
    MeasuredAppend(q.log, n, id, q.cfg.control);
    NotesAppend(q.log, n, d);
    forall j | 0 <= j < |q.urbs| && q.urbs[j].id == id
      ensures Fits(q.urbs[j], Received(q.log + [n], KeyOf(q.urbs[j])), q.cfg.control)
    {
      ReceivedAppend(q.log, n, KeyOf(q.urbs[j]));
      TallyAt(q.urbs, j, id);
    }
  }

  /** An URB that is not listed any more goes to the giveback list. */
  lemma LengthGive(q: Core, u: Vurb, status: int, id: nat, seen: bool, d: Done, gap: int)
    requires LengthLaw(q, id, seen, d, gap)
    requires u.id == id ==>
               && u.actualLength == Reported(q.log, KeyOf(u))
               && (!q.cfg.control ==> (status == 0 <==> Received(q.log, KeyOf(u)).closed))
    ensures LengthLaw(q.(log := q.log + [Finished(u, status)],
                         giveback := q.giveback + [Done(u.id, status, u.actualLength)]), id, seen, d, gap)
  {
    var n := Finished(u, status);
    MeasuredAppend(q.log, n, id, q.cfg.control);
    NotesAppend(q.log, n, d);
    CopiesAppend(q.giveback, DoneOf(n), d);
    forall j | 0 <= j < |q.urbs| && q.urbs[j].id == id
      ensures Fits(q.urbs[j], Received(q.log + [n], KeyOf(q.urbs[j])), q.cfg.control)
    {
      ReceivedAppend(q.log, n, KeyOf(q.urbs[j]));
    }
  }

  // ---------------------------------------------------------------- the law, function by function

  lemma LengthTransferIn(q: Core, i: nat, id: nat, seen: bool, d: Done, gap: int)
    requires LengthLaw(q, id, seen, d, gap) && i < |q.urbs|
    requires q.urbs[i].state in {InitPending, ControlWaitingForSetupCompletion, WaitingForCompletion}
    ensures var s := DataTransferIn(q, i);
      LengthLaw(s.q, id, seen, d, gap) && |s.q.urbs| == |q.urbs| && (s.status != 0 ==> s.q.urbs == q.urbs)
  {
    var s := DataTransferIn(q, i);
    if s.status == 0 {
      Carry(q, s.q, i, s.q.log[|q.log|], id, seen, d, gap);
    }
  }

  lemma LengthDataStart(q: Core, i: nat, id: nat, seen: bool, d: Done, gap: int)
    requires LengthLaw(q, id, seen, d, gap) && i < |q.urbs|
    requires q.urbs[i].state in {InitPending, ControlWaitingForSetupCompletion}
    ensures var s := DataStart(q, i);
      LengthLaw(s.q, id, seen, d, gap) && |s.q.urbs| == |q.urbs| && (s.status != 0 ==> s.q.urbs == q.urbs)
  {
    if q.urbs[i].dirIn {
      LengthTransferIn(q, i, id, seen, d, gap);
    } else {
      LengthSet(q, i, DataStart(q, i).q.urbs[i], id, seen, d, gap);
    }
  }

  lemma LengthInit(q: Core, i: nat, id: nat, seen: bool, d: Done, gap: int)
    requires LengthLaw(q, id, seen, d, gap) && i < |q.urbs| && q.urbs[i].state == InitPending
    ensures LengthLaw(UrbInit(q, i).q, id, seen, d, gap) && |UrbInit(q, i).q.urbs| == |q.urbs|
  {
    LengthDataStart(q, i, id, seen, d, gap);
    LengthSet(q, i, q.urbs[i].(state := ControlWaitingForSetupRequest), id, seen, d, gap);
  }

  lemma LengthCheckStatus(q: Core, i: nat, id: nat, seen: bool, d: Done, gap: int)
    requires LengthLaw(q, id, seen, d, gap) && i < |q.urbs| && q.cfg.control
    ensures LengthLaw(ControlCheckStatus(q, i).q, id, seen, d, gap)
  {
    var u := q.urbs[i];
    if ControlCheckStatus(q, i).status == ENOENT {
      var st := if u.receivedStatus != STATUS_SUCCESS then EPIPE else 0;
      LengthCompleteAs(q, i, u.(state := ControlComplete), st, id, seen, d, gap);
    }
  }

  lemma LengthDataUpdate(q: Core, i: nat, msg: Message, id: nat, seen: bool, d: Done, gap: int)
    requires LengthLaw(q, id, seen, d, gap) && i < |q.urbs|
    ensures var s := DataUpdate(q, i, msg); LengthLaw(s.q, id, seen, d, gap) && |s.q.urbs| == |q.urbs|
  {
    var s := DataUpdate(q, i, msg);
    if s.status == 0 {
      Carry(q, s.q, i, s.q.log[|q.log|], id, seen, d, gap);
    }
  }

  lemma LengthControlUpdate(q: Core, i: nat, msg: Message, id: nat, seen: bool, d: Done, gap: int)
    requires LengthLaw(q, id, seen, d, gap) && i < |q.urbs| && q.cfg.control
    ensures LengthLaw(ControlUpdate(q, i, msg).q, id, seen, d, gap)
  {
    var u := q.urbs[i];
    if msg.cmd == CMD_CONTROL_TRANSFER_STATUS {
      var n := StatusReceived(u.id, msg.status);
      var r := q.(urbs := q.urbs[i := u.(receivedStatus := msg.status)], log := q.log + [n]);
      Carry(q, r, i, n, id, seen, d, gap);
      LengthCheckStatus(r, i, id, seen, d, gap);
    } else if u.state == ControlWaitingForSetupRequest && msg.cmd == CMD_TRANSFER_REQUEST {
      var s := ControlUpdate(q, i, msg);
      if s.q.log != q.log {
        Carry(q, s.q, i, s.q.log[|q.log|], id, seen, d, gap);
      }
    } else if u.state == WaitingForTransferRequest || u.state == WaitingForCompletion {
      LengthDataUpdate(q, i, msg, id, seen, d, gap);
      LengthCheckStatus(DataUpdate(q, i, msg).q, i, id, seen, d, gap);
    }
  }

  lemma LengthUpdate(q: Core, i: nat, msg: Message, id: nat, seen: bool, d: Done, gap: int)
    requires LengthLaw(q, id, seen, d, gap) && i < |q.urbs|
    ensures LengthLaw(UrbUpdate(q, i, msg).q, id, seen, d, gap)
  {
    if q.urbs[i].state != InitPending {
      if q.cfg.control {
        LengthControlUpdate(q, i, msg, id, seen, d, gap);
      } else {
        LengthDataUpdate(q, i, msg, id, seen, d, gap);
      }
    }
  }

  /** A completion for a head that does not wait for one: its size counts for nothing. */
  lemma LengthIdle(q: Core, out: bool, size: nat, id: nat, seen: bool, d: Done, gap: int)
    requires LengthLaw(q, id, seen, d, gap) && q.urbs != [] && q.urbs[0].state != WaitingForCompletion
    requires Owed(q.dma, out) != []
    ensures LengthLaw(Notify(q, out, ToLive(q.urbs[0].id, size)), id, seen, d, gap)
  {
    var r := Notify(q, out, ToLive(q.urbs[0].id, size));
    Carry(q, r, 0, r.log[|q.log|], id, seen, d, gap);
  }

  /** A completion for a head that waits: the bytes are added up, and the data is over or not. */
  function Counted(u: Vurb, size: nat): Vurb {
    var total := (u.receiveOffset + size) % U32_RANGE;
    if u.dirIn || total >= u.length
    then u.(receiveOffset := total, actualLength := total, state := DataTransferComplete)
    else u.(receiveOffset := total)
  }

  predicate Over(u: Vurb, size: nat) { u.dirIn || (u.receiveOffset + size) % U32_RANGE >= u.length }

  lemma LengthCounted(q: Core, out: bool, size: nat, id: nat, seen: bool, d: Done, gap: int)
    requires LengthLaw(q, id, seen, d, gap) && q.urbs != [] && q.urbs[0].state == WaitingForCompletion
    requires Owed(q.dma, out) != [] && (q.cfg.control || !Over(q.urbs[0], size))
    ensures LengthLaw(SetUrb(Notify(q, out, ToLive(q.urbs[0].id, size)), 0, Counted(q.urbs[0], size)), id, seen, d, gap)
  {
    var r := SetUrb(Notify(q, out, ToLive(q.urbs[0].id, size)), 0, Counted(q.urbs[0], size));
    Carry(q, r, 0, r.log[|q.log|], id, seen, d, gap);
  }

  /** On a data endpoint the head goes back at once, with the bytes counted. */
  lemma LengthFinished(q: Core, out: bool, size: nat, r: Core, id: nat, seen: bool, d: Done, gap: int)
    requires LengthLaw(q, id, seen, d, gap) && q.urbs != [] && q.urbs[0].state == WaitingForCompletion
    requires Owed(q.dma, out) != [] && !q.cfg.control && Over(q.urbs[0], size)
    requires r == UrbComplete(SetUrb(Notify(q, out, ToLive(q.urbs[0].id, size)), 0, Counted(q.urbs[0], size)), 0, 0)
    ensures LengthLaw(r, id, seen, d, gap)
  {
    var u, v := q.urbs[0], Counted(q.urbs[0], size);
    var note := Answered(Owed(q.dma, out)[0], ToLive(u.id, size));
    LengthTaken(q, note, id, seen, d, gap);
    var q2 := q.(urbs := Without(q.urbs, 0), log := q.log + [note]);
    ReceivedAppend(q.log, note, KeyOf(u));
    LengthGive(q2, v, 0, id, seen, d, gap);
    assert Without(q.urbs[0 := v], 0) == Without(q.urbs, 0);
    assert r.urbs == q2.urbs && r.log == q2.log + [Finished(v, 0)];
  }

  lemma LengthTaken(q: Core, note: Note, id: nat, seen: bool, d: Done, gap: int)
    requires LengthLaw(q, id, seen, d, gap) && q.urbs != [] && !Ends(note) && (Names(note, id) ==> q.urbs[0].id == id)
    ensures LengthLaw(q.(urbs := Without(q.urbs, 0), log := q.log + [note]), id, seen, d, gap)
  {
    LengthWithout(q, 0, id, seen, d, gap);
    TallyAt(q.urbs, 0, id);
    LengthNote(q.(urbs := Without(q.urbs, 0)), note, id, seen, d, gap);
  }

  lemma DataCompletionIs(n: Core, c: Completion)
    requires n.urbs != []
    ensures var u := n.urbs[0]; var m := SetUrb(n, 0, Counted(u, c.dataSize));
      DataTransferCompletion(n, 0, c) ==
      if u.state != WaitingForCompletion then Outcome(n, 0)
      else if n.cfg.control || !Over(u, c.dataSize) then Outcome(m, 0)
      else Outcome(UrbComplete(m, 0, 0), ENOENT)
  {
  }

  lemma LengthDataCompletion(q: Core, out: bool, c: Completion, id: nat, seen: bool, d: Done, gap: int)
    requires LengthLaw(q, id, seen, d, gap) && q.urbs != [] && Owed(q.dma, out) != []
    ensures var n := Notify(q, out, ToLive(q.urbs[0].id, c.dataSize)); var s := DataTransferCompletion(n, 0, c);
      && LengthLaw(s.q, id, seen, d, gap)
      && (s.status == 0 ==> |s.q.urbs| == |q.urbs|) && s.q.cfg == q.cfg
  {
    var n := Notify(q, out, ToLive(q.urbs[0].id, c.dataSize));
    var s := DataTransferCompletion(n, 0, c);
    DataCompletionIs(n, c);
    if q.urbs[0].state != WaitingForCompletion {
      LengthIdle(q, out, c.dataSize, id, seen, d, gap);
    } else if q.cfg.control || !Over(q.urbs[0], c.dataSize) {
      LengthCounted(q, out, c.dataSize, id, seen, d, gap);
    } else {
      LengthFinished(q, out, c.dataSize, s.q, id, seen, d, gap);
    }
  }

  lemma LengthSetupCompletion(q: Core, out: bool, c: Completion, id: nat, seen: bool, d: Done, gap: int)
    requires LengthLaw(q, id, seen, d, gap) && q.urbs != [] && Owed(q.dma, out) != [] && q.cfg.control
    requires q.urbs[0].state == ControlWaitingForSetupCompletion
    ensures LengthLaw(ControlTransferCompletion(Notify(q, out, ToLive(q.urbs[0].id, c.dataSize)), 0, c).q,
                      id, seen, d, gap)
  {
    var n := Notify(q, out, ToLive(q.urbs[0].id, c.dataSize));
    LengthIdle(q, out, c.dataSize, id, seen, d, gap);
    LengthDataStart(n, 0, id, seen, d, gap);
    var s := DataStart(n, 0);
    if s.status != 0 {
      LengthComplete(s.q, 0, s.status, id, seen, d, gap);
    } else {
      LengthCheckStatus(s.q, 0, id, seen, d, gap);
    }
  }

  lemma LengthLive(q: Core, out: bool, c: Completion, id: nat, seen: bool, d: Done, gap: int)
    requires LengthLaw(q, id, seen, d, gap) && q.urbs != [] && Owed(q.dma, out) != []
    ensures LengthLaw(UrbTransferCompletion(Notify(q, out, ToLive(q.urbs[0].id, c.dataSize)), 0, c).q, id, seen, d, gap)
  {
    var u, n := q.urbs[0], Notify(q, out, ToLive(q.urbs[0].id, c.dataSize));
    if q.cfg.control && u.state == ControlWaitingForSetupCompletion {
      LengthSetupCompletion(q, out, c, id, seen, d, gap);
    } else {
      LengthDataCompletion(q, out, c, id, seen, d, gap);
      if q.cfg.control {
        if u.state == WaitingForTransferRequest || u.state == WaitingForCompletion {
          LengthCheckStatus(DataTransferCompletion(n, 0, c).q, 0, id, seen, d, gap);
        }
      }
    }
  }

  lemma LengthOther(q: Core, out: bool, charge: Charge, id: nat, seen: bool, d: Done, gap: int)
    requires LengthLaw(q, id, seen, d, gap) && Owed(q.dma, out) != [] && !charge.ToLive?
    ensures LengthLaw(Notify(q, out, charge), id, seen, d, gap)
  {
    LengthNote(q, Answered(Owed(q.dma, out)[0], charge), id, seen, d, gap);
  }

  lemma {:induction false} LengthInitPending(q: Core, i: nat, id: nat, seen: bool, d: Done, gap: int)
    requires LengthLaw(q, id, seen, d, gap)
    ensures LengthLaw(InitPendingFrom(q, i), id, seen, d, gap)
    decreases |q.urbs| - i
  {
    if i < |q.urbs| && CanInit(q) {
      if q.urbs[i].state == InitPending {
        LengthInit(q, i, id, seen, d, gap);
        LengthInitPending(UrbInit(q, i).q, i + 1, id, seen, d, gap);
      } else {
        LengthInitPending(q, i + 1, id, seen, d, gap);
      }
    }
  }

  lemma LengthGhostIn(q: Core, id: nat, seen: bool, d: Done, gap: int)
    requires LengthLaw(q, id, seen, d, gap) && q.dma.sqIn.owed != [] && q.counters.ghostIn != []
    ensures LengthLaw(GhostInDone(q), id, seen, d, gap)
  {
    var k := q.counters;
    LengthOther(q, false, ToCancelled(k.ghostIn[0]), id, seen, d, gap);
    var n := TakeIn(q, ToCancelled(k.ghostIn[0])).(counters := Freed(k).(ghostIn := k.ghostIn[1..]));
    assert n.log == Notify(q, false, ToCancelled(k.ghostIn[0])).log;
    LengthInitPending(n, 0, id, seen, d, gap);
  }

  lemma LengthCompleteOne(q: Core, out: bool, c: Completion, id: nat, seen: bool, d: Done, gap: int)
    requires LengthLaw(q, id, seen, d, gap) && Owed(q.dma, out) != []
    ensures LengthLaw(CompleteOne(q, out, c), id, seen, d, gap)
  {
    var k := q.counters;
    if c.aborted {
      LengthOther(q, out, ToNobody, id, seen, d, gap);
    } else if !out && k.ghostIn != [] {
      LengthGhostIn(q, id, seen, d, gap);
    } else if out && k.ghostOut != [] {
      LengthOther(q, out, ToCancelled(k.ghostOut[0]), id, seen, d, gap);
      var n := Notify(q, out, ToCancelled(k.ghostOut[0])).(counters := Freed(k).(ghostOut := k.ghostOut[1..]));
      LengthInitPending(n, 0, id, seen, d, gap);
    } else if q.urbs == [] || q.urbs[0].state == InitPending {
      LengthOther(q, out, ToNobody, id, seen, d, gap);
    } else {
      LengthLive(q, out, c, id, seen, d, gap);
    }
  }

  lemma {:induction false} LengthCompleteLoop(q: Core, out: bool, cs: seq<Completion>, id: nat, seen: bool, d: Done,
                                              gap: int)
    requires LengthLaw(q, id, seen, d, gap)
    ensures LengthLaw(CompleteLoop(q, out, cs), id, seen, d, gap)
    decreases |cs|
  {
    if cs != [] && Owed(q.dma, out) != [] {
      LengthCompleteOne(q, out, cs[0], id, seen, d, gap);
      LengthCompleteLoop(CompleteOne(q, out, cs[0]), out, cs[1..], id, seen, d, gap);
    }
  }

  lemma {:induction false} LengthDeliverLoop(q: Core, id: nat, seen: bool, d: Done, gap: int)
    requires LengthLaw(q, id, seen, d, gap)
    ensures LengthLaw(DeliverLoop(q), id, seen, d, gap)
    decreases |q.evq|
  {
    if q.urbs != [] && q.evq != [] {
      LengthUpdate(q, 0, q.evq[0], id, seen, d, gap);
      var s := UrbUpdate(q, 0, q.evq[0]);
      if s.status != EAGAIN {
        LengthDeliverLoop(s.q.(evq := q.evq[1..]), id, seen, d, gap);
      }
    }
  }

  lemma LengthDeliver(q: Core, id: nat, seen: bool, d: Done, gap: int)
    requires LengthLaw(q, id, seen, d, gap)
    ensures LengthLaw(DeliverPending(q), id, seen, d, gap)
  {
    LengthDeliverLoop(q, id, seen, d, gap);
    LengthInitPending(DeliverLoop(q), 0, id, seen, d, gap);
  }

  lemma LengthEvent(q: Core, internal: bool, msg: Message, memory: bool, id: nat, seen: bool, d: Done, gap: int)
    requires LengthLaw(q, id, seen, d, gap)
    ensures LengthLaw(Event(q, internal, msg, memory), id, seen, d, gap)
  {
    if q.flags.active {
      var e := DeliverPending(q);
      LengthDeliver(q, id, seen, d, gap);
      if e.urbs != [] {
        LengthUpdate(e, 0, msg, id, seen, d, gap);
        LengthInitPending(UrbUpdate(e, 0, msg).q, 0, id, seen, d, gap);
      }
    }
  }

  lemma {:induction false} LengthCancelLoop(q: Core, id: nat, seen: bool, d: Done, gap: int)
    requires LengthLaw(q, id, seen, d, gap)
    ensures LengthLaw(CancelLoop(q), id, seen, d, gap)
    decreases |q.urbs|
  {
    if q.urbs != [] {
      LengthComplete(q, 0, ECONNRESET, id, seen, d, gap);
      LengthCancelLoop(UrbComplete(q, 0, ECONNRESET), id, seen, d, gap);
    }
  }

  lemma {:induction false} LengthResumeFrom(q: Core, i: nat, id: nat, seen: bool, d: Done, gap: int)
    requires LengthLaw(q, id, seen, d, gap)
    ensures LengthLaw(ResumeFrom(q, i), id, seen, d, gap)
    decreases |q.urbs| - i
  {
    if i < |q.urbs| {
      if q.urbs[i].state == InitPending {
        if CanInit(q) {
          LengthInit(q, i, id, seen, d, gap);
          LengthResumeFrom(UrbInit(q, i).q, i + 1, id, seen, d, gap);
        }
      } else {
        var q1 := UrbResume(q, i);
        if q.urbs[i].state == WaitingForCompletion {
          LengthTransferIn(q, i, id, seen, d, gap);
          var s := DataTransferIn(q, i);
          if s.status != 0 {
            LengthComplete(s.q, i, s.status, id, seen, d, gap);
          }
        }
        LengthResumeFrom(q1, if |q1.urbs| < |q.urbs| then i else i + 1, id, seen, d, gap);
      }
    }
  }

  lemma LengthAppend(q: Core, u: Vurb, id: nat, seen: bool, d: Done, gap: int)
    requires LengthLaw(q, id, seen, d, gap) && u == FreshUrb(u.id, u.dirIn, u.length) && (u.id == id ==> !seen)
    ensures LengthLaw(q.(urbs := q.urbs + [u]), id, seen || u.id == id, d, gap)
  {
    TallyConcat(q.urbs, [u], id);
    TallyOne(u, id);
    if u.id == id {
      UnheardStarts(q.log, KeyOf(u));
      forall i | 0 <= i < |q.urbs|
        ensures q.urbs[i].id != id
      {
        TallyAt(q.urbs, i, id);
      }
    }
  }

  lemma LengthCreate(q: Core, internal: bool, added: nat, dirIn: bool, length: nat, link: int, id: nat, seen: bool,
                     d: Done, gap: int)
    requires LengthLaw(q, id, seen, d, gap) && (added == id ==> !seen)
    ensures var s := UrbCreate(q, internal, added, dirIn, length, link);
      LengthLaw(s.q, id, seen || (added == id && s.status == 0), d, gap)
  {
    if link == 0 {
      var u := FreshUrb(added, dirIn, length);
      var q1 := q.(urbs := q.urbs + [u]);
      var now := seen || added == id;
      LengthAppend(q, u, id, seen, d, gap);
      var s := FirstInit(q1, internal, |q.urbs|);
      if q.flags.active && CanInit(q) {
        LengthInit(q1, |q.urbs|, id, now, d, gap);
      }
      if s.status == 0 {
        LengthDeliver(s.q, id, now, d, gap);
      } else {
        LengthFailed(q, q1, s.q);
      }
    }
  }

  /** A start that fails leaves the list as it was. */
  lemma LengthFailed(q: Core, q1: Core, r: Core)
    requires |q1.urbs| == |q.urbs| + 1 && q1.urbs[..|q.urbs|] == q.urbs && r.urbs == q1.urbs
    ensures Without(r.urbs, |q.urbs|) == q.urbs
  {
  }

  // ---------------------------------------------------------------- runs

  /** Copies of a record outside the giveback list: for the flush, in a caller's hands, given back. */
  function Elsewhere(q: Queue, d: Done): int { Copies(q.flushGiveback, d) + Copies(q.inHand, d) + Copies(q.given, d) }

  predicate GivenLaw(q: Queue, id: nat, d: Done) {
    LengthLaw(q.core, id, Places(q, id) >= 1, d, -Elsewhere(q, d))
  }

  lemma LengthSeen(q: Core, id: nat, seen: bool, now: bool, d: Done, gap: int)
    requires LengthLaw(q, id, seen, d, gap) && (seen ==> now)
    ensures LengthLaw(q, id, now, d, gap)
  {
  }

  lemma LengthCoreStep(q: Queue, a: Action, id: nat, seen: bool, d: Done, gap: int)
    requires LengthLaw(q.core, id, seen, d, gap) && Enabled(q, a) && seen == (Places(q, id) >= 1)
    requires Ordinary(a) || Quiet(a) || a.Submit? || a.ResumeGo?
    ensures LengthLaw(Apply(q, a).core, id, seen || Enqueues(q, a, id), d, gap)
  {
    if Quiet(a) {
      QuietStep(q, a);
    } else {
      match a
      case Submit(added, dirIn, length, link, granted) =>
        LengthCreate(Granted(q.core, granted), InternalWq in q.pausedBy, added, dirIn, length, link, id, seen, d, gap);
      case Deliver(msg, memory, granted) =>
        LengthEvent(Granted(q.core, granted), InternalWq in q.pausedBy, msg, memory, id, seen, d, gap);
      case Harvested(out, cs, granted) =>
        var c := Granted(q.core, granted);
        LengthCompleteLoop(c, out, cs, id, seen, d, gap);
        LengthDeliver(CompleteLoop(c, out, cs), id, seen, d, gap);
      case CancelEverything => LengthCancelLoop(q.core.(flags := q.core.flags.(active := false)), id, seen, d, gap);
      case ResumeGo(granted) =>
        var c := Granted(q.core, granted);
        var c1 := c.(flags := c.flags.(active := true));
        LengthResumeFrom(c1, 0, id, seen, d, gap);
        LengthDeliver(ResumeFrom(c1, 0), id, seen, d, gap);
    }
  }

  lemma LengthWithdraw(q: Core, i: nat, status: int, id: nat, seen: bool, d: Done, gap: int)
    requires LengthLaw(q, id, seen, d, gap) && i < |q.urbs|
    ensures var u := q.urbs[i];
      LengthLaw(Withdraw(CancelUrb(q, i), u, status), id, seen, d,
                gap - if Done(u.id, status, u.actualLength) == d then 1 else 0)
  {
    var u := q.urbs[i];
    var n := Withdrawn(u, status);
    LengthWithout(q, i, id, seen, d, gap);
    MeasuredAppend(q.log, n, id, q.cfg.control);
    NotesAppend(q.log, n, d);
    var r := Withdraw(CancelUrb(q, i), u, status);
    forall j | 0 <= j < |r.urbs| && r.urbs[j].id == id
      ensures Fits(r.urbs[j], Received(r.log, KeyOf(r.urbs[j])), r.cfg.control)
    {
      assert r.urbs == q.(urbs := Without(q.urbs, i)).urbs;
      ReceivedAppend(q.log, n, KeyOf(r.urbs[j]));
    }
  }

  lemma GivenCancel(q: Queue, cid: nat, status: int, id: nat, d: Done)
    requires GivenLaw(q, id, d)
    ensures GivenLaw(RequestCancel(q, cid, status).0, id, d)
  {
    CancelPlaces(q, cid, status, id);
    CancelCore(q, cid, status);
    var i := IndexOf(q.core.urbs, cid);
    if i < |q.core.urbs| {
      var u := q.core.urbs[i];
      LengthWithdraw(q.core, i, status, id, Places(q, id) >= 1, d, -Elsewhere(q, d));
      CancelElsewhere(q, cid, status, Done(u.id, status, u.actualLength), d);
    }
  }

  lemma CancelElsewhere(q: Queue, cid: nat, status: int, done: Done, d: Done)
    requires var i := IndexOf(q.core.urbs, cid);
      i < |q.core.urbs| && done == Done(q.core.urbs[i].id, status, q.core.urbs[i].actualLength)
    ensures Elsewhere(RequestCancel(q, cid, status).0, d) == Elsewhere(q, d) + if done == d then 1 else 0
  {
    CancelLists(q, cid, status, done);
    CopiesAppend(q.flushGiveback, done, d);
    CopiesAppend(q.inHand, done, d);
  }

  lemma CopiesRemove(ds: seq<Done>, k: nat, d: Done)
    requires k < |ds|
    ensures Copies(ds, d) == Copies(ds[..k] + ds[k + 1..], d) + if ds[k] == d then 1 else 0
  {
    assert ds == (ds[..k] + [ds[k]]) + ds[k + 1..];
    CopiesConcat(ds[..k] + [ds[k]], ds[k + 1..], d);
    CopiesAppend(ds[..k], ds[k], d);
    CopiesConcat(ds[..k], ds[k + 1..], d);
  }

  lemma GivenPop(q: Queue, id: nat, d: Done)
    requires GivenLaw(q, id, d) && q.core.giveback != []
    ensures GivenLaw(GivebackPop(q), id, d)
  {
    PopPlaces(q, id);
    CopiesFirst(q.core.giveback, d);
    CopiesAppend(q.inHand, q.core.giveback[0], d);
    LengthRelisted(q.core, q.core.giveback[1..], id, Places(q, id) >= 1, d, -Elsewhere(q, d));
  }

  lemma CopiesFirst(ds: seq<Done>, d: Done)
    requires ds != []
    ensures Copies(ds, d) == Copies(ds[1..], d) + if ds[0] == d then 1 else 0
  {
    CopiesRemove(ds, 0, d);
    assert ds[..0] + ds[1..] == ds[1..];
  }

  /** The law depends on the giveback list only through the copies on it. */
  lemma LengthRelisted(q: Core, giveback: seq<Done>, id: nat, seen: bool, d: Done, gap: int)
    requires LengthLaw(q, id, seen, d, gap)
    ensures LengthLaw(q.(giveback := giveback), id, seen, d, gap + Copies(giveback, d) - Copies(q.giveback, d))
  {
  }

  lemma GivenHand(q: Queue, k: nat, id: nat, d: Done)
    requires GivenLaw(q, id, d) && k < |q.inHand|
    ensures GivenLaw(HandOver(q, k), id, d)
  {
    HandPlaces(q, k, id);
    CopiesRemove(q.inHand, k, d);
    CopiesAppend(q.given, q.inHand[k], d);
  }

  lemma GivenSplice(q: Queue, id: nat, d: Done)
    requires GivenLaw(q, id, d)
    ensures GivenLaw(FlushReset(q), id, d) && GivenLaw(DestroySplice(q), id, d)
  {
    SplicePlaces(q, id);
    CopiesConcat(q.core.giveback, q.flushGiveback, d);
    var all := q.core.giveback + q.flushGiveback;
    LengthRelisted(q.core, all, id, Places(q, id) >= 1, d, -Elsewhere(q, d));
  }

  lemma GivenStep(q: Queue, a: Action, id: nat, d: Done)
    requires GivenLaw(q, id, d) && Enabled(q, a)
    ensures GivenLaw(Apply(q, a), id, d)
  {
    if Ordinary(a) || Quiet(a) || a.Submit? || a.ResumeGo? {
      var seen := Places(q, id) >= 1;
      PlacesStep(q, a, id);
      ListsStay(q, a);
      LengthCoreStep(q, a, id, seen, d, -Elsewhere(q, d));
      LengthSeen(Apply(q, a).core, id, seen || Enqueues(q, a, id), Places(Apply(q, a), id) >= 1, d, -Elsewhere(q, d));
    } else if a.Cancel? {
      GivenCancel(q, a.id, a.status, id, d);
    } else {
      match a
      case PopGiveback => GivenPop(q, id, d);
      case HandBack(k) => GivenHand(q, k, id, d);
      case StartFlush =>
      case _ => GivenSplice(q, id, d);
    }
  }

  lemma ListsStay(q: Queue, a: Action)
    requires Enabled(q, a) && (Ordinary(a) || Quiet(a) || a.Submit? || a.ResumeGo?)
    ensures var r := Apply(q, a); r.flushGiveback == q.flushGiveback && r.inHand == q.inHand && r.given == q.given
  {
    if Quiet(a) {
      QuietStep(q, a);
    }
  }

  lemma {:induction false} GivenRun(q: Queue, acts: seq<Action>, id: nat, d: Done)
    requires GivenLaw(q, id, d) && Legal(q, acts)
    ensures GivenLaw(Run(q, acts), id, d)
    decreases |acts|
  {
    if acts != [] {
      GivenStep(q, acts[0], id, d);
      GivenRun(Apply(q, acts[0]), acts[1..], id, d);
    }
  }

  // ---------------------------------------------------------------- theorems

  /** Every URB on its way back or given back is noted in the history with that status and that length, once for each
      time, and the history has no others. */
  lemma GivenBackAsNoted(cfg: Config, acts: seq<Action>, d: Done)
    requires Legal(NewQueue(cfg), acts)
    ensures var q := Run(NewQueue(cfg), acts);
      Copies(q.core.giveback, d) + Elsewhere(q, d) == Finishes(q.core.log, d) + Withdrawals(q.core.log, d)
  {
    GivenRun(NewQueue(cfg), acts, d.id, d);
  }

  /** And at each such note the length is the number of bytes the T2 had reported for the URB's data until then (none
      while its data is not over); on a data endpoint an URB is completed with status 0 exactly when its data is
      over. */
  lemma LengthIsReported(cfg: Config, acts: seq<Action>, n: nat)
    requires Legal(NewQueue(cfg), acts) && n < |Run(NewQueue(cfg), acts).core.log|
    ensures Measured(Run(NewQueue(cfg), acts).core.log, n, cfg.control)
  {
    var log := Run(NewQueue(cfg), acts).core.log;
    if Ends(log[n]) {
      GivenRun(NewQueue(cfg), acts, log[n].urb.id, DoneOf(log[n]));
      ConfigStays(NewQueue(cfg), acts);
    }
  }

  lemma {:induction false} ConfigStays(q: Queue, acts: seq<Action>)
    requires Legal(q, acts)
    ensures Run(q, acts).core.cfg == q.core.cfg
    decreases |acts|
  {
    if acts != [] {
      ConfigKept(q, acts[0]);
      ConfigStays(Apply(q, acts[0]), acts[1..]);
    }
  }

  lemma ConfigKept(q: Queue, a: Action)
    requires Enabled(q, a)
    ensures Apply(q, a).core.cfg == q.core.cfg
  {
    if Ordinary(a) {
      OrdinaryStep(q, a, 0);
    } else if a.Submit? {
      SubmitStep(q, a, 0);
    } else if a.Cancel? {
      CancelFrame(q, a.id, a.status);
    } else if a.ResumeGo? {
      KeptResumeActivate(Granted(q.core, a.granted), 0);
    } else if Quiet(a) {
      QuietStep(q, a);
    }
  }

  /** For an IN transfer the bytes are those of one completion, the first charged to it after its data was submitted. */
  lemma {:induction false} OneCompletion(log: seq<Note>, k: Key) returns (n: nat)
    requires k.dirIn && Received(log, k).closed
    ensures n < |log| && log[n].Answered? && log[n].charge.ToLive? && log[n].charge.id == k.id
    ensures Received(log[..n], k).sent && !Received(log[..n], k).closed
    ensures Received(log, k).total == log[n].charge.size % U32_RANGE
  {
    var m := |log| - 1;
    InOpenIsEmpty(log[..m], k);
    if Received(log[..m], k).closed {
      n := OneCompletion(log[..m], k);
      assert log[..m][..n] == log[..n];
    } else {
      n := m;
    }
  }

  lemma {:induction false} InOpenIsEmpty(log: seq<Note>, k: Key)
    requires k.dirIn
    ensures !Received(log, k).closed ==> Received(log, k).total == 0
  {
    if log != [] {
      InOpenIsEmpty(log[..|log| - 1], k);
    }
  }
}
