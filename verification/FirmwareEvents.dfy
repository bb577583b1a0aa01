/** The firmware-event worker of vhci/vhci.c: a loop over the harvested messages with one element of lookahead,
    so that a request directly followed by its cancellation is answered once, with ABORT. */
module FirmwareEvents {
  import opened Arithmetic
  import opened SubmissionRing
  import CommandExecute

  /** BCE_COMPLETION_ABORTED */
  const COMPLETION_ABORTED := 2

  datatype Message = Message(cmd: CommandExecute.Word, status: nat, param1: nat, param2: nat)

  /** One completion of the event queue and the message in its slot. */
  datatype Item = Item(aborted: bool, msg: Message)

  /** What the worker does for a message: handle it and answer with the result, or answer ABORT. */
  datatype Act = Handled(msg: Message) | Cancelled(msg: Message)

  predicate IsCancelOf(m: Message, c: Message) { c.cmd == CommandExecute.Cancelling(m.cmd) && c.param1 == m.param1 }

  /** The cancellation of a command below 0x4000 is that command with 0x4000 added, for the same device and endpoint; no
      message cancels itself. */
  lemma CancelMeans(m: Message, c: Message)
    requires m.cmd < 0x4000
    ensures IsCancelOf(m, c) <==> c.cmd == m.cmd + 0x4000 && c.param1 == m.param1
    ensures !IsCancelOf(m, m)
  {
  }

  // ---------------------------------------------------------------- what is meant

  /** A request directly followed by its cancellation is aborted; every other message is handled, in order. */
  function Ideal(ms: seq<Message>): seq<Act> {
    if ms == [] then []
    else if |ms| >= 2 && IsCancelOf(ms[0], ms[1]) then [Cancelled(ms[0])] + Ideal(ms[2..])
    else [Handled(ms[0])] + Ideal(ms[1..])
  }

  // ---------------------------------------------------------------- what the loop does

  /** The loop when no message is held back. */
  function Handle(items: seq<Item>): seq<Act>
    decreases |items|, 0
  {
    if items == [] then []
    else if items[0].aborted then Handle(items[1..])
    else HandleCurrent(items[0].msg, items[1..])
  }

  /** The loop with a current message: look one completion ahead, aborted or not. */
  function HandleCurrent(m: Message, rest: seq<Item>): seq<Act>
    decreases |rest|, 1
  {
    if rest == [] then [Handled(m)]
    else if !rest[0].aborted && IsCancelOf(m, rest[0].msg) then [Cancelled(m)] + Handle(rest[1..])
    else [Handled(m)] + HandleCurrent(rest[0].msg, rest[1..])
  }

  /** The worker's counter of event buffers to post again. */
  function Count(acts: seq<Act>): nat {
    if acts == [] then 0 else (if acts[0].Handled? then 1 else 2) + Count(acts[1..])
  }

  function Messages(items: seq<Item>): seq<Message> {
    if items == [] then []
    else (if items[0].aborted then [] else [items[0].msg]) + Messages(items[1..])
  }

  predicate AbortFree(items: seq<Item>) { forall i :: 0 <= i < |items| ==> !items[i].aborted }

  lemma CountConcat(a: Act, acts: seq<Act>)
    ensures Count([a] + acts) == (if a.Handled? then 1 else 2) + Count(acts)
  {
    assert ([a] + acts)[1..] == acts;
  }

  lemma {:induction false} IdealCount(ms: seq<Message>)
    ensures Count(Ideal(ms)) == |ms|
    decreases |ms|
  {
    if ms != [] {
      if |ms| >= 2 && IsCancelOf(ms[0], ms[1]) {
        IdealCount(ms[2..]);
        CountConcat(Cancelled(ms[0]), Ideal(ms[2..]));
      } else {
        IdealCount(ms[1..]);
        CountConcat(Handled(ms[0]), Ideal(ms[1..]));
      }
    }
  }

  /** No aborted completion directly follows a message that is still waiting to be handled. */
  predicate AbortsApart(items: seq<Item>)
    decreases |items|, 0
  {
    if items == [] then true
    else if items[0].aborted then AbortsApart(items[1..])
    else AbortsApartAfter(items[0].msg, items[1..])
  }

  predicate AbortsApartAfter(m: Message, rest: seq<Item>)
    decreases |rest|, 1
  {
    if rest == [] then true
    else if rest[0].aborted then false
    else if IsCancelOf(m, rest[0].msg) then AbortsApart(rest[1..])
    else AbortsApartAfter(rest[0].msg, rest[1..])
  }

  lemma {:induction false} ApartHandle(items: seq<Item>)
    requires AbortsApart(items)
    ensures Handle(items) == Ideal(Messages(items))
    decreases |items|, 0
  {
    if items == [] {
    } else if items[0].aborted {
      ApartHandle(items[1..]);
      assert Messages(items) == Messages(items[1..]);
    } else {
      ApartCurrent(items[0].msg, items[1..]);
    }
  }

  lemma {:induction false} ApartCurrent(m: Message, rest: seq<Item>)
    requires AbortsApartAfter(m, rest)
    ensures HandleCurrent(m, rest) == Ideal([m] + Messages(rest))
    decreases |rest|, 1
  {
    var ms := [m] + Messages(rest);
    if rest != [] {
      var c := rest[0].msg;
      assert ms[1..] == Messages(rest) == [c] + Messages(rest[1..]);
      assert ms[2..] == Messages(rest[1..]);
      if IsCancelOf(m, c) {
        ApartHandle(rest[1..]);
      } else {
        ApartCurrent(c, rest[1..]);
      }
    }
  }

  lemma {:induction false} CountHandle(items: seq<Item>)
    ensures Count(Handle(items)) >= |Messages(items)|
    ensures !AbortsApart(items) ==> Count(Handle(items)) > |Messages(items)|
    decreases |items|, 0
  {
    if items == [] {
    } else if items[0].aborted {
      CountHandle(items[1..]);
    } else {
      CountCurrent(items[0].msg, items[1..]);
    }
  }

  lemma {:induction false} CountCurrent(m: Message, rest: seq<Item>)
    ensures Count(HandleCurrent(m, rest)) >= 1 + |Messages(rest)|
    ensures !AbortsApartAfter(m, rest) ==> Count(HandleCurrent(m, rest)) > 1 + |Messages(rest)|
    decreases |rest|, 1
  {
    if rest != [] {
      if !rest[0].aborted && IsCancelOf(m, rest[0].msg) {
        CountHandle(rest[1..]);
        CountConcat(Cancelled(m), Handle(rest[1..]));
      } else {
        CountCurrent(rest[0].msg, rest[1..]);
        CountConcat(Handled(m), HandleCurrent(rest[0].msg, rest[1..]));
      }
    }
  }

  /** The loop does what is meant exactly when no aborted completion is looked at as a lookahead: there the
      worker goes on to handle whatever the aborted buffer holds. */
  lemma WorkerMeansIdealIff(items: seq<Item>)
    ensures Handle(items) == Ideal(Messages(items)) <==> AbortsApart(items)
  {
    if AbortsApart(items) {
      ApartHandle(items);
    } else {
      CountHandle(items);
      IdealCount(Messages(items));
    }
  }

  lemma StaleBufferHandled(m: Message, stale: Message)
    ensures Handle([Item(false, m), Item(true, stale)]) == [Handled(m), Handled(stale)]
    ensures Ideal(Messages([Item(false, m), Item(true, stale)])) == [Handled(m)]
  {
    var items := [Item(false, m), Item(true, stale)];
    assert items[1..] == [Item(true, stale)];
    assert items[1..][1..] == [];
    assert HandleCurrent(m, items[1..]) == [Handled(m)] + HandleCurrent(stale, []);
    assert Messages(items[1..]) == [];
    assert Messages(items) == [m];
  }

  lemma {:induction false} AbortFreeIsApart(items: seq<Item>)
    requires AbortFree(items)
    ensures AbortsApart(items) && |Messages(items)| == |items|
    ensures items != [] ==> AbortsApartAfter(items[0].msg, items[1..])
    decreases |items|
  {
    if items != [] {
      AbortFreeIsApart(items[1..]);
      if |items| >= 2 {
        AbortFreeIsApart(items[2..]);
        assert items[1..][1..] == items[2..];
      }
    }
  }

  /** On an abort-free batch the worker refines the recursive specification, and the number of buffers it
      posts again is the length of the batch. */
  lemma AbortFreeBatch(items: seq<Item>)
    requires AbortFree(items)
    ensures Handle(items) == Ideal(Messages(items)) && Count(Handle(items)) == |items|
  {
    AbortFreeIsApart(items);
    ApartHandle(items);
    IdealCount(Messages(items));
  }

  // ---------------------------------------------------------------- in place

  /** The completions from the k-th on, each with the message the device wrote for it. */
  ghost function ItemsFrom(ms: seq<Message>, records: seq<Record>, k: nat): seq<Item>
    requires k <= |ms| == |records|
  {
    seq(|ms| - k, i requires 0 <= i < |ms| - k => Item(records[k + i].status == COMPLETION_ABORTED, ms[k + i]))
  }

  lemma ItemsStep(ms: seq<Message>, records: seq<Record>, k: nat)
    requires k < |ms| == |records|
    ensures var items := ItemsFrom(ms, records, k);
      && items[0] == Item(records[k].status == COMPLETION_ABORTED, ms[k])
      && items[1..] == ItemsFrom(ms, records, k + 1)
  {
  }

  class Worker {
    const sq: SubmissionQueue
    const data: array<Message>
    ghost var messages: seq<Message>    // what the device wrote for each submission, oldest first

    constructor (sq: SubmissionQueue, data: array<Message>)
      ensures this.sq == sq && this.data == data
    {
      this.sq := sq;
      this.data := data;
    }

    /** The message of every completion not released yet is in the slot of its submission. */
    ghost predicate Valid()
      reads this, sq, sq.completionData, data
    {
      && sq.Valid() && data.Length == sq.elCount
      && |messages| == |sq.fifo.harvested|
      && forall k :: sq.fifo.released <= k < |messages| ==> data[k % sq.elCount] == messages[k]
    }

    /** What the loop has to do for the completions that were not taken yet. */
    ghost function Left(msg2: Option<Message>): seq<Act>
      reads this, sq
      requires sq.fifo.taken <= |messages| == |sq.fifo.harvested|
    {
      ToDo(msg2, ItemsFrom(messages, sq.fifo.harvested, sq.fifo.taken))
    }

    /** The ring moved on: exactly the completion of a message held back is taken and not released. */
    ghost predicate Moved(f: Fifo, msg2: Option<Message>)
      reads this, sq
    {
      && sq.fifo == f.(taken := sq.fifo.taken, released := sq.fifo.released)
      && f.released <= sq.fifo.released
      && sq.fifo.taken == (sq.fifo.released + if msg2.Some? then 1 else 0) <= |messages|
      && (msg2.Some? ==> msg2.value == messages[sq.fifo.released])
    }

    /** Take the completion after the one at hand, if there is one, and read the message in the slot after head. */
    method LookAhead() returns (aborted: bool, ahead: Option<Message>)
      requires Valid() && sq.fifo.taken == sq.fifo.released + 1 <= |messages|
      modifies sq
      ensures Valid()
      ensures ahead.None? <==> old(sq.fifo).taken == |messages|
      ensures ahead.None? ==> sq.fifo == old(sq.fifo)
      ensures ahead.Some? ==>
                && ahead.value == messages[old(sq.fifo).taken]
                && aborted == (sq.fifo.harvested[old(sq.fifo).taken].status == COMPLETION_ABORTED)
                && sq.fifo == old(sq.fifo).(taken := old(sq.fifo).taken + 1)
    {
      ghost var k := sq.fifo.released;
      ModStep(k, sq.elCount);
      aborted, ahead := false, None;
      var cq := sq.NextCompletion();
      if cq.Some? {
        aborted, ahead := cq.value.status == COMPLETION_ABORTED, Some(data[(sq.head + 1) % sq.elCount]);
        assert ahead.value == data[(k + 1) % sq.elCount] == messages[k + 1];
      }
    }

    /** bce_notify_submission_complete */
    method Release()
      requires Valid() && sq.fifo.released < sq.fifo.taken
      modifies sq
      ensures Valid() && sq.fifo == old(sq.fifo).(released := old(sq.fifo).released + 1)
    {
      sq.NotifyComplete();
    }

    /** Look one completion ahead, act, release what was consumed. */
    method ActOn(msg: Message) returns (act: Act, msg2: Option<Message>)
      requires Valid() && sq.fifo.taken == sq.fifo.released + 1 <= |messages|
      modifies sq
      ensures Valid()
      ensures var f := old(sq.fifo);
        if f.taken == |messages| then
          act == Handled(msg) && msg2 == None && sq.fifo == f.(released := f.taken)
        else if f.harvested[f.taken].status != COMPLETION_ABORTED && IsCancelOf(msg, messages[f.taken]) then
          act == Cancelled(msg) && msg2 == None && sq.fifo == f.(taken := f.taken + 1, released := f.taken + 1)
        else
          act == Handled(msg) && msg2 == Some(messages[f.taken])
              && sq.fifo == f.(taken := f.taken + 1, released := f.taken)
    {
      var aborted;
      aborted, msg2 := LookAhead();
      if msg2.Some? && !aborted && IsCancelOf(msg, msg2.value) {
        Release();
        Release();
        return Cancelled(msg), None;
      }
      act := Handled(msg);
      Release();
    }

    /** The part of the loop below the choice of a message. */
    method HandleOne(msg: Message) returns (act: Act, msg2: Option<Message>)
      requires Valid() && sq.fifo.taken == sq.fifo.released + 1 <= |messages|
      modifies sq
      ensures Valid() && Moved(old(sq.fifo), msg2) && sq.fifo.released > old(sq.fifo).released
      ensures old(Left(Some(msg))) == [act] + Left(msg2)
    {
      CurrentStep(msg, messages, sq.fifo.harvested, sq.fifo.taken);
      act, msg2 := ActOn(msg);
    }

    /** Nothing left, an aborted completion to skip, or a message. */
    method TakeNext() returns (msg: Option<Message>, more: bool)
      requires Valid() && sq.fifo.taken == sq.fifo.released
      modifies sq
      ensures Valid()
      ensures var f := old(sq.fifo);
        if f.taken == |messages| then msg == None && !more && sq.fifo == f
        else if f.harvested[f.taken].status == COMPLETION_ABORTED then
          msg == None && more && sq.fifo == f.(taken := f.taken + 1, released := f.taken + 1)
        else msg == Some(messages[f.taken]) && more && sq.fifo == f.(taken := f.taken + 1)
    {
      var cq := sq.NextCompletion();
      if cq.None? {
        return None, false;
      }
      if cq.value.status == COMPLETION_ABORTED {
        sq.NotifyComplete();
        return None, true;
      }
      return Some(data[sq.head]), true;
    }

    /** The choice of a message when none is held back. */
    method Fetch() returns (msg: Option<Message>, more: bool)
      requires Valid() && sq.fifo.taken == sq.fifo.released
      modifies sq
      ensures Valid() && Moved(old(sq.fifo), msg) && old(Left(None)) == Left(msg)
      ensures !more ==> msg == None && sq.fifo == old(sq.fifo) && sq.fifo.taken == |messages|
      ensures more && msg.None? ==> sq.fifo.released > old(sq.fifo).released
    {
      FetchStep(messages, sq.fifo.harvested, sq.fifo.taken);
      msg, more := TakeNext();
    }

    /** bce_vhci_handle_firmware_events_w, without the effects of the handled messages: every completion is
        taken and released once, every message is read from its own slot. */
    method HandleEvents() returns (acts: seq<Act>, cnt: nat)
      requires Valid() && sq.fifo.taken == sq.fifo.released
      modifies sq
      ensures Valid() && cnt == Count(acts)
      ensures acts == Handle(ItemsFrom(messages, old(sq.fifo).harvested, old(sq.fifo).taken))
      ensures sq.fifo == old(sq.fifo).(taken := |messages|, released := |messages|)
    {
      ghost var f := sq.fifo;
      ghost var all := Left(None);
      acts, cnt := [], 0;
      var msg2: Option<Message> := None;
      var more := true;
      while more
        invariant Valid() && Moved(f, msg2)
        invariant acts + Left(msg2) == all
        invariant !more ==> msg2.None? && sq.fifo.taken == |messages|
        invariant cnt == Count(acts)
        decreases more, |messages| - sq.fifo.released
      {
        var msg := msg2;
        if msg.None? {
          msg, more := Fetch();
        }
        if msg.Some? {
          var act;
          act, msg2 := HandleOne(msg.value);
          Append(acts, act, Left(msg2));
          acts := acts + [act];
          cnt := cnt + if act.Handled? then 1 else 2;
        }
      }
      FetchStep(messages, sq.fifo.harvested, sq.fifo.taken);
    }
  }

  /** What the loop still has to do. */
  ghost function ToDo(msg2: Option<Message>, items: seq<Item>): seq<Act> {
    if msg2.Some? then HandleCurrent(msg2.value, items) else Handle(items)
  }

  lemma FetchStep(ms: seq<Message>, hs: seq<Record>, k: nat)
    requires k <= |ms| == |hs|
    ensures Handle(ItemsFrom(ms, hs, k)) ==
            if k == |ms| then []
            else if hs[k].status == COMPLETION_ABORTED then Handle(ItemsFrom(ms, hs, k + 1))
            else HandleCurrent(ms[k], ItemsFrom(ms, hs, k + 1))
  {
    if k < |ms| {
      ItemsStep(ms, hs, k);
    }
  }

  lemma CurrentStep(m: Message, ms: seq<Message>, hs: seq<Record>, k: nat)
    requires k <= |ms| == |hs|
    ensures HandleCurrent(m, ItemsFrom(ms, hs, k)) ==
            if k == |ms| then [Handled(m)] + Handle(ItemsFrom(ms, hs, k))
            else if hs[k].status != COMPLETION_ABORTED && IsCancelOf(m, ms[k])
            then [Cancelled(m)] + Handle(ItemsFrom(ms, hs, k + 1))
            else [Handled(m)] + HandleCurrent(ms[k], ItemsFrom(ms, hs, k + 1))
  {
    if k < |ms| {
      ItemsStep(ms, hs, k);
    }
  }

  lemma {:induction false} Append(acts: seq<Act>, a: Act, rest: seq<Act>)
    ensures Count(acts + [a]) == Count(acts) + if a.Handled? then 1 else 2
    ensures acts + ([a] + rest) == (acts + [a]) + rest
  {
    if acts != [] {
      Append(acts[1..], a, rest);
      assert (acts + [a])[1..] == acts[1..] + [a];
    } else {
      assert acts + [a] == [a];
    }
  }
}
