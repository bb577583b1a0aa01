/** The request/cancel/reply protocol of vhci/queue.c: one result slot shared by whoever executes a command,
    the event handlers that deliver replies, and teardown. */
module CommandExecute {

  const ENODEV := -19
  const EIO := -5
  const ETIMEDOUT := -110
  const REPLY_BIT := 0x8000
  const CANCEL_BIT := 0x4000
  const STATUS_SUCCESS: nat := 1
  const STATUS_ABORT: nat := 4

  type Word = n: int | 0 <= n < 0x10000

  datatype Message = Message(cmd: Word, status: nat, param1: nat, param2: nat)

  /** What bce_vhci_command_queue_destroy leaves in the result. */
  const ABORTED := Message(0, STATUS_ABORT, 0, 0)

  datatype Pc =
    | Reserved                      // inside the mutex with a reservation, the slot is not armed yet
    | Waiting                       // armed: in wait_for_completion_timeout
    | Late                          // the first wait expired
    | WaitingAgain                  // the cancellation was sent
    | TooLate                       // the second wait expired
    | GivingUp(status: int)         // no reservation for the cancellation
    | Woken(again: bool)            // a wait succeeded
    | Done(status: int)

  /** One call of bce_vhci_command_queue_execute; `written` lists what was written into its result buffer. */
  datatype Call = Call(req: Message, pc: Pc, written: seq<Message>)

  datatype System = System(
    calls: map<nat, Call>,
    inside: set<nat>,               // the holder of cq->mutex, if any
    slot: set<nat>,                 // whose buffer completion.result points to, if any
    done: nat)                      // completion.completion

  datatype Step =
    | Begin(e: nat, req: Message, dead: bool, reserve: int)
    | Arm(e: nat)
    | Wake(e: nat)
    | Expire(e: nat)
    | SendCancel(e: nat, reserve: int)
    | Disarm(e: nat)
    | Check(e: nat)
    | Deliver(msg: Message)         // bce_vhci_command_queue_deliver_completion
    | Destroy                       // bce_vhci_command_queue_destroy

  predicate At(s: System, e: nat, pc: Pc) { e in s.calls && s.calls[e].pc == pc }

  predicate Enabled(s: System, t: Step) {
    match t
    case Begin(e, _, _, reserve) => e !in s.calls && s.inside == {} && reserve <= 0
    case Arm(e) => At(s, e, Reserved)
    case Wake(e) => s.done > 0 && (At(s, e, Waiting) || At(s, e, WaitingAgain))
    case Expire(e) => s.done == 0 && (At(s, e, Waiting) || At(s, e, WaitingAgain))
    case SendCancel(e, reserve) => At(s, e, Late) && reserve <= 0
    case Disarm(e) => e in s.calls && (s.calls[e].pc == TooLate || s.calls[e].pc.GivingUp?)
    case Check(e) => e in s.calls && s.calls[e].pc.Woken?
    case _ => true
  }

  function Goto(s: System, e: nat, pc: Pc): System
    requires e in s.calls
  {
    s.(calls := s.calls[e := s.calls[e].(pc := pc)])
  }

  /** The call returns and drops the mutex. */
  function Return(s: System, e: nat, status: int): System
    requires e in s.calls
  {
    Goto(s, e, Done(status)).(inside := s.inside - {e})
  }

  /** With the reply bit masked off, `res` carries the command `cmd`. */
  predicate ReplyTo(res: Message, cmd: Word) { res.cmd % REPLY_BIT == cmd }

  /** The cancellation of `cmd`: bit 14 set. */
  function Cancelling(cmd: Word): (r: Word)
    ensures r / CANCEL_BIT % 2 == 1 && r % CANCEL_BIT == cmd % CANCEL_BIT && r / REPLY_BIT == cmd / REPLY_BIT
  {
    if cmd / CANCEL_BIT % 2 == 1 then cmd else cmd + CANCEL_BIT
  }

  /** The tail of __bce_vhci_command_queue_execute. */
  function Verdict(req: Message, res: Message, again: bool): int {
    if again && ReplyTo(res, Cancelling(req.cmd)) then ETIMEDOUT
    else if !ReplyTo(res, req.cmd) then EIO
    else if res.status == STATUS_SUCCESS then 0
    else res.status
  }

  /** A message reaches the armed buffer, if there is one. */
  function Fill(s: System, msg: Message): System {
    System(map e | e in s.calls :: if e in s.slot then s.calls[e].(written := s.calls[e].written + [msg])
        else s.calls[e],
           s.inside, {}, if s.slot == {} then s.done else s.done + 1)
  }

  function Apply(s: System, t: Step): System
    requires Enabled(s, t)
  {
    match t
    case Begin(e, req, dead, reserve) =>
      if dead then s.(calls := s.calls[e := Call(req, Done(ENODEV), [])])
      else if reserve != 0 then s.(calls := s.calls[e := Call(req, Done(reserve), [])])
      else s.(calls := s.calls[e := Call(req, Reserved, [])], inside := {e})
    case Arm(e) => Goto(s, e, Waiting).(slot := {e}, done := 0)
    case Wake(e) => Goto(s, e, Woken(s.calls[e].pc == WaitingAgain)).(done := s.done - 1)
    case Expire(e) => Goto(s, e, if s.calls[e].pc == Waiting then Late else TooLate)
    case SendCancel(e, reserve) => Goto(s, e, if reserve != 0 then GivingUp(reserve) else WaitingAgain)
    case Disarm(e) =>
      Return(s, e, if s.calls[e].pc == TooLate then ETIMEDOUT else s.calls[e].pc.status).(slot := {})
    case Check(e) =>
      var c := s.calls[e];
      if c.written == [] then Return(s, e, EIO)
          else Return(s, e, Verdict(c.req, c.written[|c.written| - 1], c.pc.again))
    case Deliver(msg) => Fill(s, msg)
    case Destroy => Fill(s, ABORTED)
  }

  // ---------------------------------------------------------------- the law

  predicate Armed(pc: Pc) { pc in {Waiting, Late, WaitingAgain, TooLate} || pc.GivingUp? }

  /** The slot, the completion count and the buffer of a call agree with where the call is. */
  predicate CallLaw(s: System, e: nat)
    requires e in s.calls
  {
    var c := s.calls[e];
    && (e in s.inside <==> !c.pc.Done?)
    && (c.pc == Reserved ==> c.written == [] && s.slot == {})
    && (Armed(c.pc) ==>
          || (s.slot == {e} && s.done == 0 && c.written == [])
          || (s.slot == {} && s.done == 1 && |c.written| == 1))
    && (c.pc.Woken? ==> s.slot == {} && s.done == 0 && |c.written| == 1)
    && (c.pc.Done? ==> e !in s.slot && |c.written| <= 1)
    && (c.pc == Done(0) ==>
          && |c.written| == 1 && ReplyTo(c.written[0], c.req.cmd)
          && c.written[0].status <= STATUS_SUCCESS)
    && (c.pc.GivingUp? ==> c.pc.status != 0)
  }

  predicate ExecuteLaw(s: System) {
    && (forall e :: e in s.calls ==> CallLaw(s, e))
    && s.inside <= s.calls.Keys && s.slot <= s.inside
    && (forall a, b :: a in s.inside && b in s.inside ==> a == b)
  }

  /** A verdict of 0 needs a reply with this request's command. Status 0 is not one the T2 defines, and it is the one
      code besides SUCCESS that the C function passes on as success. */
  lemma VerdictZero(req: Message, res: Message, again: bool)
    ensures Verdict(req, res, again) == 0 <==>
            && ReplyTo(res, req.cmd) && (res.status == STATUS_SUCCESS || res.status == 0)
            && !(again && ReplyTo(res, Cancelling(req.cmd)))
  {
  }

  lemma StepKeeps(s: System, t: Step)
    requires ExecuteLaw(s) && Enabled(s, t)
    ensures ExecuteLaw(Apply(s, t))
  {
    var r := Apply(s, t);
    forall e | e in r.calls
      ensures CallLaw(r, e)
    {
      if e in s.calls {
        assert CallLaw(s, e);
      }
      if t.Check? && e == t.e {
        VerdictZero(s.calls[e].req, s.calls[e].written[0], s.calls[e].pc.again);
      }
    }
  }

  predicate Legal(s: System, ts: seq<Step>)
    decreases |ts|
  {
    ts == [] || (Enabled(s, ts[0]) && Legal(Apply(s, ts[0]), ts[1..]))
  }

  function Run(s: System, ts: seq<Step>): System
    requires Legal(s, ts)
    decreases |ts|
  {
    if ts == [] then s else Run(Apply(s, ts[0]), ts[1..])
  }

  lemma {:induction false} RunKeeps(s: System, ts: seq<Step>)
    requires ExecuteLaw(s) && Legal(s, ts)
    ensures ExecuteLaw(Run(s, ts))
    decreases |ts|
  {
    if ts != [] {
      StepKeeps(s, ts[0]);
      RunKeeps(Apply(s, ts[0]), ts[1..]);
    }
  }

  // ---------------------------------------------------------------- theorems over every run

  const INITIAL := System(map[], {}, {}, 0)

  /** Over every interleaving of callers, replies, timeouts, cancellations and teardown: a result buffer is written
      at most once, the slot never points into a call that has returned, at most one call is inside the mutex, and
      0 is returned only after a reply that carries that request's command and status SUCCESS (or the undefined
      status 0). */
  lemma ExecuteSafety(ts: seq<Step>, e: nat)
    requires Legal(INITIAL, ts) && e in Run(INITIAL, ts).calls
    ensures var s := Run(INITIAL, ts); var c := s.calls[e];
            && |c.written| <= 1
            && (c.pc.Done? ==> e !in s.slot && e !in s.inside)
            && (c.pc == Done(0) ==>
                  && c.written != [] && ReplyTo(c.written[0], c.req.cmd)
                  && c.written[0].status in {STATUS_SUCCESS, 0})
            && (forall f :: f in s.inside && f != e ==> c.pc.Done?)
  {
    RunKeeps(INITIAL, ts);
    assert CallLaw(Run(INITIAL, ts), e);
  }

  /** What a reply means for the call: `again` after the cancellation was sent. Written out in numbers: -ETIMEDOUT is
      -110, -EIO is -5, SUCCESS is 1. */
  predicate Tells(req: Message, res: Message, again: bool, status: int) {
    var answers := res.cmd % 0x8000;
    && (again && answers == Cancelling(req.cmd) ==> status == -110)
    && (!(again && answers == Cancelling(req.cmd)) && answers != req.cmd ==> status == -5)
    && (!(again && answers == Cancelling(req.cmd)) && answers == req.cmd ==>
          status == if res.status == 1 then 0 else res.status)
  }

  lemma VerdictTells(req: Message, res: Message, again: bool)
    ensures Tells(req, res, again, Verdict(req, res, again))
  {
  }

  /** In every run a call whose wait succeeded returns what its one reply means. */
  lemma CheckTells(ts: seq<Step>, e: nat)
    requires Legal(INITIAL, ts) && Enabled(Run(INITIAL, ts), Check(e))
    ensures var c := Run(INITIAL, ts).calls[e]; var r := Apply(Run(INITIAL, ts), Check(e)).calls[e];
      && |c.written| == 1 && r.written == c.written && r.pc.Done?
      && Tells(c.req, c.written[0], c.pc.again, r.pc.status)
  {
    RunKeeps(INITIAL, ts);
    var s := Run(INITIAL, ts);
    assert CallLaw(s, e);
    VerdictTells(s.calls[e].req, s.calls[e].written[0], s.calls[e].pc.again);
  }

  /** A call that gave up returns -ETIMEDOUT after the second timeout, and otherwise the failed reservation's status. */
  lemma DisarmTells(s: System, e: nat)
    requires Enabled(s, Disarm(e))
    ensures var r := Apply(s, Disarm(e));
      && r.calls[e].pc == Done(if s.calls[e].pc == TooLate then -110 else s.calls[e].pc.status) && r.slot == {}
  {
  }

  /** A call that finds the controller dead returns -ENODEV (-19), one that gets no reservation that status; any other
      goes in, alone. */
  lemma BeginTells(s: System, e: nat, req: Message, dead: bool, reserve: int)
    requires Enabled(s, Begin(e, req, dead, reserve))
    ensures var r := Apply(s, Begin(e, req, dead, reserve));
      && e in r.calls
      && r.calls == s.calls[e := Call(req, r.calls[e].pc, [])]
      && r.calls[e].pc == (if dead then Done(-19) else if reserve != 0 then Done(reserve) else Reserved)
      && r.inside == (if dead || reserve != 0 then {} else {e}) && r.slot == s.slot
  {
  }

  /** The first message that arrives while a call is armed reaches its buffer, and the call can go on; teardown leaves
      an ABORT (status 4) there. Nobody else's buffer is touched. */
  lemma ArmedHears(ts: seq<Step>, e: nat, msg: Message)
    requires Legal(INITIAL, ts) && Run(INITIAL, ts).slot == {e}
    ensures var s := Run(INITIAL, ts); var r := Apply(s, Deliver(msg)); var x := Apply(s, Destroy);
      && e in s.calls && e in r.calls && e in x.calls
      && r.calls[e].written == [msg] && x.calls[e].written == [Message(0, 4, 0, 0)]
      && r.slot == x.slot == {} && r.done == x.done == 1
      && (s.calls[e].pc in {Waiting, WaitingAgain} ==> Enabled(r, Wake(e)) && Enabled(x, Wake(e)))
      && (forall f :: f in s.calls && f != e ==>
            f in r.calls && f in x.calls && r.calls[f] == s.calls[f] && x.calls[f] == s.calls[f])
  {
    RunKeeps(INITIAL, ts);
    var s := Run(INITIAL, ts);
    assert e in s.slot;
    assert CallLaw(s, e);
    assert [] + [msg] == [msg] && [] + [ABORTED] == [ABORTED];
  }

  /** Nothing touches the record of a call after it returned: neither its buffer nor its status. */
  lemma {:induction false} ReturnedIsFinal(s: System, ts: seq<Step>, e: nat)
    requires ExecuteLaw(s) && Legal(s, ts) && e in s.calls && s.calls[e].pc.Done?
    ensures e in Run(s, ts).calls && Run(s, ts).calls[e] == s.calls[e]
    decreases |ts|
  {
    if ts != [] {
      assert CallLaw(s, e);
      StepKeeps(s, ts[0]);
      assert Apply(s, ts[0]).calls[e] == s.calls[e];
      ReturnedIsFinal(Apply(s, ts[0]), ts[1..], e);
    }
  }

  /** What was written once stays: later replies reach no buffer that already holds one. */
  lemma {:induction false} FirstReplyStays(s: System, ts: seq<Step>, e: nat)
    requires ExecuteLaw(s) && Legal(s, ts) && e in s.calls && s.calls[e].written != []
    ensures e in Run(s, ts).calls && Run(s, ts).calls[e].written == s.calls[e].written
    decreases |ts|
  {
    if ts != [] {
      assert CallLaw(s, e);
      StepKeeps(s, ts[0]);
      assert CallLaw(Apply(s, ts[0]), e);
      assert Apply(s, ts[0]).calls[e].written == s.calls[e].written;
      FirstReplyStays(Apply(s, ts[0]), ts[1..], e);
    }
  }

  /** A reply nobody waits for changes nothing at all. */
  lemma LateReplyDropped(s: System, msg: Message)
    requires s.slot == {}
    ensures Apply(s, Deliver(msg)) == s && Apply(s, Destroy) == s
  {
    assert Fill(s, msg).calls == s.calls;
    assert Fill(s, ABORTED).calls == s.calls;
  }

  /** The documented law "0 only for SUCCESS" fails exactly for the status code 0, which is passed on unchanged. */
  lemma StatusZeroPassesAsSuccess(req: Message)
    requires req.cmd < REPLY_BIT
    ensures Verdict(req, Message(req.cmd + REPLY_BIT, 0, 0, 0), false) == 0
  {
  }

  // ---------------------------------------------------------------- the queue, updated in place

  class Buffer {
    var written: seq<Message>
  }

  /** The reply that decides, out of those arriving in one period: only the first finds the slot armed. */
  function First(msgs: seq<Message>): (r: seq<Message>)
    ensures |r| <= 1 && r <= msgs && (r == [] <==> msgs == [])
  {
    msgs[..if msgs == [] then 0 else 1]
  }

  class CommandQueue {
    var result: Buffer?             // completion.result
    var done: nat                   // completion.completion

    constructor ()
      ensures result == null && done == 0
    {
      result, done := null, 0;
    }

    method DeliverCompletion(msg: Message)
      modifies this, result
      ensures result == null
      ensures old(result) == null ==> done == old(done)
      ensures old(result) != null ==> done == old(done) + 1 && old(result).written == old(result.written) + [msg]
    {
      if result != null {
        result.written := result.written + [msg];
        done := done + 1;
        result := null;
      }
    }

    /** The first half of bce_vhci_command_queue_destroy: a waiting caller is woken with ABORT. */
    method Destroy()
      modifies this, result
      ensures result == null
      ensures old(result) == null ==> done == old(done)
      ensures old(result) != null ==>
                done == old(done) + 1 && old(result).written == old(result.written) + [Message(0, 4, 0, 0)]
    {
      if result != null {
        result.written := result.written + [ABORTED];
        done := done + 1;
        result := null;
      }
    }

    /** Every message of `msgs` is delivered, one critical section each. */
    method DeliverAll(msgs: seq<Message>)
      modifies this, result
      ensures result == if msgs == [] then old(result) else null
      ensures old(result) != null ==> old(result).written == old(result.written) + First(msgs)
      ensures done == old(done) + if old(result) == null then 0 else |First(msgs)|
    {
      for i := 0 to |msgs|
        invariant result == if i == 0 then old(result) else null
        invariant old(result) != null ==> old(result).written == old(result.written) + First(msgs[..i])
        invariant done == old(done) + if old(result) == null then 0 else |First(msgs[..i])|
      {
        DeliverCompletion(msgs[i]);
        assert First(msgs[..i + 1]) == if i == 0 then [msgs[0]] else First(msgs[..i]);
      }
      assert msgs[..|msgs|] == msgs;
    }

    /** The tail of the call, once a wait has succeeded: compare the reply with what was asked. */
    method Judge(req: Message, res: Buffer, again: bool) returns (status: int)
      requires |res.written| == 1
      ensures status == Verdict(req, res.written[0], again) && Tells(req, res.written[0], again, status)
    {
      var reply := res.written[0];
      if again && ReplyTo(reply, Cancelling(req.cmd)) {
        return ETIMEDOUT;
      }
      if !ReplyTo(reply, req.cmd) {
        return EIO;
      }
      status := if reply.status == STATUS_SUCCESS then 0 else reply.status;
    }

    /** The part after the first timeout, up to the end of the second wait. */
    method CancelAndWait(res: Buffer, reserve: int, second: seq<Message>, last: seq<Message>)
      returns (replied: bool, status: int)
      requires result == res && res.written == [] && done == 0
      modifies this, res
      ensures result == null
      ensures replied == (reserve == 0 && second != [])
      ensures replied ==> res.written == [second[0]]
      ensures !replied ==> res.written == First(last) && status == if reserve != 0 then reserve else -110
    {
      replied, status := false, reserve;
      if reserve == 0 {
        DeliverAll(second);
        replied, status := done > 0, ETIMEDOUT;
      }
      if !replied {
        DeliverAll(last);
        result := null;
      }
    }

    /** One whole call. The messages other threads deliver are given by the window they fall into: before the first
        wait ends, between the first timeout and the end of the second wait, and between the second timeout (or the
        failed reservation) and the clearing of the slot. Whatever arrives, the slot is empty afterwards and the
        buffer holds only the first message that arrived while the slot was armed. */
    method Execute(req: Message, res: Buffer, dead: bool, reserve: int, first: seq<Message>, reserveCancel: int,
                   second: seq<Message>, last: seq<Message>) returns (status: int)
      requires result == null && res.written == []
      modifies this, res
      ensures result == null
      ensures dead || reserve != 0 ==> status == (if dead then -19 else reserve) && res.written == []
      ensures !dead && reserve == 0 && first != [] ==>
                Tells(req, first[0], false, status) && res.written == [first[0]]
      ensures !dead && reserve == 0 && first == [] && reserveCancel == 0 && second != [] ==>
                Tells(req, second[0], true, status) && res.written == [second[0]]
      ensures !dead && reserve == 0 && first == [] && (reserveCancel != 0 || second == []) ==>
                && status == (if reserveCancel != 0 then reserveCancel else -110)
                && res.written == First(last)
    {
      if dead {
        return ENODEV;
      }
      if reserve != 0 {
        return reserve;
      }
      result, done := res, 0;
      DeliverAll(first);
      var replied, again := done > 0, false;
      if !replied {
        replied, status := CancelAndWait(res, reserveCancel, second, last);
        again := true;
      }
      if replied {
        status := Judge(req, res, again);
      }
    }
  }
}
