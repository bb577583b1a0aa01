/** Commands and replies of audio/protocol_bce.c: a reply is matched to the caller waiting for it by a tag out of
    one hundred, drawn in turn. */
module AudioTags {

  import opened Arithmetic
  import opened SubmissionRing

  const TAG_COUNT := 100
  const ETIMEDOUT := -110

  type Bytes = seq<int>

  // ---------------------------------------------------------------- the tag on the wire

  function Digit(d: nat): char
    requires d < 10
  {
    '0' + d as char
  }

  /** snprintf "S%03d" */
  function Format(n: nat): (tag: string)
    requires n < TAG_COUNT
    ensures |tag| == 4
  {
    ['S', Digit(n / 100), Digit(n / 10 % 10), Digit(n % 10)]
  }

  predicate IsDigit(c: char) { '0' <= c <= '9' }

  /** How many leading characters are digits. */
  function Digits(s: string): (r: nat)
    ensures r <= |s| && (forall i :: 0 <= i < r ==> IsDigit(s[i])) && (r < |s| ==> !IsDigit(s[r]))
  {
    if s == [] || !IsDigit(s[0]) then 0 else 1 + Digits(s[1..])
  }

  function Value(s: string, acc: nat): nat
    requires forall i :: 0 <= i < |s| ==> IsDigit(s[i])
  {
    if s == [] then acc else assert IsDigit(s[0]); Value(s[1..], 10 * acc + (s[0] - '0') as nat)
  }

  /** The tail of kstrtoint in base 10: digits, then at most one newline. */
  function Unsigned(s: string): Option<nat> {
    var n := Digits(s);
    if n == 0 || (s[n..] != "" && s[n..] != "\n") then None else Some(Value(s[..n], 0))
  }

  /** The string up to its terminator. */
  function CString(s: string): string {
    if s == [] || s[0] == '\0' then [] else [s[0]] + CString(s[1..])
  }

  /** The tag check of aaudio_handle_reply: kstrtoint takes a sign, and the number must be one of the tags. */
  function Parse(tag: string): (r: Option<nat>)
    ensures r.Some? ==> r.value < TAG_COUNT
  {
    if |tag| != 4 || tag[0] != 'S' then None
    else
      var s := CString(tag[1..]);
      if s != [] && s[0] == '-' then (if Unsigned(s[1..]) == Some(0) then Some(0) else None)
      else
        var v := Unsigned(if s != [] && s[0] == '+' then s[1..] else s);
        if v.Some? && v.value < TAG_COUNT then v else None
  }

  lemma {:induction false} AllDigits(s: string)
    requires forall i :: 0 <= i < |s| ==> IsDigit(s[i])
    ensures Digits(s) == |s| && CString(s) == s
  {
    if s != [] {
      assert IsDigit(s[0]);
      AllDigits(s[1..]);
    }
  }

  lemma ValueStep(s: string, acc: nat, d: nat)
    requires s != [] && (forall i :: 0 <= i < |s| ==> IsDigit(s[i])) && d < 10 && s[0] == Digit(d)
    ensures Value(s, acc) == Value(s[1..], 10 * acc + d)
  {
  }

  lemma ThreeDigits(s: string, x: nat, y: nat, z: nat)
    requires x < 10 && y < 10 && z < 10 && s == [Digit(x), Digit(y), Digit(z)]
    ensures (forall i :: 0 <= i < |s| ==> IsDigit(s[i])) && Value(s, 0) == 100 * x + 10 * y + z
  {
    ValueStep(s, 0, x);
    ValueStep(s[1..], x, y);
    ValueStep(s[1..][1..], 10 * x + y, z);
    assert s[1..][1..][1..] == [];
  }

  /** Whatever tag goes out, the reply that echoes it is matched to the same number. */
  lemma TagRoundTrip(n: nat)
    requires n < TAG_COUNT
    ensures Parse(Format(n)) == Some(n)
  {
    var s := Format(n)[1..];
    ThreeDigits(s, n / 100, n / 10 % 10, n % 10);
    AllDigits(s);
    assert s[..3] == s && s[3..] == "";
    assert n == 10 * (n / 10) + n % 10 && n / 10 % 10 == n / 10;
  }

  // ---------------------------------------------------------------- callers, replies, timeouts

  datatype Wait = Waiting | Expired | Done(status: int)

  /** What reached the caller's buffer, and for which call the T2 had meant it. */
  datatype Reply = Reply(meantFor: nat, data: Bytes)

  /** One __aaudio_send_cmd_sync: the how-manieth tag it drew, its buffer size, what was copied into the buffer, and
      whether its wait expired. */
  datatype Call = Call(draw: nat, wait: Wait, capacity: nat, replies: seq<Reply>, late: bool)

  datatype State = State(
    tagNum: nat,
    pending: seq<Option<nat>>,      // pending_entries: the caller an entry on some stack belongs to
    calls: map<nat, Call>,
    draws: nat)                     // tags drawn so far

  datatype Step =
    | SendSync(e: nat, capacity: nat)
    | SendOnly                                      // aaudio_send: a tag is drawn, nobody waits
    | Answer(tag: string, meantFor: nat, data: Bytes)
    | Wake(e: nat)
    | Expire(e: nat)
    | CleanUp(e: nat)

  predicate Enabled(s: State, st: Step) {
    match st
    case SendSync(e, _) => e !in s.calls
    case Wake(e) => e in s.calls && s.calls[e].wait == Waiting && s.calls[e].replies != []
    case Expire(e) => e in s.calls && s.calls[e].wait == Waiting && s.calls[e].replies == []
    case CleanUp(e) => e in s.calls && s.calls[e].wait == Expired
    case _ => true
  }

  function Draw(s: State): State {
    s.(tagNum := (s.tagNum + 1) % TAG_COUNT, draws := s.draws + 1)
  }

  function Copy(data: Bytes, capacity: nat): Bytes { if |data| < capacity then data else data[..capacity] }

  function Register(s: State, e: nat, capacity: nat): State
    requires |s.pending| == TAG_COUNT && s.tagNum < TAG_COUNT
  {
    s.(pending := s.pending[s.tagNum := Some(e)], calls := s.calls[e := Call(s.draws, Waiting, capacity, [], false)])
  }

  /** The locked part of aaudio_handle_reply. */
  function Deliver(s: State, t: nat, meantFor: nat, data: Bytes): State
    requires |s.pending| == TAG_COUNT && t < TAG_COUNT
  {
    if s.pending[t].None? || s.pending[t].value !in s.calls then s
    else
      var x := s.pending[t].value;
      var c := s.calls[x];
      s.(pending := s.pending[t := None],
         calls := s.calls[x := c.(replies := c.replies + [Reply(meantFor, Copy(data, c.capacity))])])
  }

  /** aaudio_handle_reply */
  function HandleReply(s: State, tag: string, meantFor: nat, data: Bytes): State
    requires |s.pending| == TAG_COUNT
  {
    var t := Parse(tag);
    if t.None? then s else Deliver(s, t.value, meantFor, data)
  }

  function SetWait(s: State, e: nat, wait: Wait): State
    requires e in s.calls
  {
    s.(calls := s.calls[e := s.calls[e].(wait := wait, late := s.calls[e].late || wait == Expired)])
  }

  /** The locked part of the timeout path. */
  function Remove(s: State, e: nat): State
    requires e in s.calls && |s.pending| == TAG_COUNT
  {
    var t := s.calls[e].draw % TAG_COUNT;
    if s.pending[t] == Some(e) then s.(pending := s.pending[t := None]) else s
  }

  predicate Sized(s: State) { |s.pending| == TAG_COUNT && s.tagNum < TAG_COUNT }

  function Apply(s: State, st: Step): (r: State)
    requires Sized(s) && Enabled(s, st)
    ensures Sized(r)
  {
    match st
    case SendSync(e, capacity) => Register(Draw(s), e, capacity)
    case SendOnly => Draw(s)
    case Answer(tag, meantFor, data) => HandleReply(s, tag, meantFor, data)
    case Wake(e) => SetWait(s, e, Done(0))
    case Expire(e) => SetWait(s, e, Expired)
    case CleanUp(e) => SetWait(Remove(s, e), e, Done(ETIMEDOUT))
  }

  // ---------------------------------------------------------------- the law

  function TagOf(c: Call): (t: nat)
    ensures t < TAG_COUNT
  {
    c.draw % TAG_COUNT
  }

  /** An entry belongs to a caller that is still there, drew that tag and has no reply yet. */
  predicate EntryLaw(s: State, t: nat)
    requires Sized(s) && t < TAG_COUNT
  {
    s.pending[t].Some? ==>
      var x := s.pending[t].value;
      x in s.calls && TagOf(s.calls[x]) == t && !s.calls[x].wait.Done? && s.calls[x].replies == []
  }

  /** Whoever holds the entry of a call's tag drew it no earlier than that call; and for a hundred draws a call
      without a reply holds it itself. */
  predicate CallLaw(s: State, e: nat)
    requires Sized(s) && e in s.calls
  {
    var c := s.calls[e];
    var p := s.pending[TagOf(c)];
    && c.draw <= s.draws && |c.replies| <= 1
    && (p.Some? && p.value in s.calls ==> s.calls[p.value].draw >= c.draw)
    && (!c.wait.Done? && c.replies == [] && s.draws < c.draw + TAG_COUNT ==> p == Some(e))
    && ReturnLaw(c)
  }

  /** A call returns 0 exactly when its reply came before its wait expired, and -ETIMEDOUT (-110) otherwise. */
  predicate ReturnLaw(c: Call) {
    match c.wait
    case Waiting => !c.late
    case Expired => c.late
    case Done(status) => if c.late then status == -110 else status == 0 && |c.replies| == 1
  }

  predicate DrawsDistinct(s: State) {
    forall a, b :: a in s.calls && b in s.calls && a != b ==> s.calls[a].draw != s.calls[b].draw
  }

  predicate Law(s: State) {
    && Sized(s) && s.tagNum == s.draws % TAG_COUNT
    && DrawsDistinct(s)
    && (forall t :: 0 <= t < TAG_COUNT ==> EntryLaw(s, t))
    && (forall e :: e in s.calls ==> CallLaw(s, e))
  }

  lemma DrawKeeps(s: State)
    requires Law(s)
    ensures Law(Draw(s))
  {
    var r := Draw(s);
    ModStep(s.draws, TAG_COUNT);
    assert forall t :: 0 <= t < TAG_COUNT ==> EntryLaw(s, t) && EntryLaw(r, t);
    assert forall e :: e in r.calls ==> CallLaw(s, e) && CallLaw(r, e);
  }

  lemma RegisterKeeps(s: State, e: nat, capacity: nat)
    requires Law(s) && e !in s.calls
    ensures Law(Register(Draw(s), e, capacity))
  {
    DrawKeeps(s);
    var d := Draw(s);
    var r := Register(d, e, capacity);
    forall t | 0 <= t < TAG_COUNT
      ensures EntryLaw(r, t)
    {
      assert EntryLaw(d, t);
    }
    forall x | x in r.calls
      ensures CallLaw(r, x)
    {
      if x != e {
        assert CallLaw(d, x) && CallLaw(s, x);
        if TagOf(s.calls[x]) == d.tagNum && d.draws < s.calls[x].draw + TAG_COUNT {
          SameSlot(s.calls[x].draw, d.draws, TAG_COUNT);
        }
      }
    }
    forall a, b | a in r.calls && b in r.calls && a != b
      ensures r.calls[a].draw != r.calls[b].draw
    {
      assert a in s.calls ==> CallLaw(s, a);
      assert b in s.calls ==> CallLaw(s, b);
    }
  }

  lemma DeliverKeeps(s: State, t: nat, meantFor: nat, data: Bytes)
    requires Law(s) && t < TAG_COUNT
    ensures Law(Deliver(s, t, meantFor, data))
  {
    var r := Deliver(s, t, meantFor, data);
    if s.pending[t].Some? {
      assert EntryLaw(s, t);
      forall u | 0 <= u < TAG_COUNT
        ensures EntryLaw(r, u)
      {
        assert EntryLaw(s, u);
      }
      forall e | e in r.calls
        ensures CallLaw(r, e)
      {
        assert CallLaw(s, e);
      }
    }
  }

  /** Any reply, with any tag: at most one caller gets it, and it had none. */
  lemma ReplyKeeps(s: State, tag: string, meantFor: nat, data: Bytes)
    requires Law(s)
    ensures Law(HandleReply(s, tag, meantFor, data))
  {
    if Parse(tag).Some? {
      DeliverKeeps(s, Parse(tag).value, meantFor, data);
    }
  }

  lemma WaitKeeps(s: State, e: nat, wait: Wait)
    requires Law(s) && e in s.calls
    requires wait.Done? ==> s.pending[TagOf(s.calls[e])] != Some(e)
    requires s.calls[e].wait.Done? ==> wait.Done?
    requires ReturnLaw(s.calls[e].(wait := wait, late := s.calls[e].late || wait == Expired))
    ensures Law(SetWait(s, e, wait))
  {
    var r := SetWait(s, e, wait);
    forall u | 0 <= u < TAG_COUNT
      ensures EntryLaw(r, u)
    {
      assert EntryLaw(s, u);
    }
    forall x | x in r.calls
      ensures CallLaw(r, x)
    {
      assert CallLaw(s, x);
    }
  }

  /** Timing out removes the caller's own entry and nobody else's. */
  lemma CleanUpKeeps(s: State, e: nat)
    requires Law(s) && e in s.calls && s.calls[e].wait == Expired
    ensures Law(SetWait(Remove(s, e), e, Done(ETIMEDOUT)))
  {
    var r := SetWait(Remove(s, e), e, Done(ETIMEDOUT));
    forall u | 0 <= u < TAG_COUNT
      ensures EntryLaw(r, u)
    {
      assert EntryLaw(s, u);
    }
    forall x | x in r.calls
      ensures CallLaw(r, x)
    {
      assert CallLaw(s, x);
      if x != e && s.pending[TagOf(s.calls[e])] == Some(e) && TagOf(s.calls[x]) == TagOf(s.calls[e]) {
        assert CallLaw(s, e);
      }
    }
  }

  lemma StepKeeps(s: State, st: Step)
    requires Law(s) && Enabled(s, st)
    ensures Law(Apply(s, st))
  {
    match st
    case SendSync(e, capacity) => RegisterKeeps(s, e, capacity);
    case SendOnly => DrawKeeps(s);
    case Answer(tag, meantFor, data) => ReplyKeeps(s, tag, meantFor, data);
    case Wake(e) =>
      assert EntryLaw(s, TagOf(s.calls[e])) && CallLaw(s, e);
      WaitKeeps(s, e, Done(0));
    case Expire(e) =>
      assert CallLaw(s, e);
      WaitKeeps(s, e, Expired);
    case CleanUp(e) => CleanUpKeeps(s, e);
  }

  // ---------------------------------------------------------------- theorems over every run

  predicate Legal(s: State, sts: seq<Step>)
    decreases |sts|
  {
    sts == [] || (Sized(s) && Enabled(s, sts[0]) && Legal(Apply(s, sts[0]), sts[1..]))
  }

  function Run(s: State, sts: seq<Step>): State
    requires Legal(s, sts)
    decreases |sts|
  {
    if sts == [] then s else Run(Apply(s, sts[0]), sts[1..])
  }

  lemma {:induction false} RunKeeps(s: State, sts: seq<Step>)
    requires Law(s) && Legal(s, sts)
    ensures Law(Run(s, sts))
    decreases |sts|
  {
    if sts != [] {
      StepKeeps(s, sts[0]);
      RunKeeps(Apply(s, sts[0]), sts[1..]);
    }
  }

  function Boot(): State { State(0, seq(TAG_COUNT, _ => None), map[], 0) }

  lemma BootLaw()
    ensures Law(Boot())
  {
  }

  /** An entry never outlives its caller, and a caller's buffer is written at most once. */
  predicate CallersPresent(s: State) {
    && (forall t :: 0 <= t < |s.pending| && s.pending[t].Some? ==>
          s.pending[t].value in s.calls && !s.calls[s.pending[t].value].wait.Done?)
    && (forall e :: e in s.calls ==> |s.calls[e].replies| <= 1)
  }

  lemma LawMeans(s: State)
    requires Law(s)
    ensures CallersPresent(s)
  {
    forall t | 0 <= t < |s.pending| && s.pending[t].Some?
      ensures s.pending[t].value in s.calls && !s.calls[s.pending[t].value].wait.Done?
    {
      assert EntryLaw(s, t);
    }
    forall e | e in s.calls
      ensures |s.calls[e].replies| <= 1
    {
      assert CallLaw(s, e);
    }
  }

  /** So it is over every interleaving of senders, timeouts and replies, even replies with tags nobody asked for. */
  lemma EntriesNeverOutliveCallers(sts: seq<Step>)
    requires Legal(Boot(), sts)
    ensures CallersPresent(Run(Boot(), sts))
  {
    BootLaw();
    RunKeeps(Boot(), sts);
    LawMeans(Run(Boot(), sts));
  }

  /** In every run a call that returned has status 0 and exactly one reply if its wait did not expire, and -110 if it
      did; and one that still waits for its reply is not late. */
  lemma StatusTellsReply(sts: seq<Step>, e: nat)
    requires Legal(Boot(), sts) && e in Run(Boot(), sts).calls
    ensures ReturnLaw(Run(Boot(), sts).calls[e])
  {
    BootLaw();
    RunKeeps(Boot(), sts);
    assert CallLaw(Run(Boot(), sts), e);
  }

  /** A call that has returned is never touched again. */
  lemma {:induction false} ReturnedIsFinal(s: State, sts: seq<Step>, e: nat)
    requires Law(s) && Legal(s, sts) && e in s.calls && s.calls[e].wait.Done?
    ensures e in Run(s, sts).calls && Run(s, sts).calls[e] == s.calls[e]
    decreases |sts|
  {
    if sts != [] {
      if sts[0].Answer? && Parse(sts[0].tag).Some? {
        assert EntryLaw(s, Parse(sts[0].tag).value);
      }
      StepKeeps(s, sts[0]);
      ReturnedIsFinal(Apply(s, sts[0]), sts[1..], e);
    }
  }

  /** While fewer than a hundred tags were drawn since a call, its tag's entry is its own or empty: its own exactly
      as long as the caller is there and has no reply. */
  lemma TagIsOwn(s: State, e: nat)
    requires Law(s) && e in s.calls && s.draws < s.calls[e].draw + TAG_COUNT
    ensures s.pending[TagOf(s.calls[e])] in {None, Some(e)}
    ensures s.pending[TagOf(s.calls[e])] == Some(e) <==> !s.calls[e].wait.Done? && s.calls[e].replies == []
  {
    var t := TagOf(s.calls[e]);
    assert CallLaw(s, e) && EntryLaw(s, t);
    if s.pending[t].Some? {
      var x := s.pending[t].value;
      assert CallLaw(s, x);
      SameSlot(s.calls[e].draw, s.calls[x].draw, TAG_COUNT);
    }
  }

  /** The T2 echoes the tag of the call it answers, before a hundred more tags are drawn. */
  predicate Timely(s: State, st: Step) {
    st.Answer? ==>
      && st.meantFor in s.calls && st.tag == Format(TagOf(s.calls[st.meantFor]))
      && s.draws < s.calls[st.meantFor].draw + TAG_COUNT
  }

  predicate TimelyRun(s: State, sts: seq<Step>)
    requires Legal(s, sts)
    decreases |sts|
  {
    sts == [] || (Timely(s, sts[0]) && TimelyRun(Apply(s, sts[0]), sts[1..]))
  }

  predicate OwnReplies(s: State) {
    forall e, i :: e in s.calls && 0 <= i < |s.calls[e].replies| ==> s.calls[e].replies[i].meantFor == e
  }

  lemma DeliverToOwn(s: State, e: nat, data: Bytes)
    requires Law(s) && e in s.calls && s.draws < s.calls[e].draw + TAG_COUNT
    ensures var c := s.calls[e];
            Deliver(s, TagOf(c), e, data) ==
            if c.wait.Done? || c.replies != [] then s
            else s.(pending := s.pending[TagOf(c) := None],
                    calls := s.calls[e := c.(replies := [Reply(e, Copy(data, c.capacity))])])
  {
    TagIsOwn(s, e);
    var c, reply := s.calls[e], Reply(e, Copy(data, s.calls[e].capacity));
    if !c.wait.Done? && c.replies == [] {
      assert c.replies + [reply] == [reply];
    }
  }

  /** A timely answer reaches the call it is meant for if that call still waits for one, and otherwise nobody. */
  lemma TimelyAnswer(s: State, tag: string, e: nat, data: Bytes)
    requires Law(s) && Timely(s, Answer(tag, e, data))
    ensures var c := s.calls[e];
            Apply(s, Answer(tag, e, data)) ==
            if c.wait.Done? || c.replies != [] then s
            else s.(pending := s.pending[TagOf(c) := None],
                    calls := s.calls[e := c.(replies := [Reply(e, Copy(data, c.capacity))])])
  {
    TagRoundTrip(TagOf(s.calls[e]));
    DeliverToOwn(s, e, data);
  }

  /** Over every timely run a reply reaches only the command that drew its tag. */
  lemma {:induction false} RepliesReachTheirCommand(s: State, sts: seq<Step>)
    requires Law(s) && OwnReplies(s) && Legal(s, sts) && TimelyRun(s, sts)
    ensures OwnReplies(Run(s, sts))
    decreases |sts|
  {
    if sts != [] {
      if sts[0].Answer? {
        TimelyAnswer(s, sts[0].tag, sts[0].meantFor, sts[0].data);
      }
      StepKeeps(s, sts[0]);
      RepliesReachTheirCommand(Apply(s, sts[0]), sts[1..]);
    }
  }

  lemma OwnRepliesFromBoot(sts: seq<Step>)
    requires Legal(Boot(), sts) && TimelyRun(Boot(), sts)
    ensures OwnReplies(Run(Boot(), sts))
  {
    BootLaw();
    RepliesReachTheirCommand(Boot(), sts);
  }

  /** A hundred is sharp: the command that draws the hundredth tag after `e` takes over the entry, and an answer
      meant for `e` then lands in its buffer. */
  lemma HundredthDrawTakesOver(s: State, e: nat, x: nat, tag: string, data: Bytes, s1: State, s2: State)
    requires Law(s) && e in s.calls && x !in s.calls && s.draws + 1 == s.calls[e].draw + TAG_COUNT
    requires s1 == Apply(s, SendSync(x, |data| + 1))
    requires Parse(tag) == Some(TagOf(s.calls[e])) && s2 == Apply(s1, Answer(tag, e, data))
    ensures x in s2.calls && s2.calls[x].replies == [Reply(e, data)]
  {
    LapLater(s, s.calls[e].draw);
    TakeOver(Draw(s), TagOf(s.calls[e]), e, x, data);
  }

  lemma LapLater(s: State, draw: nat)
    requires s.tagNum == s.draws % TAG_COUNT && s.draws + 1 == draw + TAG_COUNT
    ensures Draw(s).tagNum == draw % TAG_COUNT
  {
    ModStep(s.draws, TAG_COUNT);
    assert (draw + TAG_COUNT) % TAG_COUNT == draw % TAG_COUNT;
  }

  lemma TakeOver(s: State, t: nat, e: nat, x: nat, data: Bytes)
    requires Sized(s) && s.tagNum == t && x !in s.calls
    ensures var r := Deliver(Register(s, x, |data| + 1), t, e, data);
            x in r.calls && r.calls[x].replies == [Reply(e, data)]
  {
  }

  // ---------------------------------------------------------------- in place

  /** struct aaudio_bce_queue_entry with the buffer it points to. */
  class Entry {
    const capacity: nat
    var data: Bytes
    var completed: bool
    constructor (capacity: nat)
      ensures this.capacity == capacity && data == [] && !completed
    {
      this.capacity := capacity;
      data, completed := [], false;
    }
  }

  class Transport {
    var tagNum: nat
    const pending: array<Entry?>

    ghost predicate Valid()
      reads this
    {
      tagNum < TAG_COUNT && pending.Length == TAG_COUNT
    }

    constructor ()
      ensures Valid() && tagNum == 0 && fresh(pending) && (forall t :: 0 <= t < TAG_COUNT ==> pending[t] == null)
    {
      tagNum := 0;
      pending := new Entry?[TAG_COUNT](_ => null);
    }

    /** aaudio_send_create_tag */
    method CreateTag() returns (n: nat, tag: string)
      requires Valid()
      modifies this
      ensures Valid() && n == tagNum == (old(tagNum) + 1) % TAG_COUNT && Parse(tag) == Some(n)
    {
      tagNum := (tagNum + 1) % TAG_COUNT;
      n, tag := tagNum, Format(tagNum);
      TagRoundTrip(n);
    }

    /** The registration in __aaudio_send_cmd_sync. */
    method Register(ent: Entry, n: nat)
      requires Valid() && n < TAG_COUNT
      modifies pending
      ensures pending[..] == old(pending[..])[n := ent]
    {
      pending[n] := ent;
    }

    /** aaudio_handle_reply: a well-formed tag with a waiter fills that waiter's buffer, truncated to its size,
        and clears the entry; any other reply changes nothing. */
    method HandleReply(tag: string, data: Bytes) returns (served: Entry?)
      requires Valid()
      modifies pending, set t | 0 <= t < pending.Length :: pending[t]
      ensures Parse(tag).None? ==> served == null
      ensures Parse(tag).Some? ==> served == old(pending[Parse(tag).value])
      ensures pending[..] == if served == null then old(pending[..]) else old(pending[..])[Parse(tag).value := null]
      ensures served != null ==> served.completed && served.data == Copy(data, served.capacity)
      ensures forall t :: 0 <= t < TAG_COUNT && old(pending[t]) != null && old(pending[t]) != served ==>
                unchanged(old(pending[t]))
    {
      var t := Parse(tag);
      served := null;
      if t.Some? && pending[t.value] != null {
        served := pending[t.value];
        served.data := if |data| < served.capacity then data else data[..served.capacity];
        served.completed := true;
        pending[t.value] := null;
      }
    }

    /** The timeout path: an entry that is no longer one's own is left alone. */
    method CleanUp(ent: Entry, n: nat)
      requires Valid() && n < TAG_COUNT
      modifies pending
      ensures pending[n] != ent
      ensures pending[..] == if old(pending[n]) == ent then old(pending[..])[n := null] else old(pending[..])
    {
      if pending[n] == ent {
        pending[n] := null;
      }
    }
  }
}
