/** The interpolated hardware pointer of audio/pcm.c. Times are in nanoseconds, positions in frames. */
module AudioPointer {
  import opened Arithmetic

  const NSEC_PER_SEC := 1_000_000_000

  /** The fields of struct aaudio_stream behind the pointer; `length` is buffer_time_ns, `size` is buffer_size. */
  datatype Stream = Stream(
    started: bool,
    waitingForFirstTs: bool,
    remoteTimestamp: int,
    frameMin: int,
    length: int,
    size: nat)

  /** aaudio_pcm_prepare */
  function BufferTime(size: nat, rate: nat): nat
    requires rate > 0
  {
    NSEC_PER_SEC * size / rate
  }

  /** The position `t` nanoseconds after the start of a pass, wrapping at the end of the buffer. */
  function Interpolate(t: int, length: int, size: nat): int
    requires length > 0
  {
    (t % length) * size / length
  }

  function Start(s: Stream): Stream { s.(waitingForFirstTs := true, frameMin := 0, started := true) }

  function Timestamp(s: Stream, ts: int): Stream { s.(remoteTimestamp := ts, waitingForFirstTs := false) }

  predicate Live(s: Stream, now: int) {
    s.started && !s.waitingForFirstTs && now >= s.remoteTimestamp && s.length > 0
  }

  /** aaudio_pcm_pointer: the new state and the reported position. */
  function Poll(s: Stream, now: int): (Stream, int) {
    if !Live(s, now) then (s, 0)
    else
      var t := now - s.remoteTimestamp;
      var frames := Interpolate(t, s.length, s.size);
      if t < s.length then
        if frames < s.frameMin then (s, s.frameMin) else (s.(frameMin := 0), frames)
      else if t < 2 * s.length then (s.(frameMin := frames), frames)
      else (s.(frameMin := 0), frames)
  }

  // ---------------------------------------------------------------- arithmetic of one position

  /** The reported frame is the one whose share of the buffer time contains the moment within the pass. */
  lemma InterpolateBounds(t: int, length: int, size: nat)
    requires length > 0 && size > 0
    ensures 0 <= Interpolate(t, length, size) < size
    ensures var f := Interpolate(t, length, size); length * f <= (t % length) * size < length * (f + 1)
  {
    var f := Interpolate(t, length, size);
    var m := t % length;
    MulMonotone(size, 0, m);
    MulMonotone(size, m, length - 1);
    DivBounds(m * size, length);
    DivMonotone(0, m * size, length);
    assert length * (f + 1) == length * f + length;
    if f >= size {
      MulMonotone(length, size, f);
    }
  }

  /** Within a lap the interpolation never runs backwards. */
  lemma InterpolateMonotone(t: int, u: int, length: int, size: nat)
    requires length > 0 && t <= u && t / length == u / length
    ensures Interpolate(t, length, size) <= Interpolate(u, length, size)
  {
    assert t % length == t - length * (t / length) && u % length == u - length * (u / length);
    MulMonotone(size, t % length, u % length);
    DivMonotone((t % length) * size, (u % length) * size, length);
  }

  /** The product the C code forms fits 64 bits whenever the whole buffer's does. */
  lemma ProductFits(t: int, size: nat, rate: nat)
    requires rate > 0 && BufferTime(size, rate) > 0 && BufferTime(size, rate) * size < 0x8000_0000_0000_0000
    ensures 0 <= (t % BufferTime(size, rate)) * size < 0x8000_0000_0000_0000
  {
    var length := BufferTime(size, rate);
    MulMonotone(size, 0, t % length);
    MulMonotone(size, t % length, length);
  }

  // ---------------------------------------------------------------- runs of timestamps and polls

  datatype Event = Stamp(ts: int) | Ask(now: int)

  /** A poll as seen from outside: when, against which timestamp, with what answer. */
  datatype Answer = Answer(now: int, remote: int, position: int)

  function Run(s: Stream, events: seq<Event>): (Stream, seq<Answer>)
    decreases |events|
  {
    if events == [] then (s, [])
    else match events[0]
      case Stamp(ts) => Run(Timestamp(s, ts), events[1..])
      case Ask(now) =>
        var (s1, position) := Poll(s, now);
        var (s2, rest) := Run(s1, events[1..]);
        (s2, [Answer(now, s.remoteTimestamp, position)] + rest)
  }

  predicate Sane(s: Stream) { s.size > 0 && 0 <= s.frameMin < s.size }

  /** Over any run whatsoever every reported position lies in the buffer. */
  lemma {:induction false} PositionInRange(s: Stream, events: seq<Event>)
    requires Sane(s)
    ensures Sane(Run(s, events).0)
    ensures forall i :: 0 <= i < |Run(s, events).1| ==> 0 <= Run(s, events).1[i].position < s.size
    decreases |events|
  {
    if events != [] {
      match events[0]
      case Stamp(ts) => PositionInRange(Timestamp(s, ts), events[1..]);
      case Ask(now) =>
        if Live(s, now) {
          InterpolateBounds(now - s.remoteTimestamp, s.length, s.size);
        }
        PositionInRange(Poll(s, now).0, events[1..]);
    }
  }

  /** In which pass after its timestamp a poll falls. */
  function Lap(a: Answer, length: int): int
    requires length > 0
  {
    (a.now - a.remote) / length
  }

  /** The stream goes on playing from `a` to `b`: both polls fall into the same lap after the same timestamp, or
      `a` was in the overrun lap and `b` is in the lap that the late timestamp opened. */
  predicate Continues(a: Answer, b: Answer, length: int)
    requires length > 0
  {
    || (a.remote == b.remote && a.now <= b.now && Lap(a, length) == Lap(b, length) >= 0)
    || (Lap(a, length) == 1 && Lap(b, length) == 0)
  }

  lemma LapBounds(t: int, length: int)
    requires length > 0
    ensures t / length == 0 <==> 0 <= t < length
    ensures t / length == 1 <==> length <= t < 2 * length
    ensures t / length >= 0 <==> t >= 0
  {
    DivBounds(t, length);
    if t / length >= 2 { MulMonotone(length, 2, t / length); }
    if t / length < 0 { MulMonotone(length, t / length, -1); }
  }

  /** Two successive polls, with any timestamps in between. */
  lemma NextPollForward(s: Stream, now: int, ts: int, later: int)
    requires s.size > 0 && s.length > 0 && Live(s, now)
    requires var (s1, p) := Poll(s, now);
             Live(s1.(remoteTimestamp := ts), later)
             && Continues(Answer(now, s.remoteTimestamp, p), Answer(later, ts, 0), s.length)
    ensures Poll(s, now).1 <= Poll(Poll(s, now).0.(remoteTimestamp := ts), later).1
  {
    var t, u := now - s.remoteTimestamp, later - ts;
    LapBounds(t, s.length);
    LapBounds(u, s.length);
    InterpolateBounds(t, s.length, s.size);
    InterpolateBounds(u, s.length, s.size);
    if ts == s.remoteTimestamp && t / s.length == u / s.length && t <= u {
      InterpolateMonotone(t, u, s.length, s.size);
    }
  }

  /** Every poll of the run continues the one before it. */
  predicate Unbroken(answers: seq<Answer>, length: int)
    requires length > 0
  {
    forall i :: 0 < i < |answers| ==> Continues(answers[i - 1], answers[i], length)
  }

  predicate Ascending(answers: seq<Answer>) {
    forall i, j :: 0 <= i <= j < |answers| ==> answers[i].position <= answers[j].position
  }

  function StampAll(s: Stream, events: seq<Event>): (r: (Stream, seq<Event>))
    ensures r.1 == [] || r.1[0].Ask?
    ensures |r.1| <= |events|
    decreases |events|
  {
    if events == [] || events[0].Ask? then (s, events) else StampAll(Timestamp(s, events[0].ts), events[1..])
  }

  /** The timestamps before the next poll change nothing but the timestamp. */
  lemma {:induction false} StampAllRun(s: Stream, events: seq<Event>)
    ensures var (s1, rest) := StampAll(s, events);
            && Run(s, events) == Run(s1, rest)
            && s1 == s.(remoteTimestamp := s1.remoteTimestamp, waitingForFirstTs := s1.waitingForFirstTs)
            && (!s.waitingForFirstTs ==> !s1.waitingForFirstTs)
    decreases |events|
  {
    if events != [] && events[0].Stamp? {
      StampAllRun(Timestamp(s, events[0].ts), events[1..]);
    }
  }

  /** Along an unbroken run of polls, with timestamps arriving in between, the pointer never decreases: within a
      lap, and from the overrun lap through the late timestamp to the end of the new lap. */
  lemma {:induction false} NeverBackwards(s: Stream, now: int, events: seq<Event>)
    requires s.size > 0 && s.length > 0 && Live(s, now)
    requires Unbroken(Run(s, [Ask(now)] + events).1, s.length)
    ensures Ascending(Run(s, [Ask(now)] + events).1)
    decreases |events|
  {
    var all := Run(s, [Ask(now)] + events).1;
    assert ([Ask(now)] + events)[1..] == events;
    var (s1, p) := Poll(s, now);
    var (s2, rest) := StampAll(s1, events);
    StampAllRun(s1, events);
    if rest != [] {
      var later := rest[0].now;
      assert rest == [Ask(later)] + rest[1..];
      var tail := Run(s2, rest).1;
      assert all == [Answer(now, s.remoteTimestamp, p)] + tail;
      assert Continues(all[0], all[1], s.length);
      LapBounds(later - s2.remoteTimestamp, s.length);
      assert Unbroken(tail, s.length) by {
        forall i | 0 < i < |tail|
          ensures Continues(tail[i - 1], tail[i], s.length)
        {
          assert Continues(all[i], all[i + 1], s.length);
        }
      }
      NeverBackwards(s2, later, rest[1..]);
      NextPollForward(s, now, s2.remoteTimestamp, later);
      assert p <= tail[0].position;
    }
  }

  // ---------------------------------------------------------------- the new lap, exactly

  function Max(a: int, b: int): int { if a < b then b else a }

  function Polls(s: Stream, times: seq<int>): seq<int>
    decreases |times|
  {
    if times == [] then [] else [Poll(s, times[0]).1] + Polls(Poll(s, times[0]).0, times[1..])
  }

  /** After a poll at `held` in the overrun lap and a late timestamp, every poll of the new lap reports the true
      position or `held`, whichever is further; so the pointer waits for playback to catch up and then follows it. */
  lemma {:induction false} NewLapExact(s: Stream, held: nat, times: seq<int>, k: nat)
    requires s.size > 0 && s.length > 0 && k < |times|
    requires forall i :: 0 <= i < |times| ==> Live(s, times[i]) && times[i] - s.remoteTimestamp < s.length
    requires forall i, j :: 0 <= i <= j < |times| ==> times[i] <= times[j]
    requires s.frameMin == held || (s.frameMin == 0
        && held <= Interpolate(times[0] - s.remoteTimestamp, s.length, s.size))
    ensures |Polls(s, times)| == |times|
    ensures Polls(s, times)[k] == Max(Interpolate(times[k] - s.remoteTimestamp, s.length, s.size), held)
    decreases |times|
  {
    InterpolateBounds(times[0] - s.remoteTimestamp, s.length, s.size);
    var s1 := Poll(s, times[0]).0;
    if |times| > 1 {
      LapBounds(times[0] - s.remoteTimestamp, s.length);
      LapBounds(times[1] - s.remoteTimestamp, s.length);
      InterpolateMonotone(times[0] - s.remoteTimestamp, times[1] - s.remoteTimestamp, s.length, s.size);
      NewLapExact(s1, held, times[1..], if k == 0 then 0 else k - 1);
    }
  }

  /** A poll in the overrun lap, the late timestamp, then any polls up to the end of the new lap. */
  lemma OverrunThenNewLap(s: Stream, now: int, ts: int, times: seq<int>, k: nat)
    requires s.size > 0 && Live(s, now) && s.length <= now - s.remoteTimestamp < 2 * s.length && k < |times|
    requires forall i :: 0 <= i < |times| ==> 0 <= times[i] - ts < s.length
    requires forall i, j :: 0 <= i <= j < |times| ==> times[i] <= times[j]
    ensures var polls := Polls(Timestamp(Poll(s, now).0, ts), times);
            |polls| == |times| && polls[k] == Max(Interpolate(times[k] - ts, s.length, s.size), Poll(s, now).1)
  {
    InterpolateBounds(now - s.remoteTimestamp, s.length, s.size);
    var s1 := Timestamp(Poll(s, now).0, ts);
    assert forall i :: 0 <= i < |times| ==> Live(s1, times[i]);
    NewLapExact(s1, Poll(s, now).1, times, k);
  }

  /** A poll two buffer lengths or more after the timestamp forgets the floor: the polls after the next timestamp report
      the true position. */
  lemma DesyncThenNewLap(s: Stream, now: int, ts: int, times: seq<int>, k: nat)
    requires s.size > 0 && Live(s, now) && now - s.remoteTimestamp >= 2 * s.length && k < |times|
    requires forall i :: 0 <= i < |times| ==> 0 <= times[i] - ts < s.length
    requires forall i, j :: 0 <= i <= j < |times| ==> times[i] <= times[j]
    ensures var polls := Polls(Timestamp(Poll(s, now).0, ts), times);
            |polls| == |times| && polls[k] == Interpolate(times[k] - ts, s.length, s.size)
  {
    var s1 := Timestamp(Poll(s, now).0, ts);
    assert forall i :: 0 <= i < |times| ==> Live(s1, times[i]);
    NewLapExact(s1, 0, times, k);
    InterpolateBounds(times[k] - ts, s.length, s.size);
  }

  /** A start reports 0 until the first timestamp comes, and the true position from then on. */
  lemma FirstTimestamp(s: Stream, before: int, ts: int, now: int)
    requires s.size > 0 && s.length > 0 && 0 <= now - ts < s.length
    ensures Poll(Start(s), before) == (Start(s), 0)
    ensures Poll(Timestamp(Start(s), ts), now).1 == Interpolate(now - ts, s.length, s.size)
  {
    InterpolateBounds(now - ts, s.length, s.size);
  }

  /** The buffer time is the time its frames take, rounded down to a nanosecond. */
  lemma BufferTimeIs(size: nat, rate: nat)
    requires rate > 0
    ensures rate * BufferTime(size, rate) <= 1_000_000_000 * size < rate * (BufferTime(size, rate) + 1)
  {
    DivBounds(NSEC_PER_SEC * size, rate);
  }

  // ---------------------------------------------------------------- in place

  class AudioStream {
    var started: bool
    var waitingForFirstTs: bool
    var remoteTimestamp: int
    var frameMin: int
    var bufferTime: int
    var bufferSize: nat

    ghost function View(): Stream
      reads this
    {
      Stream(started, waitingForFirstTs, remoteTimestamp, frameMin, bufferTime, bufferSize)
    }

    /** aaudio_pcm_start, and the flag the trigger sets after it. */
    method StartIo()
      modifies this
      ensures View() == Start(old(View()))
    {
      waitingForFirstTs := true;
      frameMin := 0;
      started := true;
    }

    /** aaudio_handle_stream_timestamp; `open` is false when the stream was closed with the timestamp on its way, and
        `elapsed` tells whether a period is reported. */
    method HandleTimestamp(open: bool, ts: int) returns (elapsed: bool)
      modifies this
      ensures View() == if open then Timestamp(old(View()), ts) else old(View())
      ensures elapsed == (open && !old(waitingForFirstTs))
    {
      if !open {
        return false;
      }
      remoteTimestamp := ts;
      if waitingForFirstTs {
        waitingForFirstTs := false;
        return false;
      }
      elapsed := true;
    }

    method Pointer(now: int) returns (frames: int)
      requires Sane(View())
      modifies this`frameMin
      ensures (View(), frames) == Poll(old(View()), now)
      ensures Sane(View()) && 0 <= frames < bufferSize
    {
      if !started || waitingForFirstTs {
        return 0;
      }
      var t := now - remoteTimestamp;
      if t < 0 || bufferTime <= 0 {
        return 0;
      }
      InterpolateBounds(t, bufferTime, bufferSize);
      frames := (t % bufferTime) * bufferSize / bufferTime;
      if t < bufferTime {
        if frames < frameMin {
          frames := frameMin;
        } else {
          frameMin := 0;
        }
      } else if t < 2 * bufferTime {
        frameMin := frames;
      } else {
        frameMin := 0;
      }
    }
  }
}
