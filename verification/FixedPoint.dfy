/** The integer-only conversions between thousandths and binary32 (section 3.4 of IEEE 754-2008) of audio/audio.c,
    and the volume control built on them. */
module FixedPoint {
  import opened Arithmetic

  function Pow2(n: nat): (r: nat)
    ensures r >= 1
  {
    if n == 0 then 1 else 2 * Pow2(n - 1)
  }

  /** fls64(q) - 1: the position of the highest set bit. */
  function HighBit(q: nat): (e: nat)
    requires q > 0
    ensures Pow2(e) <= q < Pow2(e + 1)
  {
    if q == 1 then 0 else HighBit(q / 2) + 1
  }

  const SIGN := 0x8000_0000
  const HIDDEN := 0x80_0000         // 2^23, the implicit leading bit
  const U64 := 0x1_0000_0000_0000_0000

  /** The three fields of a binary32 word. */
  function Exponent(bits: nat): nat { bits / HIDDEN % 256 }
  function Fraction(bits: nat): nat { bits % HIDDEN }
  predicate Negative(bits: nat) { bits / SIGN % 2 == 1 }

  /** aaudio_f32_milli; shifts are by powers of two, and to the right they round down. */
  function ToMilli(bits: nat): int {
    var exp := Exponent(bits);
    var m := (HIDDEN + Fraction(bits)) * 1000;
    var shift := 23 - (exp - 127);
    if exp == 0 || shift > 62 || shift < -29 then 0
    else
      var magnitude := if shift >= 0 then m / Pow2(shift) else m * Pow2(-shift);
      if Negative(bits) then -magnitude else magnitude
  }

  function Abs(m: int): nat { if m < 0 then -m else m }

  /** The quotient of aaudio_f32_from_milli: the magnitude in units of 2^-23, in 64 bits. */
  function Scaled(m: int): nat { Abs(m) * HIDDEN % U64 / 1000 }

  /** The 24-bit significand. */
  function Significand(q: nat): nat
    requires q > 0
  {
    var e := HighBit(q);
    if e > 23 then q / Pow2(e - 23) else q * Pow2(23 - e)
  }

  /** aaudio_f32_from_milli */
  function FromMilli(m: int): nat {
    var q := Scaled(m);
    if m == 0 || q == 0 then 0
    else (if m < 0 then SIGN else 0) + (HighBit(q) - 23 + 127) * HIDDEN + Significand(q) % HIDDEN
  }

  // ---------------------------------------------------------------- powers of two

  lemma {:induction false} Pow2Add(a: nat, b: nat)
    ensures Pow2(a + b) == Pow2(a) * Pow2(b)
    decreases a
  {
    if a > 0 {
      Pow2Add(a - 1, b);
      assert Pow2(a + b) == 2 * Pow2(a - 1 + b);
    }
  }

  lemma {:induction false} Pow2Monotone(a: nat, b: nat)
    requires a <= b
    ensures Pow2(a) <= Pow2(b)
  {
    if a < b {
      Pow2Monotone(a, b - 1);
    }
  }

  lemma Pow2Values()
    ensures Pow2(10) == 1024 && Pow2(13) == 0x2000 && Pow2(20) == 0x10_0000 && Pow2(23) == HIDDEN
    ensures Pow2(24) == 0x100_0000 && Pow2(29) == 0x2000_0000 && Pow2(37) == 0x20_0000_0000
  {
    assert Pow2(5) == 32;
    Pow2Add(5, 5);
    Pow2Add(10, 3);
    Pow2Add(10, 10);
    Pow2Add(20, 3);
    Pow2Add(20, 4);
    Pow2Add(24, 5);
    Pow2Add(24, 13);
  }

  // ---------------------------------------------------------------- no overflow

  lemma DivShrinks(m: nat, p: nat)
    requires p > 0
    ensures 0 <= m / p <= m
  {
    MulMonotone(m / p, 1, p);
  }

  lemma ProductBound(m: nat, p: nat)
    requires m < 2 * HIDDEN * 1000 && p <= 0x2000_0000
    ensures 0 <= m * p < 0x8000_0000_0000_0000
  {
    MulMonotone(m, p, 0x2000_0000);
  }

  /** Whatever word the device reports, nothing in the conversion leaves the signed 64-bit range. */
  lemma ToMilliFits(bits: nat)
    ensures -0x8000_0000_0000_0000 < ToMilli(bits) < 0x8000_0000_0000_0000
  {
    var m := (HIDDEN + Fraction(bits)) * 1000;
    var shift := 23 - (Exponent(bits) - 127);
    Pow2Values();
    if 0 <= shift <= 62 {
      DivShrinks(m, Pow2(shift));
    } else if -29 <= shift < 0 {
      Pow2Monotone(-shift, 29);
      ProductBound(m, Pow2(-shift));
    }
  }

  /** What the conversion means for any word: with significand 2^23 + fraction and value significand * 2^(exp - 150),
      the result is the value in thousandths, rounded towards zero, with the sign of the word; 0 for zeros, subnormal
      and for far too small or too large words. */
  lemma ToMilliMeans(bits: nat)
    ensures var exp, sig := Exponent(bits), HIDDEN + Fraction(bits); var r := Abs(ToMilli(bits));
      if exp == 0 || exp < 88 || exp > 179 then r == 0
      else if exp <= 150 then Pow2(150 - exp) * r <= 1000 * sig < Pow2(150 - exp) * (r + 1)
      else r == 1000 * sig * Pow2(exp - 150)
    ensures ToMilli(bits) > 0 ==> !Negative(bits)
    ensures ToMilli(bits) < 0 ==> Negative(bits)
  {
    var exp, sig := Exponent(bits), HIDDEN + Fraction(bits);
    if 88 <= exp <= 150 {
      QuotientMeans(1000 * sig, Pow2(150 - exp));
    }
    if 150 < exp <= 179 {
      MulMonotone(1000 * sig, 1, Pow2(exp - 150));
    }
  }

  lemma QuotientMeans(m: nat, p: nat)
    requires p > 0
    ensures 0 <= m / p && p * (m / p) <= m < p * (m / p + 1)
  {
    DivBounds(m, p);
    DivMonotone(0, m, p);
    assert p * (m / p + 1) == p * (m / p) + p;
  }

  // ---------------------------------------------------------------- the round trip

  const LIMIT := 16_384_000         // 2^14 in thousandths

  lemma ScaledBounds(m: int)
    requires 0 < Abs(m) < LIMIT
    ensures Scaled(m) == Abs(m) * HIDDEN / 1000
    ensures 0 < Scaled(m) && 10 <= HighBit(Scaled(m)) <= 36
  {
    var q := Scaled(m);
    var e := HighBit(q);
    Pow2Values();
    assert 8388 <= q < 0x20_0000_0000;
    if e < 10 {
      Pow2Monotone(e + 1, 10);
    }
    if e > 36 {
      Pow2Monotone(37, e);
    }
  }

  lemma ShiftRightBounds(q: nat, p: nat, low: nat)
    requires p > 0 && p * low <= q < p * (2 * low)
    ensures low <= q / p < 2 * low
  {
    var s := q / p;
    assert p * s <= q < p * s + p;
    if s < low { MulMonotone(p, s + 1, low); }
    if s >= 2 * low { MulMonotone(p, 2 * low, s); }
  }

  lemma ShiftLeftBounds(q: nat, p: nat, a: nat)
    requires p > 0 && a <= q < 2 * a
    ensures p * a <= q * p < 2 * (p * a)
  {
    MulMonotone(p, a, q);
    MulMonotone(p, q + 1, 2 * a);
  }

  lemma SignificandBounds(q: nat)
    requires q > 0
    ensures HIDDEN <= Significand(q) < 2 * HIDDEN
  {
    var e := HighBit(q);
    Pow2Values();
    if e > 23 {
      Pow2Add(e - 23, 23);
      ShiftRightBounds(q, Pow2(e - 23), HIDDEN);
    } else {
      Pow2Add(23 - e, e);
      ShiftLeftBounds(q, Pow2(23 - e), Pow2(e));
    }
  }

  /** The fields of the word FromMilli builds are the ones it was built from. */
  lemma FieldsOf(m: int)
    requires 0 < Abs(m) < LIMIT
    ensures var bits := FromMilli(m); var q := Scaled(m);
            && bits < 2 * SIGN && Exponent(bits) == HighBit(q) + 104 && (Negative(bits) <==> m < 0)
            && HIDDEN + Fraction(bits) == Significand(q)
  {
    ScaledBounds(m);
    SignificandBounds(Scaled(m));
    LowBits(Significand(Scaled(m)));
    FieldsFrom(m, HighBit(Scaled(m)), Significand(Scaled(m)), FromMilli(m));
  }

  lemma FieldsFrom(m: int, e: nat, sig: nat, bits: nat)
    requires e <= 100 && HIDDEN <= sig < 2 * HIDDEN
    requires bits == (if m < 0 then SIGN else 0) + (e - 23 + 127) * HIDDEN + (sig - HIDDEN)
    ensures bits < 2 * SIGN && Exponent(bits) == e + 104 && (Negative(bits) <==> m < 0)
    ensures HIDDEN + Fraction(bits) == sig
  {
    Assemble(if m < 0 then 1 else 0, e + 104, sig - HIDDEN);
  }

  lemma LowBits(s: nat)
    requires HIDDEN <= s < 2 * HIDDEN
    ensures s % HIDDEN == s - HIDDEN
  {
  }

  lemma Assemble(sign: nat, exp: nat, f: nat)
    requires sign <= 1 && exp < 256 && f < HIDDEN
    ensures var bits := sign * SIGN + exp * HIDDEN + f;
            && bits < 2 * SIGN && Exponent(bits) == exp && Fraction(bits) == f && bits / SIGN == sign
  {
    var bits := sign * SIGN + exp * HIDDEN + f;
    DivUnique(bits, HIDDEN, sign * 256 + exp);
    DivUnique(bits, SIGN, sign);
  }

  /** Reading the significand back loses less than one thousandth. `p` is what the significand was shifted right
      by, `d` what the reader shifts by. */
  lemma LossBelowOne(m: nat, q: nat, s: nat, p: nat, d: nat)
    requires p > 0 && d >= 1000 && p * d == HIDDEN
    requires 1000 * q <= m * HIDDEN < 1000 * q + 1000
    requires p * s <= q < p * s + p
    ensures s * 1000 / d == if m * HIDDEN == 1000 * (p * s) then m else m - 1
  {
    var w := m * d - s * 1000;
    assert p * w == m * HIDDEN - 1000 * (p * s) by {
      assert p * (m * d) == m * (p * d);
      assert p * (s * 1000) == 1000 * (p * s);
    }
    assert 0 <= p * w < 1000 * p;
    if w < 0 { MulMonotone(p, w, -1); }
    if w >= 1000 { MulMonotone(p, 1000, w); }
    if w == 0 {
      DivUnique(s * 1000, d, m);
    } else {
      assert d * (m - 1) == m * d - d;
      DivUnique(s * 1000, d, m - 1);
      assert p * w > 0 by { MulMonotone(p, 1, w); }
    }
  }

  /** p divides both sides out. */
  lemma Cancel(a: nat, b: nat, p: nat)
    requires b > 0 && p > 0
    ensures a * p / (b * p) == a / b
  {
    var d := a / b;
    assert b * d <= a < b * d + b;
    MulMonotone(p, b * d, a);
    MulMonotone(p, a + 1, b * d + b);
    DivUnique(a * p, b * p, d);
  }

  lemma ShiftsAdd(e: nat)
    requires 10 <= e <= 36
    ensures e > 23 ==> Pow2(e - 23) * Pow2(46 - e) == HIDDEN && Pow2(46 - e) >= 1000
    ensures e <= 23 ==> Pow2(46 - e) == HIDDEN * Pow2(23 - e)
  {
    Pow2Values();
    if e > 23 {
      Pow2Add(e - 23, 46 - e);
      Pow2Monotone(10, 46 - e);
    } else {
      Pow2Add(23, 23 - e);
    }
  }

  /** What the significand keeps of q. */
  function Kept(q: nat): nat
    requires q > 0
  {
    var e := HighBit(q);
    if e > 23 then Pow2(e - 23) * Significand(q) else q
  }

  lemma ThousandthsFromWord(m: nat, q: nat, e: nat)
    requires q == m * HIDDEN / 1000 && q > 0 && e == HighBit(q) && 10 <= e <= 36
    ensures Significand(q) * 1000 / Pow2(46 - e) == if m * HIDDEN == 1000 * Kept(q) then m else m - 1
  {
    ShiftsAdd(e);
    if e > 23 {
      ReadHigh(m, q, Pow2(e - 23), Pow2(46 - e));
    } else {
      ReadLow(m, q, Pow2(23 - e), Pow2(46 - e));
    }
  }

  lemma ReadHigh(m: nat, q: nat, p: nat, d: nat)
    requires q == m * HIDDEN / 1000 && p > 0 && d >= 1000 && p * d == HIDDEN
    ensures q / p * 1000 / d == if m * HIDDEN == 1000 * (p * (q / p)) then m else m - 1
  {
    DivBounds(m * HIDDEN, 1000);
    DivBounds(q, p);
    DivMonotone(0, q, p);
    LossBelowOne(m, q, q / p, p, d);
  }

  lemma ReadLow(m: nat, q: nat, p: nat, d: nat)
    requires q == m * HIDDEN / 1000 && p > 0 && d == HIDDEN * p
    ensures q * p * 1000 / d == if m * HIDDEN == 1000 * q then m else m - 1
  {
    DivBounds(m * HIDDEN, 1000);
    LossBelowOne(m, q, q, 1, HIDDEN);
    Reordered(q, p, d);
  }

  lemma Reordered(q: nat, p: nat, d: nat)
    requires p > 0 && d == HIDDEN * p
    ensures (q * p) * 1000 / d == q * 1000 / HIDDEN
  {
    Cancel(q * 1000, HIDDEN, p);
    assert q * 1000 * p == (q * p) * 1000;
  }

  /** 51 inverts 2^20 modulo 125. */
  lemma DivisibleBy125(m: nat, x: nat)
    requires m * HIDDEN == 1000 * x
    ensures m % 125 == 0
  {
    var j := 51 * x - 427819 * m;
    assert m == 125 * j;
  }

  /** Nothing at all is lost exactly for the multiples of 125, the thousandths that are multiples of 1/8. */
  lemma ExactIff(m: nat, q: nat, e: nat)
    requires q == m * HIDDEN / 1000 && q > 0 && e == HighBit(q) <= 36
    ensures m * HIDDEN == 1000 * Kept(q) <==> m % 125 == 0
  {
    if m * HIDDEN == 1000 * Kept(q) {
      DivisibleBy125(m, Kept(q));
    }
    if m % 125 == 0 {
      MultipleScales(m, m / 125);
      if e > 23 {
        Twentieth(m / 125, e);
        Divides(q, Pow2(e - 23), m / 125 * Pow2(43 - e));
      }
    }
  }

  lemma MultipleScales(m: nat, j: nat)
    requires m == 125 * j
    ensures m * HIDDEN / 1000 == j * 0x10_0000 && m * HIDDEN == 1000 * (j * 0x10_0000)
  {
  }

  lemma Twentieth(j: nat, e: nat)
    requires 23 < e <= 36
    ensures j * 0x10_0000 == Pow2(e - 23) * (j * Pow2(43 - e))
  {
    Pow2Values();
    Pow2Add(e - 23, 43 - e);
    var a, b := Pow2(e - 23), Pow2(43 - e);
    assert j * (a * b) == a * (j * b);
  }

  lemma Divides(q: nat, p: nat, k: nat)
    requires p > 0 && q == p * k
    ensures p * (q / p) == q
  {
    DivUnique(q, p, k);
  }

  /** Thousandths to float bits and back: zero stays zero, the sign is kept, the magnitude is exact for multiples of
      125 and one less otherwise. */
  lemma RoundTrip(m: int)
    requires Abs(m) < LIMIT
    ensures FromMilli(m) < 2 * SIGN
    ensures ToMilli(FromMilli(m)) == if m % 125 == 0 then m else if m < 0 then m + 1 else m - 1
  {
    if m != 0 {
      MagnitudeBack(m, Scaled(m));
      SameDivisor(m);
    }
  }

  lemma MagnitudeBack(m: int, q: nat)
    requires 0 < Abs(m) < LIMIT && q == Scaled(m)
    ensures FromMilli(m) < 2 * SIGN
    ensures var back := if Abs(m) % 125 == 0 then Abs(m) else Abs(m) - 1;
            ToMilli(FromMilli(m)) == if m < 0 then -back else back
  {
    ScaledBounds(m);
    var e, s := HighBit(q), Significand(q);
    FieldsOf(m);
    ThousandthsFromWord(Abs(m), q, e);
    ExactIff(Abs(m), q, e);
    ReadBack(m, FromMilli(m), s, e);
  }

  lemma HighBitIs(q: nat, e: nat)
    requires q > 0 && Pow2(e) <= q < Pow2(e + 1)
    ensures HighBit(q) == e
  {
    if HighBit(q) < e {
      Pow2Monotone(HighBit(q) + 1, e);
    } else if e < HighBit(q) {
      Pow2Monotone(e + 1, HighBit(q));
    }
  }

  /** The word of a magnitude in the first step beyond 2^14. */
  lemma WordBeyondLimit(m: int, q: nat)
    requires m > 0 && q == Scaled(m) && 16384 * (HIDDEN + 1) <= q < 16384 * (HIDDEN + 2)
    ensures FromMilli(m) == (37 + 104) * HIDDEN + 1
  {
    Pow2Values();
    Pow2Add(37, 1);
    HighBitIs(q, 37);
    Pow2Add(13, 1);
    DivUnique(q, 16384, HIDDEN + 1);
  }

  /** The limit cannot be moved past 2^14: there two thousandths are lost. */
  lemma LimitIsSharp(m: int)
    requires m == LIMIT + 3
    ensures ToMilli(FromMilli(m)) == m - 2
  {
    WordBeyondLimit(m, Scaled(m));
    Assemble(0, 37 + 104, 1);
    ReadBack(m, FromMilli(m), HIDDEN + 1, 37);
    NinthPower();
    DivUnique((HIDDEN + 1) * 1000, 512, m - 2);
  }

  lemma NinthPower()
    ensures Pow2(9) == 512
  {
    assert Pow2(4) == 16 && Pow2(5) == 32;
    Pow2Add(4, 5);
  }

  lemma SameDivisor(m: int)
    ensures Abs(m) % 125 == 0 <==> m % 125 == 0
  {
  }

  lemma ReadBack(m: int, bits: nat, s: nat, e: nat)
    requires 10 <= e <= 46 && Exponent(bits) == e + 104 && HIDDEN + Fraction(bits) == s && (Negative(bits) <==> m < 0)
    ensures ToMilli(bits) == if m < 0 then -(s * 1000 / Pow2(46 - e)) else s * 1000 / Pow2(46 - e)
  {
  }

  // ---------------------------------------------------------------- the volume control

  const STEP := 500
  const EINVAL := -22

  /** The C division, which truncates towards zero. */
  function Truncate(a: int, b: int): int
    requires b > 0
  {
    if a >= 0 then a / b else -((-a) / b)
  }

  function Clamp(x: int, low: int, high: int): int { if x < low then low else if x > high then high else x }

  /** aaudio_ctl_volume_get on the word the device holds. */
  function Level(raw: nat, low: int, high: int): int {
    Truncate(Clamp(ToMilli(raw), low, high) - low, STEP)
  }

  predicate Accepts(v: int, low: int, high: int) { 0 <= v <= Truncate(high - low, STEP) }

  /** Setting a level and reading it back gives the same level at or below 0 dB, for a range starting at a multiple
      of 125 and for the lowest level; otherwise it reads one step lower. */
  lemma PutThenGet(v: int, low: int, high: int)
    requires low <= high && Accepts(v, low, high) && Abs(low + v * STEP) < LIMIT
    ensures var back := Level(FromMilli(low + v * STEP), low, high);
            && (back == v <==> low + v * STEP <= 0 || low % 125 == 0 || v == 0)
            && (back != v ==> back == v - 1)
  {
    var m := low + v * STEP;
    RoundTrip(m);
    LevelNear(v, low, high, ToMilli(FromMilli(m)));
  }

  lemma LevelNear(v: int, low: int, high: int, back: int)
    requires low <= high && Accepts(v, low, high)
    requires var m := low + v * STEP; back == if m % 125 == 0 then m else if m < 0 then m + 1 else m - 1
    ensures var level := Truncate(Clamp(back, low, high) - low, STEP);
            && (level == v <==> low + v * STEP <= 0 || low % 125 == 0 || v == 0)
            && (level != v ==> level == v - 1)
  {
    var m := low + v * STEP;
    assert m % 125 == 0 <==> low % 125 == 0;
    var c := Clamp(back, low, high) - low;
    if m % 125 != 0 && m > 0 && v > 0 {
      assert c == (v - 1) * STEP + 499;
      DivUnique(c, STEP, v - 1);
    } else {
      assert v * STEP <= c <= v * STEP + 1;
      DivUnique(c, STEP, v);
    }
  }

  /** The control, with the word the device holds. */
  class VolumeControl {
    const low: int
    const high: int
    var raw: nat

    constructor (low: int, high: int, raw: nat)
      ensures this.low == low && this.high == high && this.raw == raw
    {
      this.low, this.high, this.raw := low, high, raw;
    }

    /** `error` is what reading the property from the device returned. */
    method Get(error: int) returns (status: int, v: int)
      requires low <= high
      ensures status == error
      ensures status == 0 ==> v == Level(raw, low, high) && 0 <= v <= Truncate(high - low, STEP)
    {
      if error != 0 {
        return error, 0;
      }
      var milli := ToMilli(raw);
      if milli < low {
        milli := low;
      } else if milli > high {
        milli := high;
      }
      return 0, (milli - low) / STEP;
    }

    /** Out-of-range levels are refused and change nothing, a failing device (`error`) keeps its level; otherwise it is
        left within one thousandth of what was asked. */
    method Put(v: int, error: int) returns (status: int)
      requires low <= high
      modifies this
      ensures status == if !Accepts(v, low, high) then EINVAL else if error != 0 then error else 1
      ensures raw == if Accepts(v, low, high) && error == 0 then FromMilli(low + v * STEP) else old(raw)
      ensures Accepts(v, low, high) && error == 0 && Abs(low + v * STEP) < LIMIT ==>
                Abs(low + v * STEP) - Abs(ToMilli(raw)) in {0, 1}
    {
      if v < 0 || v > (high - low) / STEP {
        return EINVAL;
      }
      if error != 0 {
        return error;
      }
      raw := FromMilli(low + v * STEP);
      status := 1;
      if Abs(low + v * STEP) < LIMIT {
        RoundTrip(low + v * STEP);
      }
    }
  }
}
