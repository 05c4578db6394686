/** G.711 mu-law (g711.ts, after section 3 of ITU-T G.711): the codec, its error bound, and
    what decoding and encoding undo of each other. Bit operations are written as arithmetic. */
module G711 {
  import opened Wrappers
  import opened Chunks

  const BIAS := 0x84
  const CLIP := 32635

  /** 2 to the power of a segment's number. */
  function Scale(e: nat): (s: nat)
    requires e < 8
    ensures s in {1, 2, 4, 8, 16, 32, 64, 128}
  {
    [1, 2, 4, 8, 16, 32, 64, 128][e]
  }

  function Decode(byte: Byte): (v: int)
  {
    var u := 255 - byte;
    var t := (u % 16 * 8 + BIAS) * Scale(u % 128 / 16);
    if u >= 128 then BIAS - t else t - BIAS
  }

  function Clipped(x: int): int { if x > CLIP then CLIP else if x < -CLIP then -CLIP else x }

  function Magnitude(x: int): (s: nat)
    ensures BIAS <= s <= CLIP + BIAS
  {
    (if Clipped(x) < 0 then -Clipped(x) else Clipped(x)) + BIAS
  }

  /** The segment a biased magnitude is in: segment e starts at 128 times 2 to the e. */
  function Segment(s: nat): (e: nat)
    requires BIAS <= s <= CLIP + BIAS
    ensures e < 8 && 128 * Scale(e) <= s < 256 * Scale(e)
  {
    if s < 256 then 0 else if s < 512 then 1 else if s < 1024 then 2 else if s < 2048 then 3
    else if s < 4096 then 4 else if s < 8192 then 5 else if s < 16384 then 6 else 7
  }

  function Encode(x: int): (byte: Byte)
  {
    var s := Magnitude(x);
    var e := Segment(s);
    255 - ((if x < 0 then 128 else 0) + e * 16 + s / (8 * Scale(e)) % 16)
  }

  /** The sample is rounded and clipped; then the loop halves the mask until it meets the top
      bit. */
  method MuLawEncode(sample: real) returns (byte: Byte)
    ensures byte == Encode(Round(sample))
  {
    var rounded := Round(sample);
    var s := if rounded < -32768 then -32768 else if rounded > 32767 then 32767 else rounded;
    var sign := if s < 0 then 0x80 else 0;
    if s < 0 { s := -s; }
    if s > CLIP { s := CLIP; }
    s := s + BIAS;
    assert s == Magnitude(rounded);
    var exponent, mask := 7, 0x4000;
    while s / mask % 2 == 0 && exponent > 0
      invariant 0 <= exponent <= 7 && mask == 128 * Scale(exponent) && s < 2 * mask
    {
      TopBit(s, exponent);
      exponent, mask := exponent - 1, mask / 2;
    }
    TopBit(s, exponent);
    assert exponent == Segment(s);
    byte := 255 - (sign + exponent * 16 + s / (8 * Scale(exponent)) % 16);
  }

  lemma TopBit(s: nat, e: nat)
    requires e < 8 && s < 256 * Scale(e)
    ensures s / (128 * Scale(e)) % 2 == 0 <==> s < 128 * Scale(e)
  {
    var m := 128 * Scale(e);
    if s < m { assert s / m == 0; } else { assert s / m == 1; }
  }

  // ---- what a byte means ----

  /** The magnitude a biased magnitude is decoded as: the middle of its step. */
  function Step(s: nat): nat
    requires BIAS <= s <= CLIP + BIAS
  {
    s / (8 * Scale(Segment(s))) * (8 * Scale(Segment(s))) + 4 * Scale(Segment(s))
  }

  lemma Digits(s: nat)
    requires BIAS <= s <= CLIP + BIAS
    ensures 16 <= s / (8 * Scale(Segment(s))) < 32
  {
    var k := 8 * Scale(Segment(s));
    assert 16 * k <= s < 32 * k;
    Quotient(s, k);
  }

  lemma Quotient(s: nat, k: nat)
    requires k in {8, 16, 32, 64, 128, 256, 512, 1024} && 16 * k <= s < 32 * k
    ensures 16 <= s / k < 32
  {
  }

  lemma DecodedIsStep(x: int)
    ensures Decode(Encode(x)) == if x < 0 then BIAS - Step(Magnitude(x)) else Step(Magnitude(x)) - BIAS
  {
    var s := Magnitude(x);
    var e := Segment(s);
    var q := s / (8 * Scale(e));
    Digits(s);
    Fields(x < 0, e, q, 255 - Encode(x));
    Middle(q, Scale(e));
  }

  lemma Fields(negative: bool, e: nat, q: nat, u: nat)
    requires e < 8 && 16 <= q < 32 && u == (if negative then 128 else 0) + e * 16 + q % 16
    ensures u % 16 == q - 16 && u % 128 / 16 == e && (u >= 128 <==> negative)
  {
  }

  lemma Middle(q: nat, k: nat)
    ensures ((q - 16) * 8 + BIAS) * k == q * (8 * k) + 4 * k
  {
  }

  lemma StepIsNear(s: nat)
    requires BIAS <= s <= CLIP + BIAS
    ensures -4 * Scale(Segment(s)) < Step(s) - s <= 4 * Scale(Segment(s))
  {
    var k := Scale(Segment(s));
    assert s == s / (8 * k) * (8 * k) + s % (8 * k);
  }

  /** The error bound: decoding an encoded sample is within half a step of the sample, clipped
      to what mu-law can carry. */
  lemma ErrorBound(x: int)
    ensures var d := Decode(Encode(x)) - Clipped(x);
            -4 * Scale(Segment(Magnitude(x))) <= d <= 4 * Scale(Segment(Magnitude(x)))
  {
    DecodedIsStep(x);
    StepIsNear(Magnitude(x));
  }

  lemma StepMonotone(s: nat, t: nat)
    requires BIAS <= s <= t <= CLIP + BIAS
    ensures BIAS <= Step(s) <= Step(t)
  {
    var a, b := Scale(Segment(s)), Scale(Segment(t));
    Digits(s);
    Digits(t);
    var q, r := s / (8 * a), t / (8 * b);
    if Segment(s) == Segment(t) {
      Quotients(s, t, 8 * a);
      Times(q, r, 8 * a);
    } else {
      SegmentMonotone(s, t);
      Times(q, 31, 8 * a);
      Times(16, r, 8 * b);
    }
    Times(16, q, 8 * a);
  }

  lemma SegmentMonotone(s: nat, t: nat)
    requires BIAS <= s <= t <= CLIP + BIAS
    ensures Segment(s) <= Segment(t)
    ensures Segment(s) < Segment(t) ==> 2 * Scale(Segment(s)) <= Scale(Segment(t))
  {
  }

  lemma Quotients(s: nat, t: nat, k: nat)
    requires k > 0 && s <= t
    ensures s / k <= t / k
  {
    if s / k > t / k { Times(t / k + 1, s / k, k); }
  }

  lemma Times(a: int, b: int, k: nat)
    requires a <= b
    ensures a * k <= b * k
  {
  }

  /** A louder sample never decodes as a softer one. */
  lemma Monotone(x: int, y: int)
    requires x <= y
    ensures Decode(Encode(x)) <= Decode(Encode(y))
  {
    DecodedIsStep(x);
    DecodedIsStep(y);
    if x >= 0 {
      StepMonotone(Magnitude(x), Magnitude(y));
    } else if y < 0 {
      StepMonotone(Magnitude(y), Magnitude(x));
    } else {
      StepMonotone(BIAS, Magnitude(x));
      StepMonotone(BIAS, Magnitude(y));
    }
  }

  lemma SegmentOf(e: nat, m: nat)
    requires e < 8 && m < 16
    ensures var t := (m * 8 + BIAS) * Scale(e);
            && BIAS <= t <= CLIP + BIAS && Segment(t) == e && t / (8 * Scale(e)) % 16 == m
  {
  }

  lemma DecodedMagnitude(byte: Byte, t: nat)
    requires BIAS <= t <= CLIP + BIAS
    requires Decode(byte) == if byte < 128 then BIAS - t else t - BIAS
    ensures Magnitude(Decode(byte)) == t
  {
  }

  lemma EncodedAs(x: int, e: nat, m: nat)
    requires e == Segment(Magnitude(x)) && m == Magnitude(x) / (8 * Scale(e)) % 16
    ensures Encode(x) == 255 - ((if x < 0 then 128 else 0) + e * 16 + m)
  {
  }

  /** A byte is its sign bit, three bits of segment and four bits of step. */
  lemma Bits(u: nat) returns (e: nat, m: nat)
    requires u < 256
    ensures e < 8 && m < 16 && e == u % 128 / 16 && m == u % 16
    ensures u == (if u >= 128 then 128 else 0) + e * 16 + m
  {
    e, m := u % 128 / 16, u % 16;
    assert u % 128 == if u >= 128 then u - 128 else u;
    assert u % 16 == u % 128 % 16;
  }

  /** What a byte says: sign, segment and step. */
  lemma DecodedAs(byte: Byte) returns (e: nat, m: nat, t: nat)
    ensures e < 8 && m < 16 && 255 - byte == (if byte < 128 then 128 else 0) + e * 16 + m
    ensures t == (m * 8 + BIAS) * Scale(e) && BIAS <= t <= CLIP + BIAS
    ensures Decode(byte) == if byte < 128 then BIAS - t else t - BIAS
    ensures Segment(t) == e && t / (8 * Scale(e)) % 16 == m
  {
    e, m := Bits(255 - byte);
    t := (m * 8 + BIAS) * Scale(e);
    SegmentOf(e, m);
  }

  /** Encoding a decoded byte gives that byte back, except that the two zeros become one. */
  lemma ReencodeIff(byte: Byte)
    ensures Encode(Decode(byte)) == byte <==> byte != 0x7F
    ensures Encode(Decode(0x7F)) == 0xFF
  {
    var e, m, t := DecodedAs(byte);
    DecodedMagnitude(byte, t);
    EncodedAs(Decode(byte), e, m);
    if t == BIAS { ZeroStep(e, m); }
    assert Decode(0x7F) == 0 && Encode(0) == 0xFF;
  }

  lemma ZeroStep(e: nat, m: nat)
    requires e < 8 && m < 16 && (m * 8 + BIAS) * Scale(e) == BIAS
    ensures e == 0 && m == 0
  {
  }

  // ---- which byte a sample gets ----

  /** The n-th level above zero. */
  function Level(n: nat): int
    requires n < 128
  {
    Decode(255 - n)
  }

  /** The levels: from zero up in steps of 8, which double after every 16 levels; the step in
      which they double is half as wide again. The other 128 bytes are the same below zero. */
  lemma Levels(n: nat)
    requires n < 127
    ensures Level(0) == 0
    ensures n < 15 ==> Level(n + 1) - Level(n) == 8
    ensures n == 15 ==> Level(n + 1) - Level(n) == 12
    ensures n >= 16 ==> Level(n + 1) - Level(n) == 2 * (Level(n - 15) - Level(n - 16))
    ensures Decode(127 - n) == -Level(n) && Decode(0) == -Level(127)
  {
    LevelIs(0);
    LevelStep(n);
    BelowZero(n);
    hide Level, Decode;
    if n >= 16 { StepsDouble(n); } else { assert n / 16 == 0; }
  }

  lemma StepsDouble(n: nat)
    requires 16 <= n < 127
    ensures Level(n + 1) - Level(n) == 2 * (Level(n - 15) - Level(n - 16))
  {
    hide Level, Scale;
    LevelStep(n);
    LevelStep(n - 16);
    SegmentAbove(n);
  }

  lemma LevelStep(n: nat)
    requires n < 127
    ensures Level(n + 1) - Level(n) == if n % 16 == 15 then 12 * Scale(n / 16) else 8 * Scale(n / 16)
  {
    hide Level, Scale;
    var e, m := n / 16, n % 16;
    if m == 15 { DoubledStep(n, e); } else { EvenStep(n, e, m); }
  }

  lemma EvenStep(n: nat, e: nat, m: nat)
    requires n == 16 * e + m && m < 15 && e < 8
    ensures Level(n + 1) - Level(n) == 8 * Scale(e)
  {
    hide Level, Scale;
    LevelAs(n, e, m);
    LevelAs(n + 1, e, m + 1);
    OneMoreTime(m * 8 + BIAS, Scale(e));
  }

  lemma OneMoreTime(a: nat, k: nat)
    ensures (a + 8) * k == a * k + 8 * k
  {
  }

  lemma DoubledStep(n: nat, e: nat)
    requires n == 16 * e + 15 && e < 7
    ensures Level(n + 1) - Level(n) == 12 * Scale(e)
  {
    hide Level;
    LevelAs(n, e, 15);
    LevelAs(n + 1, e + 1, 0);
    ScaleNext(e);
  }

  lemma ScaleNext(e: nat)
    requires e < 7
    ensures Scale(e + 1) == 2 * Scale(e)
  {
  }

  lemma LevelAs(n: nat, e: nat, m: nat)
    requires n < 128 && n == 16 * e + m && m < 16
    ensures e < 8 && Level(n) == (m * 8 + BIAS) * Scale(e) - BIAS
  {
    LevelIs(n);
  }

  lemma SegmentAbove(n: nat)
    requires 16 <= n < 127
    ensures n % 16 == (n - 16) % 16 && Scale(n / 16) == 2 * Scale((n - 16) / 16)
  {
    assert n / 16 == (n - 16) / 16 + 1;
    ScaleNext((n - 16) / 16);
  }

  lemma BelowZero(n: nat)
    requires n < 127
    ensures Decode(127 - n) == -Level(n) && Decode(0) == -Level(127)
  {
    assert (n + 128) % 16 == n % 16 && (n + 128) % 128 == n % 128;
  }

  lemma LevelIs(n: nat)
    requires n < 128
    ensures Level(n) == (n % 16 * 8 + BIAS) * Scale(n / 16) - BIAS
  {
    assert n % 128 / 16 == n / 16;
  }

  /** Within half a step of the n-th level, and from the last level on however loud. */
  predicate Takes(n: nat, m: int)
    requires n < 128
  {
    var half := 4 * Scale(n / 16);
    Level(n) - half <= m && (m < Level(n) + half || n == 127)
  }

  /** Which byte a sample gets: that of the level whose half step it is in, counted from zero
      in its own direction. */
  lemma EncodeIff(x: int, n: nat)
    requires n < 128
    ensures x >= 0 ==> (Encode(x) == 255 - n <==> Takes(n, x))
    ensures x < 0 ==> (Encode(x) == 127 - n <==> Takes(n, -x))
  {
    var m := if x < 0 then -x else x;
    var s := Magnitude(x);
    var e := Segment(s);
    var q := s / (8 * Scale(e));
    Digits(s);
    LevelIs(n);
    TakesIff(n, m, s, e, q);
  }

  lemma TakesIff(n: nat, m: nat, s: nat, e: nat, q: nat)
    requires n < 128 && s == (if m > CLIP then CLIP else m) + BIAS
    requires e == Segment(s) && 16 <= q < 32 && q == s / (8 * Scale(e))
    ensures Takes(n, m) <==> n == e * 16 + q % 16
  {
    var k, j := 8 * Scale(n / 16), n % 16 + 16;
    TakesStep(n, m, s);
    if n / 16 == e {
      Divides(s, k, q, j);
    } else {
      OtherSegment(s, e, n / 16, j);
    }
  }

  lemma TakesStep(n: nat, m: nat, s: nat)
    requires n < 128 && s == (if m > CLIP then CLIP else m) + BIAS
    ensures var k, j := 8 * Scale(n / 16), n % 16 + 16;
            Takes(n, m) <==> k * j <= s < k * (j + 1)
  {
    var k, j := 8 * Scale(n / 16), n % 16 + 16;
    LevelIs(n);
    Middle(j, Scale(n / 16));
    assert k * (j + 1) == k * j + k && j * k == k * j;
    if n == 127 { assert k * j == 31744 && k == 1024; } else { StepEnds(n); }
  }

  lemma StepEnds(n: nat)
    requires n < 127
    ensures 8 * Scale(n / 16) * (n % 16 + 17) <= CLIP + BIAS
  {
    var k, j := Scale(n / 16), n % 16;
    if n / 16 == 7 { assert j < 15; } else { assert k <= 64; }
  }

  lemma OtherSegment(s: nat, e: nat, f: nat, j: nat)
    requires BIAS <= s <= CLIP + BIAS && e == Segment(s) && f < 8 && f != e && 16 <= j < 32
    ensures !(8 * Scale(f) * j <= s < 8 * Scale(f) * (j + 1))
  {
    if f < e {
      assert 2 * Scale(f) <= Scale(e);
      Times(j + 1, 32, 8 * Scale(f));
    } else {
      assert 2 * Scale(e) <= Scale(f);
      Times(16, j, 8 * Scale(f));
    }
  }

  lemma Divides(s: nat, k: nat, q: nat, j: nat)
    requires k > 0 && q == s / k
    ensures k * j <= s < k * (j + 1) <==> q == j
  {
    assert s == k * q + s % k;
    if q < j { Times(q + 1, j, k); } else if q > j { Times(j + 1, q, k); }
  }
}
