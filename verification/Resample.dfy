/** The 2x resamplers around Twilio's audio (g711.ts): a low-pass filter that keeps its last
    inputs in a ring buffer, and the two converters built on it. The filter's taps are any
    real numbers. */
module Resample {
  import opened Wrappers
  import opened Chunks
  import opened Pcm
  import G711

  // ---- convolution ----

  /** The input i steps before the last one; zero before the first. */
  function Back(xs: seq<int>, i: nat): int { if i < |xs| then xs[|xs| - 1 - i] else 0 }

  /** The sum of the first n taps times the latest n inputs. */
  function Conv(taps: seq<real>, xs: seq<int>, n: nat): real
    requires n <= |taps|
  {
    if n == 0 then 0.0 else Conv(taps, xs, n - 1) + taps[n - 1] * Back(xs, n - 1) as real
  }

  /** Nothing comes of silence. */
  lemma {:induction false} ConvOfSilence(taps: seq<real>, xs: seq<int>, n: nat)
    requires n <= |taps| && forall i :: 0 <= i < |xs| ==> xs[i] == 0
    ensures Conv(taps, xs, n) == 0.0
  {
    if n > 0 { ConvOfSilence(taps, xs, n - 1); }
  }

  /** The input d steps before the last one weighs as much as tap d, and one as far back as
      there are taps weighs nothing: if it alone is changed, so much does the output change. */
  lemma {:induction false} InputWeighsItsTap(taps: seq<real>, xs: seq<int>, d: nat, x: int, n: nat)
    requires n <= |taps| && d < |xs|
    ensures Conv(taps, xs[|xs| - 1 - d := x], n) - Conv(taps, xs, n)
         == if d < n then taps[d] * (x - xs[|xs| - 1 - d]) as real else 0.0
  {
    if n > 0 {
      InputWeighsItsTap(taps, xs, d, x, n - 1);
      var ys := xs[|xs| - 1 - d := x];
      assert Back(ys, n - 1) == if d == n - 1 then x else Back(xs, n - 1);
    }
  }

  /** The slot i places before `pos` in a ring of n. */
  function At(pos: nat, i: nat, n: nat): (k: nat)
    requires pos < n && i < n
    ensures k < n
  {
    if i <= pos then pos - i else pos - i + n
  }

  lemma Wraps(pos: nat, n: nat)
    requires pos < n
    ensures (pos + 1) % n == if pos + 1 == n then 0 else pos + 1
  {
  }

  class Fir {
    const taps: seq<real>
    const hist: array<int>
    var pos: nat
    ghost var inputs: seq<int>

    /** The slot that was written i + 1 writes ago. */
    function Slot(i: nat): (k: int)
      requires i < hist.Length && pos < hist.Length
      reads this
      ensures 0 <= k < hist.Length
    {
      At(if pos == 0 then hist.Length - 1 else pos - 1, i, hist.Length)
    }

    ghost predicate Valid()
      reads this, hist
    {
      && hist.Length == |taps| && pos < |taps|
      && forall i :: 0 <= i < |taps| ==> hist[Slot(i)] == Back(inputs, i)
    }

    constructor (taps: seq<real>)
      requires |taps| > 0
      ensures Valid() && fresh(hist) && this.taps == taps && inputs == []
    {
      this.taps := taps;
      hist := new int[|taps|](_ => 0);
      pos, inputs := 0, [];
    }

    method Push(x: int) returns (y: real)
      requires Valid()
      modifies this, hist
      ensures Valid() && inputs == old(inputs) + [x]
      ensures y == Conv(taps, inputs, |taps|)
    {
      Write(x);
      y := Sum(inputs);
      Wraps(pos, |taps|);
      pos := (pos + 1) % |taps|;
    }

    method Write(x: int)
      requires Valid()
      modifies this`inputs, hist
      ensures hist.Length == |taps| && inputs == old(inputs) + [x]
      ensures forall i :: 0 <= i < |taps| ==> hist[At(pos, i, |taps|)] == Back(inputs, i)
    {
      ghost var before := hist[..];
      hist[pos] := x;
      inputs := inputs + [x];
      forall i | 0 <= i < |taps| ensures hist[At(pos, i, |taps|)] == Back(inputs, i) {
        if i > 0 { assert before[old(Slot(i - 1))] == Back(old(inputs), i - 1); }
      }
    }

    method Sum(ghost xs: seq<int>) returns (y: real)
      requires hist.Length == |taps| && pos < |taps|
      requires forall i :: 0 <= i < |taps| ==> hist[At(pos, i, |taps|)] == Back(xs, i)
      ensures y == Conv(taps, xs, |taps|)
    {
      y := 0.0;
      var k := pos;
      for i := 0 to |taps|
        invariant 0 <= k < |taps| && (i < |taps| ==> k == At(pos, i, |taps|))
        invariant y == Conv(taps, xs, i)
      {
        assert hist[k] == Back(xs, i);
        y := y + taps[i] * hist[k] as real;
        k := if k == 0 then |taps| - 1 else k - 1;
      }
    }
  }

  // ---- converting a stream as it comes ----

  /** What a converter gives for a whole stream, if `step` is what it gives for the last
      element of one. */
  function Converted<A, B>(step: seq<A> -> seq<B>, xs: seq<A>): seq<B>
  {
    if xs == [] then [] else Converted(step, xs[..|xs| - 1]) + step(xs)
  }

  lemma ConvertedNext<A, B>(step: seq<A> -> seq<B>, xs: seq<A>, x: A)
    ensures Converted(step, xs + [x]) == Converted(step, xs) + step(xs + [x])
  {
    assert (xs + [x])[..|xs|] == xs;
  }

  lemma {:induction false} FlatNext(chunks: seq<Chunk>, i: nat)
    requires i < |chunks|
    ensures Flat(chunks[..i + 1]) == Flat(chunks[..i]) + chunks[i]
  {
    FlatConcat(chunks[..i], [chunks[i]]);
    FlatOne(chunks[i]);
    assert chunks[..i + 1] == chunks[..i] + [chunks[i]];
  }

  // ---- mu-law 8 kHz to 16 kHz ----

  /** A zero after every sample. */
  function Stuffed(mulaw: seq<Byte>): (xs: seq<int>)
    ensures |xs| == 2 * |mulaw|
  {
    if mulaw == [] then [] else Stuffed(mulaw[..|mulaw| - 1]) + [G711.Decode(mulaw[|mulaw| - 1])] + [0]
  }

  lemma StuffedNext(mulaw: seq<Byte>, b: Byte)
    ensures Stuffed(mulaw + [b]) == Stuffed(mulaw) + [G711.Decode(b)] + [0]
  {
    assert (mulaw + [b])[..|mulaw|] == mulaw;
  }

  lemma {:induction false} StuffedAt(mulaw: seq<Byte>, i: nat)
    requires i < |mulaw|
    ensures Stuffed(mulaw)[2 * i] == G711.Decode(mulaw[i]) && Stuffed(mulaw)[2 * i + 1] == 0
  {
    if i < |mulaw| - 1 { StuffedAt(mulaw[..|mulaw| - 1], i); }
  }

  /** Gain 2 restores the level the zeros took. */
  function Louder(y: real): Sample16 { Clamp16(Round(2.0 * y)) }

  /** The two samples a byte becomes: the filtered stream at its own place and at the zero's. */
  function TwoSamples(taps: seq<real>, mulaw: seq<Byte>): (vs: seq<Sample16>)
    requires mulaw != []
    ensures |vs| == 2
  {
    var xs := Stuffed(mulaw);
    [Louder(Conv(taps, xs[..|xs| - 1], |taps|))] + [Louder(Conv(taps, xs, |taps|))]
  }

  function Upsampler(taps: seq<real>): seq<Byte> -> seq<Sample16>
  {
    mulaw => if mulaw == [] then [] else TwoSamples(taps, mulaw)
  }

  lemma {:induction false} UpsampledLength(taps: seq<real>, mulaw: seq<Byte>)
    ensures |Converted(Upsampler(taps), mulaw)| == 2 * |mulaw|
  {
    if mulaw != [] { UpsampledLength(taps, mulaw[..|mulaw| - 1]); }
  }

  class MuLawToPcm16k {
    const fir: Fir
    ghost var heard: seq<Byte>

    ghost predicate Valid()
      reads this, fir, fir.hist
    {
      fir.Valid() && fir.inputs == Stuffed(heard)
    }

    /** The samples for everything heard so far. */
    ghost function Output(): seq<Sample16>
      reads this
    {
      Converted(Upsampler(fir.taps), heard)
    }

    constructor (taps: seq<real>)
      requires |taps| > 0
      ensures Valid() && fresh(fir) && fresh(fir.hist) && fir.taps == taps && heard == []
    {
      fir := new Fir(taps);
      heard := [];
    }

    method Process(mulaw: seq<Byte>) returns (out: seq<Byte>)
      requires Valid()
      modifies this, fir, fir.hist
      ensures Valid() && heard == old(heard) + mulaw
      ensures |out| == 4 * |mulaw|
      ensures old(Output()) <= Output() && out == Bytes(Output()[|old(Output())|..])
    {
      out := [];
      ghost var was, had := heard, Output();
      ghost var vs: seq<Sample16> := [];
      for i := 0 to |mulaw|
        invariant Valid() && heard == was + mulaw[..i]
        invariant Output() == had + vs
        invariant |vs| == 2 * i && out == Bytes(vs)
      {
        var v0, v1 := ProcessByte(mulaw[i]);
        TakeNext(was, mulaw, i);
        TwoMore(had, vs, v0, v1);
        out := out + [Low(v0), High(v0)] + [Low(v1), High(v1)];
        vs := vs + ([v0] + [v1]);
      }
      assert mulaw[..|mulaw|] == mulaw;
      Extends(had, vs);
    }

    /** The byte's sample and a zero go through the filter. */
    method ProcessByte(b: Byte) returns (v0: Sample16, v1: Sample16)
      requires Valid()
      modifies this, fir, fir.hist
      ensures Valid() && heard == old(heard) + [b]
      ensures Output() == old(Output()) + ([v0] + [v1])
    {
      var y0 := fir.Push(G711.Decode(b));
      var y1 := fir.Push(0);
      v0, v1 := Louder(y0), Louder(y1);
      ByteHeard(fir.taps, heard, b, y0, y1);
      heard := heard + [b];
    }
  }

  lemma TwoMore(had: seq<Sample16>, vs: seq<Sample16>, v0: Sample16, v1: Sample16)
    ensures had + vs + ([v0] + [v1]) == had + (vs + ([v0] + [v1]))
    ensures Bytes(vs) + [Low(v0), High(v0)] + [Low(v1), High(v1)] == Bytes(vs + ([v0] + [v1]))
  {
    BytesNext(vs, v0);
    BytesNext(vs + [v0], v1);
    assert vs + [v0] + [v1] == vs + ([v0] + [v1]);
  }

  lemma TakeNext<T>(was: seq<T>, s: seq<T>, i: nat)
    requires i < |s|
    ensures was + s[..i] + [s[i]] == was + s[..i + 1]
  {
    assert s[..i] + [s[i]] == s[..i + 1];
  }

  lemma Extends<T>(a: seq<T>, b: seq<T>)
    ensures a <= a + b && (a + b)[|a|..] == b
  {
  }

  lemma ByteHeard(taps: seq<real>, heard: seq<Byte>, b: Byte, y0: real, y1: real)
    requires var xs := Stuffed(heard) + [G711.Decode(b)];
             y0 == Conv(taps, xs, |taps|) && y1 == Conv(taps, xs + [0], |taps|)
    ensures Stuffed(heard + [b]) == Stuffed(heard) + [G711.Decode(b)] + [0]
    ensures Converted(Upsampler(taps), heard + [b]) == Converted(Upsampler(taps), heard) + ([Louder(y0)] + [Louder(y1)])
  {
    StuffedNext(heard, b);
    var xs := Stuffed(heard) + [G711.Decode(b)];
    assert (xs + [0])[..|xs|] == xs;
    ConvertedNext(Upsampler(taps), heard, b);
  }

  /** Each sample of the whole stream is the sample nearest to twice the filter's output at its
      own place: twice the convolution of the zero-stuffed bytes up to there. */
  lemma {:induction false} UpsampledAt(taps: seq<real>, mulaw: seq<Byte>, k: nat)
    requires k < 2 * |mulaw|
    ensures |Converted(Upsampler(taps), mulaw)| == 2 * |mulaw|
    ensures IsNearest(Converted(Upsampler(taps), mulaw)[k], 2.0 * Conv(taps, Stuffed(mulaw)[..k + 1], |taps|))
  {
    FilteredAt(taps, mulaw, k);
    ClampedIsNearest(2.0 * Conv(taps, Stuffed(mulaw)[..k + 1], |taps|));
  }

  lemma {:induction false} FilteredAt(taps: seq<real>, mulaw: seq<Byte>, k: nat)
    requires k < 2 * |mulaw|
    ensures |Converted(Upsampler(taps), mulaw)| == 2 * |mulaw|
    ensures Converted(Upsampler(taps), mulaw)[k] == Louder(Conv(taps, Stuffed(mulaw)[..k + 1], |taps|))
  {
    var n := |mulaw| - 1;
    UpsampledLength(taps, mulaw);
    UpsampledLength(taps, mulaw[..n]);
    var xs := Stuffed(mulaw);
    assert xs[..2 * n] == Stuffed(mulaw[..n]);
    if k < 2 * n {
      FilteredAt(taps, mulaw[..n], k);
      assert xs[..2 * n][..k + 1] == xs[..k + 1];
    } else if k == 2 * n {
      assert xs[..k + 1] == xs[..|xs| - 1];
    } else {
      assert xs[..k + 1] == xs;
    }
  }

  lemma MoreBytes(had: seq<Sample16>, now: seq<Sample16>)
    requires had <= now
    ensures Bytes(had) + Bytes(now[|had|..]) == Bytes(now)
  {
    BytesConcat(had, now[|had|..]);
    assert had + now[|had|..] == now;
  }

  /** A fresh converter fed a stream chunk by chunk, as Twilio sends it: however the bytes are
      cut, the output is that of the whole stream. */
  method UpsampleChunks(taps: seq<real>, chunks: seq<Chunk>) returns (out: seq<Byte>)
    requires |taps| > 0
    ensures out == Bytes(Converted(Upsampler(taps), Flat(chunks)))
    ensures |out| == 4 * |Flat(chunks)|
  {
    var converter := new MuLawToPcm16k(taps);
    out := [];
    for i := 0 to |chunks|
      invariant converter.Valid() && fresh(converter) && fresh(converter.fir) && fresh(converter.fir.hist)
      invariant converter.fir.taps == taps && converter.heard == Flat(chunks[..i])
      invariant out == Bytes(converter.Output())
    {
      ghost var had := converter.Output();
      var more := converter.Process(chunks[i]);
      FlatNext(chunks, i);
      MoreBytes(had, converter.Output());
      out := out + more;
    }
    assert chunks[..|chunks|] == chunks;
    UpsampledLength(taps, Flat(chunks));
  }

  // ---- 16 kHz to mu-law 8 kHz ----

  /** The samples of one chunk; a last odd byte is dropped. */
  function Samples(pcm: seq<Byte>): (vs: seq<Sample16>)
    ensures |vs| == |pcm| / 2
    decreases |pcm|
  {
    if |pcm| < 2 then [] else [Int16(pcm[0], pcm[1])] + Samples(pcm[2..])
  }

  function Coded(y: real): Byte { G711.Encode(Round(y)) }

  /** The byte that the last sample gives: every other one gives none. */
  function ByteAt(taps: seq<real>, vs: seq<Sample16>): seq<Byte>
  {
    if |vs| % 2 == 1 then [Coded(Conv(taps, vs, |taps|))] else []
  }

  function Downsampler(taps: seq<real>): seq<Sample16> -> seq<Byte>
  {
    vs => ByteAt(taps, vs)
  }

  lemma {:induction false} DownsampledLength(taps: seq<real>, vs: seq<Sample16>)
    ensures |Converted(Downsampler(taps), vs)| == (|vs| + 1) / 2
  {
    if vs != [] { DownsampledLength(taps, vs[..|vs| - 1]); }
  }

  class Pcm16kToMuLaw {
    const fir: Fir
    var odd: bool
    ghost var heard: seq<Sample16>

    ghost predicate Valid()
      reads this, fir, fir.hist
    {
      fir.Valid() && fir.inputs == heard && (odd <==> |heard| % 2 == 1)
    }

    ghost function Output(): seq<Byte>
      reads this
    {
      Converted(Downsampler(fir.taps), heard)
    }

    constructor (taps: seq<real>)
      requires |taps| > 0
      ensures Valid() && fresh(fir) && fresh(fir.hist) && fir.taps == taps && heard == []
    {
      fir := new Fir(taps);
      odd, heard := false, [];
    }

    method Process(pcm: seq<Byte>) returns (out: seq<Byte>)
      requires Valid()
      modifies this, fir, fir.hist
      ensures Valid() && heard == old(heard) + Samples(pcm)
      ensures Output() == old(Output()) + out
    {
      out := [];
      ghost var was, had, vs := heard, Output(), Samples(pcm);
      for i := 0 to |pcm| / 2
        invariant Valid() && heard == was + vs[..i]
        invariant Output() == had + out
      {
        SampleAt(pcm, i);
        var b := ProcessSample(Int16(pcm[2 * i], pcm[2 * i + 1]));
        TakeNext(was, vs, i);
        assert had + out + b == had + (out + b);
        out := out + b;
      }
      assert vs[..|vs|] == vs;
    }

    method ProcessSample(v: Sample16) returns (out: seq<Byte>)
      requires Valid()
      modifies this, fir, fir.hist
      ensures Valid() && heard == old(heard) + [v]
      ensures Output() == old(Output()) + out
    {
      var y := fir.Push(v);
      SampleHeard(fir.taps, heard, v, y);
      Parity(|heard|);
      out := [];
      if !odd {
        var b := G711.MuLawEncode(y);
        out := [b];
      }
      heard := heard + [v];
      odd := !odd;
    }
  }

  lemma {:induction false} SampleAt(pcm: seq<Byte>, i: nat)
    requires i < |pcm| / 2
    ensures Samples(pcm)[i] == Int16(pcm[2 * i], pcm[2 * i + 1])
    decreases |pcm|
  {
    if i > 0 { SampleAt(pcm[2..], i - 1); }
  }

  lemma SampleHeard(taps: seq<real>, heard: seq<Sample16>, v: Sample16, y: real)
    requires y == Conv(taps, heard + [v], |taps|)
    ensures Converted(Downsampler(taps), heard + [v])
         == Converted(Downsampler(taps), heard) + if |heard| % 2 == 0 then [Coded(y)] else []
  {
    Parity(|heard|);
    ByteIs(taps, heard + [v], y);
    DownsampledNext(taps, heard, v, ByteAt(taps, heard + [v]));
  }

  lemma Parity(n: nat)
    ensures (n + 1) % 2 == 1 <==> n % 2 == 0
  {
  }

  lemma ByteIs(taps: seq<real>, vs: seq<Sample16>, y: real)
    requires y == Conv(taps, vs, |taps|)
    ensures ByteAt(taps, vs) == if |vs| % 2 == 1 then [Coded(y)] else []
  {
  }

  lemma DownsampledNext(taps: seq<real>, heard: seq<Sample16>, v: Sample16, out: seq<Byte>)
    requires ByteAt(taps, heard + [v]) == out
    ensures Converted(Downsampler(taps), heard + [v]) == Converted(Downsampler(taps), heard) + out
  {
    assert Downsampler(taps)(heard + [v]) == out;
    ConvertedNext(Downsampler(taps), heard, v);
  }

  lemma {:induction false} SamplesConcat(a: seq<Byte>, b: seq<Byte>)
    requires |a| % 2 == 0
    ensures Samples(a + b) == Samples(a) + Samples(b)
    decreases |a|
  {
    if a == [] {
      assert a + b == b;
    } else {
      assert (a + b)[2..] == a[2..] + b;
      SamplesConcat(a[2..], b);
    }
  }

  /** The samples a converter reads from one chunk after another. */
  function SamplesIn(chunks: seq<Chunk>): (vs: seq<Sample16>)
  {
    if chunks == [] then [] else Samples(chunks[0]) + SamplesIn(chunks[1..])
  }

  lemma {:induction false} SamplesInNext(chunks: seq<Chunk>, i: nat)
    requires i < |chunks|
    ensures SamplesIn(chunks[..i + 1]) == SamplesIn(chunks[..i]) + Samples(chunks[i])
  {
    if i == 0 {
      assert chunks[..1][1..] == [] && chunks[..0] == [];
      assert SamplesIn(chunks[..1]) == Samples(chunks[0]) + SamplesIn([]);
    } else {
      SamplesInNext(chunks[1..], i - 1);
      assert chunks[..i + 1][1..] == chunks[1..][..i] && chunks[..i][1..] == chunks[1..][..i - 1];
      assert Samples(chunks[0]) + (SamplesIn(chunks[1..][..i - 1]) + Samples(chunks[i]))
          == Samples(chunks[0]) + SamplesIn(chunks[1..][..i - 1]) + Samples(chunks[i]);
    }
  }

  predicate WholeSamples(chunks: seq<Chunk>) { forall i :: 0 <= i < |chunks| ==> |chunks[i]| % 2 == 0 }

  lemma {:induction false} WholeSamplesIn(chunks: seq<Chunk>)
    requires WholeSamples(chunks)
    ensures SamplesIn(chunks) == Samples(Flat(chunks))
  {
    if chunks != [] {
      WholeSamplesIn(chunks[1..]);
      SamplesConcat(chunks[0], Flat(chunks[1..]));
    }
  }

  /** Each byte of the whole stream is the code of the filter's output at every other sample. */
  lemma {:induction false} DownsampledAt(taps: seq<real>, vs: seq<Sample16>, k: nat)
    requires 2 * k < |vs|
    ensures |Converted(Downsampler(taps), vs)| == (|vs| + 1) / 2
    ensures Converted(Downsampler(taps), vs)[k] == G711.Encode(Round(Conv(taps, vs[..2 * k + 1], |taps|)))
  {
    var n := |vs| - 1;
    DownsampledLength(taps, vs);
    DownsampledLength(taps, vs[..n]);
    if 2 * k < n {
      DownsampledAt(taps, vs[..n], k);
      assert vs[..n][..2 * k + 1] == vs[..2 * k + 1];
    } else {
      assert vs[..2 * k + 1] == vs;
    }
  }

  /** A fresh converter fed a stream chunk by chunk: the output is that of all the samples it
      could read, and so, if each chunk holds whole samples, that of the whole stream. */
  method DownsampleChunks(taps: seq<real>, chunks: seq<Chunk>) returns (out: seq<Byte>)
    requires |taps| > 0
    ensures out == Converted(Downsampler(taps), SamplesIn(chunks))
    ensures WholeSamples(chunks) ==>
              out == Converted(Downsampler(taps), Samples(Flat(chunks))) && |out| == (|Flat(chunks)| / 2 + 1) / 2
  {
    var converter := new Pcm16kToMuLaw(taps);
    out := [];
    for i := 0 to |chunks|
      invariant converter.Valid() && fresh(converter) && fresh(converter.fir) && fresh(converter.fir.hist)
      invariant converter.fir.taps == taps && converter.heard == SamplesIn(chunks[..i])
      invariant out == converter.Output()
    {
      var more := converter.Process(chunks[i]);
      SamplesInNext(chunks, i);
      out := out + more;
    }
    assert chunks[..|chunks|] == chunks;
    if WholeSamples(chunks) {
      WholeSamplesIn(chunks);
      DownsampledLength(taps, Samples(Flat(chunks)));
    }
  }

  /** Two chunks of m and n bytes are read as one chunk would be, whatever is in them, exactly
      when the first holds whole samples or the second is empty: each chunk is read on its own,
      and an odd byte left over is dropped. */
  lemma ChunksReadAsOneIff(m: nat, n: nat)
    ensures (forall a, b {:trigger Samples(a), Samples(b)} :: |a| == m && |b| == n ==> Samples(a) + Samples(b) == Samples(a + b))
       <==> m % 2 == 0 || n == 0
  {
    forall a: seq<Byte>, b: seq<Byte> | |a| == m && |b| == n && (m % 2 == 0 || n == 0)
      ensures Samples(a) + Samples(b) == Samples(a + b)
    {
      if m % 2 == 0 { SamplesConcat(a, b); } else { assert a + b == a; }
    }
    if m % 2 == 1 && n > 0 { OddSplit(m, n); }
  }

  lemma OddSplit(m: nat, n: nat)
    requires m % 2 == 1 && n > 0
    ensures exists a, b {:trigger Samples(a), Samples(b)} :: |a| == m && |b| == n && Samples(a) + Samples(b) != Samples(a + b)
  {
    var a: seq<Byte>, b: seq<Byte> := seq(m, _ => 0), seq(n, i => if i == 0 then 1 else 0);
    var k := m / 2;
    assert 2 * k == m - 1 && |Samples(a)| == k && |Samples(a + b)| > k;
    SampleAt(a + b, k);
    assert Samples(a + b)[k] == 256;
    if n > 1 {
      SampleAt(b, 0);
      assert (Samples(a) + Samples(b))[k] == 1;
    } else {
      assert |Samples(a) + Samples(b)| == k;
    }
  }
}
