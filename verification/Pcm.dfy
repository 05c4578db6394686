/** 16-bit little-endian samples. */
module Pcm {
  import opened Chunks
  import opened Wrappers

  type Sample16 = v: int | -32768 <= v < 32768

  function Int16(low: Byte, high: Byte): Sample16
  {
    if high < 128 then low + 256 * high else low + 256 * high - 65536
  }

  function Low(v: Sample16): (b: Byte)
  {
    (v + 65536) % 256
  }

  function High(v: Sample16): (b: Byte)
  {
    ((v + 65536) / 256) % 256
  }

  lemma WriteRead(v: Sample16)
    ensures Int16(Low(v), High(v)) == v
  {
  }

  function Clamp16(v: int): (r: Sample16)
  {
    if v < -32768 then -32768 else if v > 32767 then 32767 else v
  }

  /** How far a sample is from a level. */
  function Apart(s: int, y: real): real { if s as real < y then y - s as real else s as real - y }

  /** No sample is nearer to the level y than r, and of two as near r is the greater. */
  ghost predicate IsNearest(r: Sample16, y: real)
  {
    forall s: Sample16 ::
      Apart(r, y) < Apart(s, y) || (Apart(r, y) == Apart(s, y) && s <= r)
  }

  /** Rounding and then clamping finds the nearest sample. */
  lemma ClampedIsNearest(y: real)
    ensures IsNearest(Clamp16(Round(y)), y)
  {
  }

  /** A whole level has its own nearest sample, and only that one. */
  lemma OnlyNearest(v: int, r: Sample16)
    ensures IsNearest(r, v as real) <==> r == Clamp16(v)
  {
    ClampedIsNearest(v as real);
    assert Round(v as real) == v;
    if IsNearest(r, v as real) {
      var s := Clamp16(v);
      assert Apart(r, v as real) == Apart(s, v as real);
    }
  }

  /** Sample k of some audio. */
  function Sample(pcm: seq<Byte>, k: nat): Sample16
    requires 2 * k + 1 < |pcm|
  {
    Int16(pcm[2 * k], pcm[2 * k + 1])
  }

  /** The first byte of a sample counts ones, the second 256s, and a sum past the largest
      sample stands for the negative sample 65536 below it. */
  lemma SampleIs(pcm: seq<Byte>, k: nat)
    requires 2 * k + 1 < |pcm|
    ensures (pcm[2 * k] + 256 * pcm[2 * k + 1] - Sample(pcm, k)) in {0, 65536}
  {
  }

  /** Written samples read back, each at its place. */
  lemma {:induction false} BytesAt(vs: seq<Sample16>, k: nat)
    requires k < |vs|
    ensures Sample(Bytes(vs), k) == vs[k]
  {
    var n := |vs| - 1;
    if k < n {
      BytesAt(vs[..n], k);
    } else {
      WriteRead(vs[n]);
    }
  }

  function Bytes(vs: seq<Sample16>): (out: seq<Byte>)
    ensures |out| == 2 * |vs|
  {
    if vs == [] then [] else Bytes(vs[..|vs| - 1]) + [Low(vs[|vs| - 1]), High(vs[|vs| - 1])]
  }

  lemma BytesNext(vs: seq<Sample16>, v: Sample16)
    ensures Bytes(vs + [v]) == Bytes(vs) + [Low(v), High(v)]
  {
    assert (vs + [v])[..|vs|] == vs;
  }

  lemma {:induction false} BytesConcat(a: seq<Sample16>, b: seq<Sample16>)
    ensures Bytes(a + b) == Bytes(a) + Bytes(b)
  {
    if b == [] {
      assert a + b == a;
    } else {
      var n := |b| - 1;
      BytesConcat(a, b[..n]);
      BytesNext(a + b[..n], b[n]);
      assert a + b == a + b[..n] + [b[n]];
    }
  }
}
