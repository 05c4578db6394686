/** Queues of audio chunks that drop their oldest chunks when they hold too many bytes. */
module Chunks {
  type Byte = x: int | 0 <= x < 256

  type Chunk = seq<Byte>

  function Total(cs: seq<Chunk>): nat
  {
    if cs == [] then 0 else |cs[0]| + Total(cs[1..])
  }

  function Flat(cs: seq<Chunk>): (bytes: seq<Byte>)
    ensures |bytes| == Total(cs)
  {
    if cs == [] then [] else cs[0] + Flat(cs[1..])
  }

  /** What is left of a queue that drops whole chunks, oldest first, until it is within a limit
      or down to one chunk. */
  function Trim(cs: seq<Chunk>, limit: nat): (r: seq<Chunk>)
    ensures |r| <= |cs|
  {
    if Total(cs) > limit && |cs| > 1 then Trim(cs[1..], limit) else cs
  }

  lemma {:induction false} FlatConcat(a: seq<Chunk>, b: seq<Chunk>)
    ensures Flat(a + b) == Flat(a) + Flat(b)
    ensures Total(a + b) == Total(a) + Total(b)
  {
    if a == [] {
      assert a + b == b;
    } else {
      assert (a + b)[1..] == a[1..] + b;
      FlatConcat(a[1..], b);
      assert a[0] + (Flat(a[1..]) + Flat(b)) == Flat(a) + Flat(b);
    }
  }

  lemma {:induction false} FlatOne(c: Chunk)
    ensures Flat([c]) == c && Total([c]) == |c|
  {
    assert [c][1..] == [];
  }

  lemma {:induction false} TotalTail(cs: seq<Chunk>, k: nat)
    requires k <= |cs|
    ensures Total(cs[k..]) <= Total(cs)
  {
    assert cs == cs[..k] + cs[k..];
    FlatConcat(cs[..k], cs[k..]);
  }

  /** How many chunks a trim drops. */
  function Dropped(cs: seq<Chunk>, limit: nat): nat { |cs| - |Trim(cs, limit)| }

  /** A trim keeps the longest tail within the limit, or just the last chunk. */
  lemma {:induction false} TrimIsLongest(cs: seq<Chunk>, limit: nat)
    ensures Trim(cs, limit) == cs[Dropped(cs, limit)..]
    ensures Total(Trim(cs, limit)) <= limit || |Trim(cs, limit)| == 1
    ensures cs != [] ==> Trim(cs, limit) != []
    ensures forall j :: 0 <= j < Dropped(cs, limit) ==> Total(cs[j..]) > limit
  {
    if Total(cs) > limit && |cs| > 1 {
      TrimIsLongest(cs[1..], limit);
      forall j | 0 <= j < Dropped(cs, limit) ensures Total(cs[j..]) > limit {
        if j > 0 { assert cs[j..] == cs[1..][j - 1..]; }
      }
    }
  }

  /** Trimming as chunks arrive keeps what trimming once at the end would. */
  lemma {:induction false} TrimAsYouGo(cs: seq<Chunk>, c: Chunk, limit: nat)
    ensures Trim(Trim(cs, limit) + [c], limit) == Trim(cs + [c], limit)
  {
    if Total(cs) > limit && |cs| > 1 {
      TrimAsYouGo(cs[1..], c, limit);
      FlatConcat(cs, [c]);
      assert (cs + [c])[1..] == cs[1..] + [c];
    }
  }

  /** Drops the oldest chunks of a queue that holds `total` bytes. */
  method DropOldest(cs: seq<Chunk>, total: nat, limit: nat) returns (kept: seq<Chunk>, left: nat)
    requires total == Total(cs)
    ensures kept == Trim(cs, limit) && left == Total(kept)
  {
    kept, left := cs, total;
    while left > limit && |kept| > 1
      invariant left == Total(kept) && Trim(kept, limit) == Trim(cs, limit)
      decreases |kept|
    {
      left := left - |kept[0]|;
      kept := kept[1..];
    }
  }
}
