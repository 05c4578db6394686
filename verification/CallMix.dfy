/** What a listener hears (mix.ts): the line's audio mixed with as much of the voice model's,
    which comes in bursts and waits in a queue of chunks. 16-bit little-endian samples. */
module CallMix {
  import opened Wrappers
  import opened Chunks
  import opened Pcm

  const MAX_QUEUED_BYTES := 30_000 * 32

  // ---- the queue ----

  function Even(n: nat): nat { n - n % 2 }

  /** The queue after `bytes` more of it were taken. */
  function Taken(queue: seq<Chunk>, bytes: nat): (rest: seq<Chunk>)
  {
    if queue == [] || bytes == 0 then queue
    else if |queue[0]| <= bytes then Taken(queue[1..], bytes - |queue[0]|)
    else [queue[0][bytes..]] + queue[1..]
  }

  function Pushed(queue: seq<Chunk>, pcm: Chunk): seq<Chunk>
  {
    if pcm == [] then queue else Trim(queue + [pcm], MAX_QUEUED_BYTES)
  }

  /** Each sample of `out` is the sample nearest to the sum of the line's and the model's, the
      model being silent once it is out of samples; a last odd byte of the line is dropped. */
  ghost predicate IsMix(out: seq<Byte>, line: seq<Byte>, model: seq<Byte>)
  {
    && |out| == |line| / 2 * 2
    && forall k {:trigger Sample(out, k)} :: 0 <= k < |line| / 2 ==>
         IsNearest(Sample(out, k), (Sample(line, k) + if k < |model| / 2 then Sample(model, k) else 0) as real)
  }

  /** Taking bytes off the queue takes them off its bytes, wherever the chunks begin. */
  lemma {:induction false} TakenIsFlat(queue: seq<Chunk>, bytes: nat)
    ensures Flat(Taken(queue, bytes)) == Flat(queue)[Min(bytes, Total(queue))..]
  {
    if queue != [] && bytes != 0 {
      if |queue[0]| <= bytes {
        TakenIsFlat(queue[1..], bytes - |queue[0]|);
      } else {
        assert ([queue[0][bytes..]] + queue[1..])[1..] == queue[1..];
      }
    }
  }

  /** The queue without the first n bytes of its first chunk. */
  function Beheaded(queue: seq<Chunk>, n: nat): (rest: seq<Chunk>)
    requires queue != [] && n <= |queue[0]|
  {
    if n == |queue[0]| then queue[1..] else [queue[0][n..]] + queue[1..]
  }

  lemma {:induction false} BeheadedIsFlat(queue: seq<Chunk>, n: nat)
    requires queue != [] && n <= |queue[0]|
    ensures Flat(queue) == queue[0][..n] + Flat(Beheaded(queue, n))
  {
    var head, tail := queue[0], Flat(queue[1..]);
    if n < |head| {
      assert Beheaded(queue, n)[1..] == queue[1..];
      assert head[..n] + (head[n..] + tail) == head + tail;
    } else {
      assert head[..n] == head;
    }
  }

  lemma {:induction false} TakenStep(queue: seq<Chunk>, need: nat)
    requires queue != [] && need > 0
    ensures Taken(queue, need) == Taken(Beheaded(queue, Min(|queue[0]|, need)), need - Min(|queue[0]|, need))
  {
  }

  /** The bytes of a queue of even chunks keep whole samples. */
  lemma {:induction false} EvenTotal(queue: seq<Chunk>)
    requires forall i :: 0 <= i < |queue| ==> |queue[i]| % 2 == 0
    ensures Total(queue) % 2 == 0
  {
    if queue != [] { EvenTotal(queue[1..]); }
  }

  lemma {:induction false} TakenIsEven(queue: seq<Chunk>, bytes: nat)
    requires bytes % 2 == 0 && forall i :: 0 <= i < |queue| ==> |queue[i]| % 2 == 0
    ensures forall i :: 0 <= i < |Taken(queue, bytes)| ==> |Taken(queue, bytes)[i]| % 2 == 0
  {
    if queue != [] && bytes != 0 && |queue[0]| <= bytes { TakenIsEven(queue[1..], bytes - |queue[0]|); }
  }

  /** A queue that is the end of a stream stays the end of it. */
  lemma {:induction false} PushedIsEnd(queue: seq<Chunk>, pcm: Chunk, stream: seq<Byte>)
    requires Total(queue) <= |stream| && Flat(queue) == stream[|stream| - Total(queue)..]
    ensures var q, s := Pushed(queue, pcm), stream + pcm;
            Total(q) <= |s| && Flat(q) == s[|s| - Total(q)..]
  {
    hide Flat, Total, Trim;
    if pcm == [] {
      assert stream + pcm == stream;
    } else {
      var all := queue + [pcm];
      FlatConcat(queue, [pcm]);
      FlatOne(pcm);
      EndGrows(stream, Flat(queue), pcm);
      TrimIsLongest(all, MAX_QUEUED_BYTES);
      TailIsEnd(all, Dropped(all, MAX_QUEUED_BYTES), stream + pcm);
    }
  }

  lemma {:induction false} PushedIsEven(queue: seq<Chunk>, pcm: Chunk)
    requires (forall i :: 0 <= i < |queue| ==> |queue[i]| % 2 == 0) && |pcm| % 2 == 0
    ensures forall i :: 0 <= i < |Pushed(queue, pcm)| ==> |Pushed(queue, pcm)[i]| % 2 == 0
  {
    var all := queue + [pcm];
    TrimIsLongest(all, MAX_QUEUED_BYTES);
  }

  lemma {:induction false} TailIsEnd(all: seq<Chunk>, k: nat, stream: seq<Byte>)
    requires k <= |all| && Total(all) <= |stream| && Flat(all) == stream[|stream| - Total(all)..]
    ensures Total(all[k..]) <= |stream| && Flat(all[k..]) == stream[|stream| - Total(all[k..])..]
  {
    assert all == all[..k] + all[k..];
    FlatConcat(all[..k], all[k..]);
  }

  class CallMix {
    var queue: seq<Chunk>
    var queued: int
    /** Everything the model has said to the line so far. */
    ghost var stream: seq<Byte>

    /** The queue is the end of the model's stream. */
    ghost predicate Valid()
      reads this
    {
      queued == Total(queue) && queued <= |stream| && Flat(queue) == stream[|stream| - queued..]
    }

    ghost predicate EvenChunks()
      reads this
    {
      forall i :: 0 <= i < |queue| ==> |queue[i]| % 2 == 0
    }

    constructor ()
      ensures Valid() && EvenChunks() && queue == [] && stream == []
    {
      queue, queued, stream := [], 0, [];
    }

    method Model(pcm: Chunk)
      requires Valid()
      modifies this
      ensures Valid() && stream == old(stream) + pcm
      ensures queue == Pushed(old(queue), pcm)
      ensures old(EvenChunks()) && |pcm| % 2 == 0 ==> EvenChunks()
    {
      PushedIsEnd(queue, pcm, stream);
      if EvenChunks() && |pcm| % 2 == 0 { PushedIsEven(queue, pcm); }
      Push(pcm);
      stream := stream + pcm;
    }

    method Push(pcm: Chunk)
      requires queued == Total(queue)
      modifies this`queue, this`queued
      ensures queue == Pushed(old(queue), pcm) && queued == Total(queue)
    {
      if pcm == [] { return; }
      FlatConcat(queue, [pcm]);
      FlatOne(pcm);
      queue, queued := DropOldest(queue + [pcm], queued + |pcm|, MAX_QUEUED_BYTES);
    }

    method Clear()
      modifies this
      ensures Valid() && EvenChunks() && queue == [] && stream == old(stream)
    {
      queue, queued := [], 0;
      assert stream[|stream|..] == [];
    }

    /** None: the source reads half a sample past what it took, and throws. Otherwise the line
        mixed with the next stretch of the model's stream. */
    method Line(pcm: seq<Byte>) returns (out: Option<seq<Byte>>)
      requires Valid()
      modifies this
      ensures Valid() && stream == old(stream)
      ensures queue == Taken(old(queue), Even(|pcm|))
      ensures out.None? <==> Min(Even(|pcm|), old(queued)) % 2 == 1
      ensures out.Some? ==> IsMix(out.value, pcm, old(stream[|stream| - queued..][..Min(Even(|pcm|), queued)]))
      ensures old(EvenChunks()) ==> EvenChunks() && out.Some?
    {
      if EvenChunks() {
        EvenTotal(queue);
        TakenIsEven(queue, Even(|pcm|));
      }
      var model := Take(Even(|pcm|));
      if |model| % 2 == 1 { return None; }
      var mixed := Mix(pcm, model);
      out := Some(mixed);
    }

    method Take(bytes: nat) returns (got: seq<Byte>)
      requires Valid()
      modifies this
      ensures Valid() && stream == old(stream)
      ensures queue == Taken(old(queue), bytes)
      ensures got == old(stream[|stream| - queued..][..Min(bytes, queued)])
    {
      ghost var whole := queue;
      got := [];
      while |got| < bytes && queue != []
        invariant stream == old(stream) && queued == old(queued)
        invariant |got| <= bytes && Taken(queue, bytes - |got|) == Taken(whole, bytes)
        invariant Flat(whole) == got + Flat(queue)
        decreases |queue|, bytes - |got|
      {
        ghost var before := queue;
        var head := queue[0];
        var n := Min(|head|, bytes - |got|);
        TakenStep(queue, bytes - |got|);
        BeheadedIsFlat(queue, n);
        if n == |head| {
          queue := queue[1..];
        } else {
          queue := [head[n..]] + queue[1..];
        }
        TakeOn(got, head[..n], Flat(queue));
        got := got + head[..n];
      }
      queued := queued - |got|;
      TakeEnds(Flat(whole), got, Flat(queue), bytes);
    }
  }

  lemma TakeOn(a: seq<Byte>, b: seq<Byte>, c: seq<Byte>)
    ensures a + (b + c) == (a + b) + c
  {
  }

  lemma TakeEnds(whole: seq<Byte>, got: seq<Byte>, rest: seq<Byte>, bytes: nat)
    requires whole == got + rest && |got| <= bytes && (|got| < bytes ==> rest == [])
    ensures got == whole[..Min(bytes, |whole|)] && rest == whole[|got|..]
  {
  }

  lemma EndGrows(stream: seq<Byte>, held: seq<Byte>, pcm: Chunk)
    requires |held| <= |stream| && held == stream[|stream| - |held|..]
    ensures held + pcm == (stream + pcm)[|stream + pcm| - |held + pcm|..]
  {
  }

  /** The mixing loop. */
  method Mix(pcm: seq<Byte>, model: seq<Byte>) returns (mixed: seq<Byte>)
    requires |model| <= Even(|pcm|) && |model| % 2 == 0
    ensures IsMix(mixed, pcm, model)
  {
    var out := new Byte[Even(|pcm|)](_ => 0);
    var i := 0;
    while i < out.Length
      invariant 0 <= i <= out.Length && i % 2 == 0
      invariant forall k :: 0 <= k < i / 2 ==>
                  Int16(out[2 * k], out[2 * k + 1]) == MixedSample(pcm, model, k)
    {
      var m := if i < |model| then Int16(model[i], model[i + 1]) else 0;
      var v := Clamp16(Int16(pcm[i], pcm[i + 1]) + m);
      WriteRead(v);
      out[i], out[i + 1] := Low(v), High(v);
      assert i == 2 * (i / 2) && v == MixedSample(pcm, model, i / 2);
      i := i + 2;
    }
    mixed := out[..];
    MixIsNearest(mixed, pcm, model);
  }

  function MixedSample(line: seq<Byte>, model: seq<Byte>, k: nat): int
    requires 2 * k + 1 < |line|
  {
    Clamp16(Sample(line, k) + if 2 * k + 1 < |model| then Sample(model, k) else 0)
  }

  lemma MixIsNearest(mixed: seq<Byte>, pcm: seq<Byte>, model: seq<Byte>)
    requires |mixed| == Even(|pcm|)
    requires forall k :: 0 <= k < |mixed| / 2 ==>
               Int16(mixed[2 * k], mixed[2 * k + 1]) == MixedSample(pcm, model, k)
    ensures IsMix(mixed, pcm, model)
  {
    forall k | 0 <= k < |pcm| / 2
      ensures IsNearest(Sample(mixed, k), (Sample(pcm, k) + if k < |model| / 2 then Sample(model, k) else 0) as real)
    {
      OnlyNearest(Sample(pcm, k) + if k < |model| / 2 then Sample(model, k) else 0, Sample(mixed, k));
    }
  }

  // ---- a flat queue of bytes ----

  datatype Op = ModelSays(pcm: Chunk) | BargeIn | LineSays(pcm: Chunk)

  function After(queue: seq<Chunk>, op: Op): seq<Chunk>
  {
    match op
    case ModelSays(pcm) => Pushed(queue, pcm)
    case BargeIn => []
    case LineSays(pcm) => Taken(queue, Even(|pcm|))
  }

  /** The stretch of the model's audio an operation mixes in, if it mixes. */
  function MixedIn(queue: seq<Chunk>, op: Op): seq<seq<Byte>>
  {
    if op.LineSays? then [Flat(queue)[..Min(Even(|op.pcm|), Total(queue))]] else []
  }

  /** The stretches a run mixes into the line. */
  function Played(queue: seq<Chunk>, ops: seq<Op>): seq<seq<Byte>>
    decreases |ops|
  {
    if ops == [] then [] else MixedIn(queue, ops[0]) + Played(After(queue, ops[0]), ops[1..])
  }

  // The same for a queue that is nothing but bytes.

  function AfterBytes(held: seq<Byte>, op: Op): seq<Byte>
  {
    match op
    case ModelSays(pcm) => held + pcm
    case BargeIn => []
    case LineSays(pcm) => held[Min(Even(|pcm|), |held|)..]
  }

  function BytesMixedIn(held: seq<Byte>, op: Op): seq<seq<Byte>>
  {
    if op.LineSays? then [held[..Min(Even(|op.pcm|), |held|)]] else []
  }

  function BytesPlayed(held: seq<Byte>, ops: seq<Op>): seq<seq<Byte>>
    decreases |ops|
  {
    if ops == [] then [] else BytesMixedIn(held, ops[0]) + BytesPlayed(AfterBytes(held, ops[0]), ops[1..])
  }

  /** The model is never further ahead of the line than the queue holds. */
  predicate Fits(held: seq<Byte>, ops: seq<Op>)
    decreases |ops|
  {
    ops != [] ==> |AfterBytes(held, ops[0])| <= 960_000 && Fits(AfterBytes(held, ops[0]), ops[1..])
  }

  lemma {:induction false} PushedIsFlat(queue: seq<Chunk>, pcm: Chunk)
    requires Total(queue) + |pcm| <= MAX_QUEUED_BYTES
    ensures Flat(Pushed(queue, pcm)) == Flat(queue) + pcm
  {
    FlatConcat(queue, [pcm]);
    FlatOne(pcm);
    assert pcm == [] ==> Flat(queue) + pcm == Flat(queue);
  }

  lemma {:induction false} StepLikeBytes(queue: seq<Chunk>, op: Op)
    requires |AfterBytes(Flat(queue), op)| <= MAX_QUEUED_BYTES
    ensures Flat(After(queue, op)) == AfterBytes(Flat(queue), op)
    ensures MixedIn(queue, op) == BytesMixedIn(Flat(queue), op)
  {
    match op
    case ModelSays(pcm) => PushedIsFlat(queue, pcm);
    case BargeIn =>
    case LineSays(pcm) => TakenIsFlat(queue, Even(|pcm|));
  }

  lemma PlayedStep(queue: seq<Chunk>, next: seq<Chunk>, held: seq<Byte>, ops: seq<Op>)
    requires ops != [] && next == After(queue, ops[0]) && MixedIn(queue, ops[0]) == BytesMixedIn(held, ops[0])
    requires Played(next, ops[1..]) == BytesPlayed(AfterBytes(held, ops[0]), ops[1..])
    ensures Played(queue, ops) == BytesPlayed(held, ops)
  {
  }

  /** The queue of chunks does what a queue of bytes does. */
  lemma {:induction false} PlaysLikeBytes(queue: seq<Chunk>, ops: seq<Op>)
    requires Fits(Flat(queue), ops)
    ensures Played(queue, ops) == BytesPlayed(Flat(queue), ops)
    decreases |ops|
  {
    if ops != [] {
      var next := After(queue, ops[0]);
      StepLikeBytes(queue, ops[0]);
      PlaysLikeBytes(next, ops[1..]);
      PlayedStep(queue, next, Flat(queue), ops);
    }
  }

  // ---- where the chunks begin ----

  lemma {:induction false} TwoPushes(queue: seq<Chunk>, a: Chunk, b: Chunk)
    requires a != [] && b != []
    ensures Pushed(Pushed(queue, a), b) == Trim(queue + [a] + [b], MAX_QUEUED_BYTES)
  {
    TrimAsYouGo(queue + [a], b, MAX_QUEUED_BYTES);
  }

  lemma {:induction false} TotalOfBoth(queue: seq<Chunk>, a: Chunk, b: Chunk)
    ensures Total(queue + [a] + [b]) == Total(queue + [a + b]) == Total(queue) + |a| + |b|
    ensures Flat(queue + [a] + [b]) == Flat(queue + [a + b])
  {
    FlatConcat(queue, [a]);
    FlatConcat(queue + [a], [b]);
    FlatConcat(queue, [a + b]);
    FlatOne(a);
    FlatOne(b);
    FlatOne(a + b);
    assert Flat(queue) + a + b == Flat(queue) + (a + b);
  }

  /** Whether the last bytes are one chunk or two, the same chunks before them are dropped, as
      long as they are not too many themselves. */
  lemma {:induction false} TrimmedAlike(queue: seq<Chunk>, a: Chunk, b: Chunk)
    requires |a| + |b| <= MAX_QUEUED_BYTES
    ensures Flat(Trim(queue + [a] + [b], MAX_QUEUED_BYTES)) == Flat(Trim(queue + [a + b], MAX_QUEUED_BYTES))
  {
    TotalOfBoth(queue, a, b);
    if queue != [] && Total(queue) + |a| + |b| > MAX_QUEUED_BYTES {
      assert (queue + [a] + [b])[1..] == queue[1..] + [a] + [b];
      assert (queue + [a + b])[1..] == queue[1..] + [a + b];
      TrimmedAlike(queue[1..], a, b);
    }
  }

  /** A chunk too big for the queue is all that is left of it. */
  lemma {:induction false} TrimmedToLast(queue: seq<Chunk>, c: Chunk)
    requires |c| > MAX_QUEUED_BYTES
    ensures Trim(queue + [c], MAX_QUEUED_BYTES) == [c]
  {
    FlatConcat(queue, [c]);
    FlatOne(c);
    if queue == [] {
      assert queue + [c] == [c];
    } else {
      assert (queue + [c])[1..] == queue[1..] + [c];
      TrimmedToLast(queue[1..], c);
    }
  }

  /** Two chunks that are together too big: the first is dropped with everything before it. */
  lemma {:induction false} TrimmedToSecond(queue: seq<Chunk>, a: Chunk, b: Chunk)
    requires |a| + |b| > MAX_QUEUED_BYTES
    ensures Trim(queue + [a] + [b], MAX_QUEUED_BYTES) == [b]
  {
    TotalOfBoth(queue, a, b);
    if queue == [] {
      assert (queue + [a] + [b])[1..] == [b];
    } else {
      assert (queue + [a] + [b])[1..] == queue[1..] + [a] + [b];
      TrimmedToSecond(queue[1..], a, b);
    }
  }

  /** Two chunks leave the bytes in the queue that they would leave as one, exactly when
      together they are no more than the queue holds, or one of them is empty. */
  lemma {:induction false} TwoPushesAsOneIff(queue: seq<Chunk>, a: Chunk, b: Chunk)
    ensures Flat(Pushed(Pushed(queue, a), b)) == Flat(Pushed(queue, a + b)) <==> OneOrTwoAlike(a, b)
  {
    if a == [] {
      assert a + b == b;
    } else if b == [] {
      assert a + b == a;
    } else {
      TwoPushes(queue, a, b);
      if |a| + |b| <= MAX_QUEUED_BYTES {
        TrimmedAlike(queue, a, b);
      } else {
        TrimmedToSecond(queue, a, b);
        TrimmedToLast(queue, a + b);
        FlatOne(b);
        FlatOne(a + b);
        assert |b| < |a + b|;
      }
    }
  }

  predicate OneOrTwoAlike(a: Chunk, b: Chunk) { a == [] || b == [] || |a| + |b| <= 960_000 }

  function AfterAll(queue: seq<Chunk>, ops: seq<Op>): seq<Chunk>
    decreases |ops|
  {
    if ops == [] then queue else AfterAll(After(queue, ops[0]), ops[1..])
  }

  lemma PlayedFirst(queue: seq<Chunk>, op: Op, rest: seq<Op>)
    ensures Played(queue, [op] + rest) == MixedIn(queue, op) + Played(After(queue, op), rest)
  {
    assert ([op] + rest)[1..] == rest;
  }

  lemma PlayedAlike(queue: seq<Chunk>, op: Op, x: seq<Op>, y: seq<Op>, opX: seq<Op>, opY: seq<Op>)
    requires opX == [op] + x && opY == [op] + y
    requires Played(After(queue, op), x) == Played(After(queue, op), y)
    ensures Played(queue, opX) == Played(queue, opY)
  {
    PlayedFirst(queue, op, x);
    PlayedFirst(queue, op, y);
  }

  lemma FirstOf(before: seq<Op>, x: seq<Op>)
    requires before != []
    ensures before + x == [before[0]] + (before[1..] + x)
  {
  }

  /** Runs that begin alike mix alike if what follows does. */
  lemma {:induction false} PlayedAfter(queue: seq<Chunk>, before: seq<Op>, x: seq<Op>, y: seq<Op>, beforeX: seq<Op>, beforeY: seq<Op>)
    requires beforeX == before + x && beforeY == before + y
    requires Played(AfterAll(queue, before), x) == Played(AfterAll(queue, before), y)
    ensures Played(queue, beforeX) == Played(queue, beforeY)
    decreases |before|
  {
    if before == [] {
      assert beforeX == x && beforeY == y;
    } else {
      var op, rest := before[0], before[1..];
      PlayedAfter(After(queue, op), rest, x, y, rest + x, rest + y);
      FirstOf(before, x);
      FirstOf(before, y);
      PlayedAlike(queue, op, rest + x, rest + y, beforeX, beforeY);
    }
  }

  lemma {:induction false} ChunksPlayAlike(queue: seq<Chunk>, a: Chunk, b: Chunk, after: seq<Op>)
    requires OneOrTwoAlike(a, b) && Fits(Flat(Pushed(queue, a + b)), after)
    ensures Played(queue, [ModelSays(a), ModelSays(b)] + after) == Played(queue, [ModelSays(a + b)] + after)
  {
    TwoPushesAsOneIff(queue, a, b);
    PlaysLikeBytes(Pushed(Pushed(queue, a), b), after);
    PlaysLikeBytes(Pushed(queue, a + b), after);
    PlayedFirst(queue, ModelSays(a + b), after);
    PlayedFirst(Pushed(queue, a), ModelSays(b), after);
    PlayedFirst(queue, ModelSays(a), [ModelSays(b)] + after);
    assert [ModelSays(a), ModelSays(b)] + after == [ModelSays(a)] + ([ModelSays(b)] + after);
  }

  /** How the model's audio is cut into chunks doesn't matter: after any run, one in which the
      queue overflowed too, audio that comes as two chunks or as one is mixed into the line
      alike, if together they are no more than the queue holds and it does not overflow later. */
  lemma {:induction false} ChunkingIsIrrelevant(queue: seq<Chunk>, before: seq<Op>, a: Chunk, b: Chunk, after: seq<Op>)
    requires OneOrTwoAlike(a, b)
    requires Fits(Flat(Pushed(AfterAll(queue, before), a + b)), after)
    ensures Played(queue, before + ([ModelSays(a), ModelSays(b)] + after))
         == Played(queue, before + ([ModelSays(a + b)] + after))
  {
    var q, split, whole := AfterAll(queue, before), [ModelSays(a), ModelSays(b)] + after, [ModelSays(a + b)] + after;
    ChunksPlayAlike(q, a, b, after);
    PlayedAfter(queue, before, split, whole, before + split, before + whole);
  }

  /** Why they must not be more: a second chunk drops a first one that fills the queue, and the
      line hears the second; as one chunk nothing is dropped, and it hears the first bytes. */
  lemma {:induction false} ChunkingMatters(a: Chunk, b: Chunk, line: Chunk)
    requires |a| == MAX_QUEUED_BYTES && |b| == 2 && |line| == 4
    ensures Played([], [ModelSays(a), ModelSays(b), LineSays(line)]) == [b]
    ensures Played([], [ModelSays(a + b), LineSays(line)]) == [a[..4]]
  {
    var two, one := Pushed(Pushed([], a), b), Pushed([], a + b);
    TwoPushes([], a, b);
    TrimmedToSecond([], a, b);
    TrimmedToLast([], a + b);
    FlatOne(b);
    FlatOne(a + b);
    assert (a + b)[..4] == a[..4] && b[..2] == b;
    assert [ModelSays(a), ModelSays(b), LineSays(line)] == [ModelSays(a)] + ([ModelSays(b)] + ([LineSays(line)] + []));
    assert [ModelSays(a + b), LineSays(line)] == [ModelSays(a + b)] + ([LineSays(line)] + []);
    PlayedFirst([], ModelSays(a), [ModelSays(b)] + ([LineSays(line)] + []));
    PlayedFirst(Pushed([], a), ModelSays(b), [LineSays(line)] + []);
    PlayedFirst(two, LineSays(line), []);
    PlayedFirst([], ModelSays(a + b), [LineSays(line)] + []);
    PlayedFirst(one, LineSays(line), []);
  }

  // ---- overflow too ----

  /** What the model says in a run. */
  function Spoken(ops: seq<Op>): seq<Byte>
  {
    if ops == [] then [] else (if ops[0].ModelSays? then ops[0].pcm else []) + Spoken(ops[1..])
  }

  /** Each stretch is where it says in the stream, and none begins before the last one ended. */
  ghost predicate InOrder(stretches: seq<seq<Byte>>, starts: seq<nat>, stream: seq<Byte>, from: nat)
  {
    if stretches == [] then starts == []
    else
      && starts != [] && from <= starts[0]
      && starts[0] + |stretches[0]| <= |stream|
      && stretches[0] == stream[starts[0]..starts[0] + |stretches[0]|]
      && InOrder(stretches[1..], starts[1..], stream, starts[0] + |stretches[0]|)
  }

  lemma {:induction false} InOrderFromEarlier(stretches: seq<seq<Byte>>, starts: seq<nat>, stream: seq<Byte>, from: nat, earlier: nat)
    requires InOrder(stretches, starts, stream, from) && earlier <= from
    ensures InOrder(stretches, starts, stream, earlier)
  {
  }

  /** A queue that is the end of a stream. */
  ghost predicate IsEnd(queue: seq<Chunk>, stream: seq<Byte>)
  {
    Total(queue) <= |stream| && Flat(queue) == stream[|stream| - Total(queue)..]
  }

  lemma {:induction false} PushedGrows(queue: seq<Chunk>, pcm: Chunk)
    ensures Total(Pushed(queue, pcm)) <= Total(queue) + |pcm|
  {
    FlatConcat(queue, [pcm]);
    FlatOne(pcm);
    if pcm != [] {
      TrimIsLongest(queue + [pcm], MAX_QUEUED_BYTES);
      TotalTail(queue + [pcm], Dropped(queue + [pcm], MAX_QUEUED_BYTES));
    }
  }

  lemma {:induction false} AfterIsEnd(queue: seq<Chunk>, stream: seq<Byte>, op: Op)
    requires IsEnd(queue, stream)
    ensures var q, s := After(queue, op), stream + if op.ModelSays? then op.pcm else [];
            && IsEnd(q, s) && |stream| - Total(queue) <= |s| - Total(q)
            && (op.LineSays? ==> |stream| - Total(queue) + |MixedIn(queue, op)[0]| == |s| - Total(q))
  {
    match op
    case ModelSays(pcm) =>
      PushedIsEnd(queue, pcm, stream);
      PushedGrows(queue, pcm);
    case BargeIn =>
      assert stream + [] == stream && stream[|stream|..] == [];
    case LineSays(pcm) =>
      TakenIsFlat(queue, Even(|pcm|));
      assert stream + [] == stream;
      assert |Flat(Taken(queue, Even(|pcm|)))| == Total(Taken(queue, Even(|pcm|)));
  }

  lemma NextStretch(queue: seq<Chunk>, stream: seq<Byte>, op: Op, more: seq<Byte>)
    requires IsEnd(queue, stream) && op.LineSays?
    ensures var from, m := |stream| - Total(queue), MixedIn(queue, op)[0];
            from + |m| <= |stream + more| && m == (stream + more)[from..from + |m|]
  {
    var from, m := |stream| - Total(queue), MixedIn(queue, op)[0];
    assert m == stream[from..][..|m|];
    assert stream[from..][..|m|] == (stream + more)[from..from + |m|];
  }

  lemma FirstStretch(first: seq<Byte>, rest: seq<seq<Byte>>, starts: seq<nat>, stream: seq<Byte>, from: nat) returns (all: seq<nat>)
    requires from + |first| <= |stream| && first == stream[from..from + |first|]
    requires InOrder(rest, starts, stream, from + |first|)
    ensures InOrder([first] + rest, all, stream, from)
  {
    all := [from] + starts;
    assert ([first] + rest)[1..] == rest && all[1..] == starts;
  }

  lemma {:induction false} SpokenFirst(op: Op, rest: seq<Op>)
    ensures Spoken([op] + rest) == (if op.ModelSays? then op.pcm else []) + Spoken(rest)
  {
    assert ([op] + rest)[1..] == rest;
  }

  /** One operation before a run whose stretches are in order. */
  lemma {:induction false} OneMore(queue: seq<Chunk>, stream: seq<Byte>, op: Op, mixes: seq<seq<Byte>>, starts: seq<nat>, more: seq<Byte>)
    returns (all: seq<nat>)
    requires IsEnd(queue, stream)
    requires var q, s := After(queue, op), stream + if op.ModelSays? then op.pcm else [];
             Total(q) <= |s| && InOrder(mixes, starts, s + more, |s| - Total(q))
    ensures InOrder(MixedIn(queue, op) + mixes, all,
                    stream + (if op.ModelSays? then op.pcm else []) + more, |stream| - Total(queue))
  {
    AfterIsEnd(queue, stream, op);
    var from := |stream| - Total(queue);
    if op.LineSays? {
      assert stream + [] == stream;
      NextStretch(queue, stream, op, more);
      all := FirstStretch(MixedIn(queue, op)[0], mixes, starts, stream + more, from);
    } else {
      var s := stream + if op.ModelSays? then op.pcm else [];
      all := starts;
      assert [] + mixes == mixes;
      InOrderFromEarlier(mixes, starts, s + more, |s| - Total(After(queue, op)), from);
    }
  }

  lemma {:induction false} StreamGrows(stream: seq<Byte>, op: Op, rest: seq<Op>)
    ensures stream + (if op.ModelSays? then op.pcm else []) + Spoken(rest) == stream + Spoken([op] + rest)
  {
    SpokenFirst(op, rest);
  }

  lemma {:induction false} PlaysOneMore(queue: seq<Chunk>, stream: seq<Byte>, op: Op, rest: seq<Op>, starts: seq<nat>)
    returns (all: seq<nat>)
    requires IsEnd(queue, stream)
    requires var q, s := After(queue, op), stream + if op.ModelSays? then op.pcm else [];
             Total(q) <= |s| && InOrder(Played(q, rest), starts, s + Spoken(rest), |s| - Total(q))
    ensures InOrder(Played(queue, [op] + rest), all, stream + Spoken([op] + rest), |stream| - Total(queue))
  {
    all := OneMore(queue, stream, op, Played(After(queue, op), rest), starts, Spoken(rest));
    PlayedFirst(queue, op, rest);
    StreamGrows(stream, op, rest);
  }

  /** In every run, the queue overflowing as it may: the line is mixed with stretches of what
      the model said, in order and no byte twice. */
  lemma {:induction false} PlaysInOrder(queue: seq<Chunk>, stream: seq<Byte>, ops: seq<Op>) returns (starts: seq<nat>)
    requires IsEnd(queue, stream)
    ensures InOrder(Played(queue, ops), starts, stream + Spoken(ops), |stream| - Total(queue))
    decreases |ops|
  {
    if ops == [] {
      starts := [];
    } else {
      AfterIsEnd(queue, stream, ops[0]);
      starts := PlaysInOrder(After(queue, ops[0]), stream + if ops[0].ModelSays? then ops[0].pcm else [], ops[1..]);
      starts := PlaysOneMore(queue, stream, ops[0], ops[1..], starts);
      assert ops == [ops[0]] + ops[1..];
    }
  }
}
