/** Which of the line's audio the voice model hears (call.ts: onDownlink, onLineSound,
    keepPreroll, unmute): everything, except that while the navigator runs and nobody has
    spoken for a while it is muted, and then hears the last two seconds first. */
module Preroll {
  import opened Chunks
  import opened LineSound

  const PREROLL_BYTES := 2000 * 32
  const MUTE_AFTER_SECONDS := 10

  /** What happens while the call is up and not merged. `Second` is a second of the line
      classified; the navigator's end also unmutes. */
  datatype Ev = Heard(chunk: Chunk) | Second(sound: Sound) | NavigatorStops

  // ---- what should happen ----

  predicate Running(h: seq<Ev>)
  {
    h == [] || (h[|h| - 1] != NavigatorStops && Running(h[..|h| - 1]))
  }

  /** Seconds since the last one with speech in it, while the navigator ran. */
  function Quiet(h: seq<Ev>): nat
  {
    if h == [] then 0
    else
      var before, e := h[..|h| - 1], h[|h| - 1];
      if !e.Second? || !Running(before) then Quiet(before)
      else if e.sound == Speech then 0
      else Quiet(before) + 1
  }

  predicate Muted(h: seq<Ev>) { Running(h) && Quiet(h) >= MUTE_AFTER_SECONDS }

  /** The chunks that arrived between two changes of muting. */
  datatype Stretch = Stretch(muted: bool, chunks: seq<Chunk>)

  function Stretches(h: seq<Ev>): (s: seq<Stretch>)
    ensures s != [] && s[|s| - 1].muted == Muted(h)
  {
    if h == [] then [Stretch(false, [])]
    else
      var s, e := Stretches(h[..|h| - 1]), h[|h| - 1];
      var n := |s| - 1;
      if e.Heard? then s[n := Stretch(s[n].muted, s[n].chunks + [e.chunk])]
      else if s[n].muted == Muted(h) then s
      else s + [Stretch(Muted(h), [])]
  }

  /** Every chunk of some stretches, in order. */
  function All(s: seq<Stretch>): seq<Chunk>
  {
    if s == [] then [] else All(s[..|s| - 1]) + s[|s| - 1].chunks
  }

  function Received(h: seq<Ev>): seq<Chunk>
  {
    if h == [] then []
    else Received(h[..|h| - 1]) + if h[|h| - 1].Heard? then [h[|h| - 1].chunk] else []
  }

  /** Of each stretch that is over, all or, if it was muted, the longest tail within two
      seconds (or just its last chunk). */
  function Past(s: seq<Stretch>): seq<Chunk>
  {
    if s == [] then []
    else
      var last := s[|s| - 1];
      Past(s[..|s| - 1]) + if last.muted then Trim(last.chunks, 64_000) else last.chunks
  }

  /** What the model has been sent: of a stretch still muted, nothing yet. */
  function Sent(s: seq<Stretch>): seq<Chunk>
    requires s != []
  {
    if s[|s| - 1].muted then Past(s[..|s| - 1]) else Past(s)
  }

  // ---- the machine ----

  datatype Ear = Ear(running: bool, muted: bool, quietSeconds: nat, preroll: seq<Chunk>, sent: seq<Chunk>)

  const INIT := Ear(true, false, 0, [], [])

  function Unmute(x: Ear): Ear
  {
    if x.muted then x.(muted := false, sent := x.sent + x.preroll, preroll := []) else x
  }

  function OnSecond(x: Ear, sound: Sound): Ear
  {
    if !x.running then x
    else if sound == Speech then Unmute(x.(quietSeconds := 0))
    else
      var y := x.(quietSeconds := x.quietSeconds + 1);
      if y.quietSeconds >= MUTE_AFTER_SECONDS && !y.muted then y.(muted := true, preroll := []) else y
  }

  function Next(x: Ear, e: Ev): Ear
  {
    match e
    case Heard(c) =>
      if x.muted then x.(preroll := Trim(x.preroll + [c], PREROLL_BYTES)) else x.(sent := x.sent + [c])
    case Second(sound) => OnSecond(x, sound)
    case NavigatorStops => Unmute(x).(running := false)
  }

  function After(h: seq<Ev>): Ear
  {
    if h == [] then INIT else Next(After(h[..|h| - 1]), h[|h| - 1])
  }

  class Ears {
    var running: bool
    var muted: bool
    var quietSeconds: nat
    var preroll: seq<Chunk>
    var prerollBytes: nat
    var sent: seq<Chunk>

    ghost predicate Valid()
      reads this
    {
      prerollBytes == Total(preroll)
    }

    ghost function State(): Ear
      reads this
    {
      Ear(running, muted, quietSeconds, preroll, sent)
    }

    constructor ()
      ensures Valid() && State() == INIT
    {
      running, muted, quietSeconds, preroll, prerollBytes, sent := true, false, 0, [], 0, [];
    }

    method OnDownlink(pcm: Chunk)
      requires Valid()
      modifies this
      ensures Valid() && State() == Next(old(State()), Heard(pcm))
    {
      if muted { KeepPreroll(pcm); } else { sent := sent + [pcm]; }
    }

    method KeepPreroll(pcm: Chunk)
      requires Valid()
      modifies this`preroll, this`prerollBytes
      ensures Valid() && preroll == Trim(old(preroll) + [pcm], PREROLL_BYTES)
    {
      FlatConcat(preroll, [pcm]);
      FlatOne(pcm);
      preroll, prerollBytes := DropOldest(preroll + [pcm], prerollBytes + |pcm|, PREROLL_BYTES);
    }

    method OnLineSound(sound: Sound)
      requires Valid()
      modifies this
      ensures Valid() && State() == Next(old(State()), Second(sound))
    {
      if !running { return; }
      if sound == Speech {
        quietSeconds := 0;
        DoUnmute();
      } else {
        quietSeconds := quietSeconds + 1;
        if quietSeconds >= MUTE_AFTER_SECONDS && !muted { muted, preroll, prerollBytes := true, [], 0; }
      }
    }

    method DoUnmute()
      requires Valid()
      modifies this
      ensures Valid() && State() == Unmute(old(State()))
    {
      if !muted { return; }
      muted := false;
      ghost var before := sent;
      var kept := preroll;
      for i := 0 to |kept|
        invariant sent == before + kept[..i]
        invariant unchanged(`running) && unchanged(`quietSeconds) && !muted
      {
        assert kept[..i + 1] == kept[..i] + [kept[i]];
        sent := sent + [kept[i]];
      }
      assert kept[..|kept|] == kept;
      preroll, prerollBytes := [], 0;
    }

    method StopNavigator()
      requires Valid()
      modifies this
      ensures Valid() && State() == Next(old(State()), NavigatorStops)
    {
      DoUnmute();
      running := false;
    }
  }

  // ---- when the model is muted ----

  /** The seconds of the line from event i on. */
  ghost function SecondsFrom(h: seq<Ev>, i: nat): set<nat> { set k | i <= k < |h| && h[k].Second? }

  ghost predicate NoSpeechFrom(h: seq<Ev>, i: nat) { forall k :: i <= k < |h| ==> h[k] != Second(Speech) }

  lemma {:induction false} RunningIs(h: seq<Ev>)
    ensures Running(h) <==> NavigatorStops !in h
  {
    if h != [] {
      RunningIs(h[..|h| - 1]);
      assert h == h[..|h| - 1] + [h[|h| - 1]];
    }
  }

  /** One more event. */
  lemma OneMore(h: seq<Ev>, j: nat)
    requires h != [] && j < |h|
    ensures SecondsFrom(h, j) == SecondsFrom(h[..|h| - 1], j) + if h[|h| - 1].Second? then {|h| - 1} else {}
    ensures NoSpeechFrom(h, j) <==> NoSpeechFrom(h[..|h| - 1], j) && h[|h| - 1] != Second(Speech)
  {
    var n := |h| - 1;
    var before := h[..n];
    assert forall k :: 0 <= k < n ==> before[k] == h[k];
    if NoSpeechFrom(before, j) && h[n] != Second(Speech) {
      forall k | j <= k < |h| ensures h[k] != Second(Speech) { if k < n { assert before[k] != Second(Speech); } }
    }
  }

  /** While the navigator runs, the quiet seconds are those since some place after which there
      was no speech, and no other place after which there was none has more of them. */
  lemma {:induction false} QuietIs(h: seq<Ev>) returns (i: nat)
    requires Running(h)
    ensures i <= |h| && NoSpeechFrom(h, i) && Quiet(h) == |SecondsFrom(h, i)|
    ensures forall j :: 0 <= j <= |h| && NoSpeechFrom(h, j) ==> |SecondsFrom(h, j)| <= Quiet(h)
  {
    hide SecondsFrom, NoSpeechFrom;
    i := 0;
    NothingAfter(h);
    if h != [] {
      var n := |h| - 1;
      i := QuietIs(h[..n]);
      OneMore(h, i);
      forall j | 0 <= j <= |h| && NoSpeechFrom(h, j) ensures |SecondsFrom(h, j)| <= Quiet(h) {
        if j <= n { OneMoreQuiet(h, j); }
      }
      if h[n] == Second(Speech) { i := n + 1; } else { NotYet(h[..n], i); }
    }
  }

  lemma NothingAfter(h: seq<Ev>)
    ensures SecondsFrom(h, |h|) == {} && NoSpeechFrom(h, |h|)
  {
  }

  lemma NotYet(before: seq<Ev>, i: nat)
    ensures |before| !in SecondsFrom(before, i)
  {
  }

  lemma OneMoreQuiet(h: seq<Ev>, j: nat)
    requires h != [] && j < |h| && NoSpeechFrom(h, j)
    ensures NoSpeechFrom(h[..|h| - 1], j) && h[|h| - 1] != Second(Speech)
    ensures |SecondsFrom(h, j)| == |SecondsFrom(h[..|h| - 1], j)| + if h[|h| - 1].Second? then 1 else 0
  {
    OneMore(h, j);
    NotYet(h[..|h| - 1], j);
    hide SecondsFrom, NoSpeechFrom;
  }

  /** The model is muted exactly while the navigator runs and ten seconds or more have gone by
      since the last one with speech in it. */
  lemma MutedMeans(h: seq<Ev>)
    ensures Muted(h) <==>
      NavigatorStops !in h && exists i :: 0 <= i <= |h| && NoSpeechFrom(h, i) && |SecondsFrom(h, i)| >= 10
  {
    RunningIs(h);
    if Running(h) { var i := QuietIs(h); }
  }

  // ---- every run ----

  /** No chunk is missing from the stretches, and none is in them twice. */
  lemma {:induction false} StretchesHoldAll(h: seq<Ev>)
    ensures All(Stretches(h)) == Received(h)
  {
    if h != [] {
      var before, e := h[..|h| - 1], h[|h| - 1];
      StretchesHoldAll(before);
      var s := Stretches(before);
      var n := |s| - 1;
      if e.Heard? {
        assert Stretches(h)[..n] == s[..n];
        assert All(s[..n]) + (s[n].chunks + [e.chunk]) == All(s) + [e.chunk];
      } else if Stretches(h) != s {
        assert Stretches(h)[..|s|] == s;
        assert All(s) + [] == All(s);
      }
    }
  }

  /** The preroll is the tail of the stretch that is muted. */
  ghost predicate Refines(x: Ear, h: seq<Ev>)
  {
    var s := Stretches(h);
    && x.running == Running(h) && x.muted == Muted(h) && x.quietSeconds == Quiet(h)
    && x.sent == Sent(s)
    && x.preroll == if x.muted then Trim(s[|s| - 1].chunks, PREROLL_BYTES) else []
  }

  lemma ChunkRefines(x: Ear, h: seq<Ev>, e: Ev)
    requires Refines(x, h) && e.Heard?
    ensures Refines(Next(x, e), h + [e])
  {
    var s, h' := Stretches(h), h + [e];
    assert h'[..|h|] == h;
    var n := |s| - 1;
    var s' := Stretches(h');
    assert s'[..n] == s[..n];
    if x.muted {
      TrimAsYouGo(s[n].chunks, e.chunk, PREROLL_BYTES);
    } else {
      assert Past(s[..n]) + (s[n].chunks + [e.chunk]) == Past(s) + [e.chunk];
    }
  }

  lemma SwitchRefines(x: Ear, h: seq<Ev>, e: Ev)
    requires Refines(x, h) && !e.Heard?
    ensures Refines(Next(x, e), h + [e])
  {
    var s, h' := Stretches(h), h + [e];
    assert h'[..|h|] == h;
    var s' := Stretches(h');
    if s' != s {
      assert s' == s + [Stretch(Muted(h'), [])];
      assert s'[..|s|] == s;
      assert Past(s) + [] == Past(s);
    }
  }

  lemma {:induction false} AfterRefines(h: seq<Ev>)
    ensures Refines(After(h), h)
  {
    if h != [] {
      var before, e := h[..|h| - 1], h[|h| - 1];
      AfterRefines(before);
      assert h == before + [e];
      if e.Heard? { ChunkRefines(After(before), before, e); } else { SwitchRefines(After(before), before, e); }
    } else {
      assert Past([Stretch(false, [])]) == [];
    }
  }

  /** However chunks and seconds interleave: the chunks that arrived fall into stretches, and
      the voice model has been sent every chunk of the unmuted ones and, of each muted one that
      is over, the longest tail within the limit, all in order. */
  lemma AudioIsConserved(h: seq<Ev>)
    ensures After(h).sent == Sent(Stretches(h))
    ensures All(Stretches(h)) == Received(h)
  {
    AfterRefines(h);
    StretchesHoldAll(h);
  }

  predicate QuietSecond(e: Ev) { e.Second? ==> e.sound != Speech }

  function Seconds(h: seq<Ev>): nat
  {
    if h == [] then 0 else Seconds(h[..|h| - 1]) + if h[|h| - 1].Second? then 1 else 0
  }

  /** Muted exactly while the navigator runs and the last 10 seconds or more held no speech. */
  lemma MutedIff(h: seq<Ev>)
    ensures After(h).muted <==>
            Running(h) && exists k :: 0 <= k <= |h| && Seconds(h[k..]) >= MUTE_AFTER_SECONDS && NoSpeech(h[k..])
  {
    AfterRefines(h);
    if Running(h) {
      var k := QuietFrom(h);
      if Quiet(h) < MUTE_AFTER_SECONDS {
        forall j | 0 <= j <= |h| && NoSpeech(h[j..]) ensures Seconds(h[j..]) <= Quiet(h) { QuietCounts(h, j); }
      }
    }
  }

  ghost predicate NoSpeech(h: seq<Ev>) { forall i :: 0 <= i < |h| ==> QuietSecond(h[i]) }

  lemma {:induction false} QuietCounts(h: seq<Ev>, j: nat)
    requires Running(h) && j <= |h| && NoSpeech(h[j..])
    ensures Seconds(h[j..]) <= Quiet(h)
  {
    if j < |h| {
      var n := |h| - 1;
      assert h[..n][j..] == h[j..][..n - j] && QuietSecond(h[j..][n - j]);
      forall i | 0 <= i < n - j ensures QuietSecond(h[..n][j..][i]) { assert QuietSecond(h[j..][i]); }
      QuietCounts(h[..n], j);
    }
  }

  lemma {:induction false} QuietFrom(h: seq<Ev>) returns (k: nat)
    requires Running(h)
    ensures k <= |h| && NoSpeech(h[k..]) && Seconds(h[k..]) == Quiet(h)
  {
    var n := |h| - 1;
    if h == [] || h[n] == Second(Speech) {
      k := |h|;
    } else {
      k := QuietFrom(h[..n]);
      assert h[k..][..n - k] == h[..n][k..];
      forall i | 0 <= i < |h| - k ensures QuietSecond(h[k..][i]) {
        if i < n - k { assert QuietSecond(h[..n][k..][i]); }
      }
    }
  }
}
