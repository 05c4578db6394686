/** What a line plays, second by second, and how long a call has been on hold (linesound.ts).

    Detector windows become seconds, seconds become runs with one-second blips folded away,
    and runs become "how long on hold". Times are whole seconds into the call; key presses
    fall between them and are reals. */
module LineSound {
  import opened Wrappers

  datatype Sound = Speech | Music | Silence

  datatype SoundRun = SoundRun(sound: Sound, from: int, to: int)

  /** One 32 ms detector window: speech probability and loudness. */
  datatype Window = Window(prob: real, rms: real)

  datatype Summary = Summary(now: Sound, forSeconds: int, secondsOnHold: int, recent: seq<SoundRun>)

  const WINDOWS_PER_SECOND := 31
  const SPEECH_SHARE := 0.3
  const SILENCE_RMS := 0.003
  const HOLD_AFTER_SECONDS := 5
  const BLIP_SECONDS := 2
  const RECENT_RUNS := 12

  function Max(a: real, b: real): real { if a >= b then a else b }

  // ---- windows to seconds ----

  function SpeechCount(ws: seq<Window>): nat
  {
    if ws == [] then 0
    else SpeechCount(ws[..|ws| - 1]) + if ws[|ws| - 1].prob > 0.5 then 1 else 0
  }

  function Energy(ws: seq<Window>): real
  {
    if ws == [] then 0.0
    else Energy(ws[..|ws| - 1]) + ws[|ws| - 1].rms * ws[|ws| - 1].rms
  }

  /** A second's sound. Loudness is compared squared: both sides are nonnegative. */
  function Classify(ws: seq<Window>): Sound
    requires ws != []
  {
    SoundOf(SpeechCount(ws), Energy(ws), |ws|)
  }

  function SoundOf(speechWindows: nat, squares: real, windows: nat): Sound
    requires windows > 0
  {
    if speechWindows as real / windows as real >= SPEECH_SHARE then Speech
    else if squares / windows as real >= SILENCE_RMS * SILENCE_RMS then Music
    else Silence
  }

  /** The i-th second of a stream of windows. */
  function SecondAt(heard: seq<Window>, i: nat): seq<Window>
    requires WINDOWS_PER_SECOND * (i + 1) <= |heard|
  {
    heard[WINDOWS_PER_SECOND * i..WINDOWS_PER_SECOND * (i + 1)]
  }

  /** The seconds are the classified full seconds of the stream. */
  ghost predicate SecondsOf(secs: seq<Sound>, heard: seq<Window>)
  {
    && WINDOWS_PER_SECOND * |secs| <= |heard|
    && forall i :: 0 <= i < |secs| ==> secs[i] == Classify(SecondAt(heard, i))
  }

  /** The windows of the second under way. */
  function Unfinished(secs: seq<Sound>, heard: seq<Window>): seq<Window>
    requires WINDOWS_PER_SECOND * |secs| <= |heard|
  {
    heard[WINDOWS_PER_SECOND * |secs|..]
  }

  lemma WindowHeard(secs: seq<Sound>, heard: seq<Window>, w: Window)
    requires SecondsOf(secs, heard)
    ensures SecondsOf(secs, heard + [w])
    ensures var was, now := Unfinished(secs, heard), Unfinished(secs, heard + [w]);
            && now == was + [w]
            && SpeechCount(now) == SpeechCount(was) + (if w.prob > 0.5 then 1 else 0)
            && Energy(now) == Energy(was) + w.rms * w.rms
  {
    var was, now := Unfinished(secs, heard), Unfinished(secs, heard + [w]);
    assert now == was + [w] && now[..|now| - 1] == was;
    forall i | 0 <= i < |secs| ensures SecondAt(heard + [w], i) == SecondAt(heard, i) { }
  }

  lemma SecondHeard(secs: seq<Sound>, heard: seq<Window>)
    requires SecondsOf(secs, heard) && |heard| == WINDOWS_PER_SECOND * (|secs| + 1)
    ensures SecondsOf(secs + [Classify(Unfinished(secs, heard))], heard)
  {
    assert SecondAt(heard, |secs|) == Unfinished(secs, heard);
  }

  /** A second just begun has no windows yet. */
  lemma NothingUnfinished(secs: seq<Sound>, heard: seq<Window>)
    requires |heard| == WINDOWS_PER_SECOND * |secs|
    ensures SpeechCount(Unfinished(secs, heard)) == 0 && Energy(Unfinished(secs, heard)) == 0.0
  {
  }

  /** Ten speech windows of a second's 31 make it speech, nine do not. */
  lemma SpeechNeedsTenWindows(ws: seq<Window>)
    requires |ws| == WINDOWS_PER_SECOND
    ensures Classify(ws) == Speech <==> SpeechCount(ws) >= 10
  {
    var share := SpeechCount(ws) as real / 31.0;
    assert share * 31.0 == SpeechCount(ws) as real;
  }

  /** The windows from lo to hi that are more likely speech than not. */
  ghost function SpeechIn(heard: seq<Window>, lo: nat, hi: nat): set<int>
    requires hi <= |heard|
  {
    set k | lo <= k < hi && heard[k].prob > 0.5
  }

  lemma {:induction false} SpeechCounted(heard: seq<Window>, lo: nat, hi: nat)
    requires lo <= hi <= |heard|
    ensures SpeechCount(heard[lo..hi]) == |SpeechIn(heard, lo, hi)|
  {
    if lo < hi {
      SpeechCounted(heard, lo, hi - 1);
      assert heard[lo..hi][..hi - lo - 1] == heard[lo..hi - 1];
      assert SpeechIn(heard, lo, hi) ==
             SpeechIn(heard, lo, hi - 1) + if heard[hi - 1].prob > 0.5 then {hi - 1} else {};
    } else {
      assert SpeechIn(heard, lo, hi) == {};
    }
  }

  lemma {:induction false} EnergyAtLeast(ws: seq<Window>, rms: real)
    requires 0.0 <= rms && forall k :: 0 <= k < |ws| ==> rms <= ws[k].rms
    ensures Energy(ws) >= |ws| as real * (rms * rms)
  {
    if ws != [] {
      EnergyAtLeast(ws[..|ws| - 1], rms);
      SquareGrows(rms, ws[|ws| - 1].rms);
    }
  }

  lemma {:induction false} EnergyBelow(ws: seq<Window>, rms: real)
    requires ws != [] && forall k :: 0 <= k < |ws| ==> 0.0 <= ws[k].rms < rms
    ensures Energy(ws) < |ws| as real * (rms * rms)
  {
    var r := ws[|ws| - 1].rms;
    SquareGrows(r, rms);
    if |ws| > 1 { EnergyBelow(ws[..|ws| - 1], rms); }
  }

  lemma SquareGrows(a: real, b: real)
    requires 0.0 <= a <= b
    ensures a * a <= b * b && (a < b ==> a * a < b * b)
  {
    var d := b - a;
    assert b * b == a * a + (2.0 * a * d + d * d);
    assert a * d >= 0.0 && (d > 0.0 ==> d * d > 0.0);
  }

  /** What a second is called, told from its 31 windows. Ten windows of speech make it speech.
      With fewer it is music if every window is at least as loud as the threshold, and silence
      if none is. */
  lemma SecondMeans(secs: seq<Sound>, heard: seq<Window>, i: nat)
    requires SecondsOf(secs, heard) && i < |secs|
    ensures secs[i] == Speech <==> |SpeechIn(heard, 31 * i, 31 * i + 31)| >= 10
    ensures secs[i] != Speech && (forall k :: 31 * i <= k < 31 * i + 31 ==> heard[k].rms >= 0.003) ==> secs[i] == Music
    ensures secs[i] != Speech && (forall k :: 31 * i <= k < 31 * i + 31 ==> 0.0 <= heard[k].rms < 0.003) ==> secs[i] == Silence
  {
    var ws := SecondAt(heard, i);
    SpeechCounted(heard, 31 * i, 31 * i + 31);
    SpeechNeedsTenWindows(ws);
    if forall k :: 31 * i <= k < 31 * i + 31 ==> heard[k].rms >= 0.003 {
      EnergyAtLeast(ws, 0.003);
      MeanSquare(ws);
    }
    if forall k :: 31 * i <= k < 31 * i + 31 ==> 0.0 <= heard[k].rms < 0.003 {
      EnergyBelow(ws, 0.003);
      MeanSquare(ws);
    }
  }

  lemma MeanSquare(ws: seq<Window>)
    requires |ws| == 31
    ensures Classify(ws) != Speech ==> (Classify(ws) == Music <==> Energy(ws) >= 31.0 * (0.003 * 0.003))
  {
    assert Energy(ws) / 31.0 * 31.0 == Energy(ws);
  }

  /** Of a second without speech, loudness is what its windows' squares add up to: a lone sound
      makes it music exactly when its square is 31 times the threshold's. */
  lemma LoneSound(ws: seq<Window>, k: nat)
    requires |ws| == 31 && k < 31 && Classify(ws) != Speech
    requires forall j :: 0 <= j < 31 && j != k ==> ws[j].rms == 0.0
    ensures Classify(ws) == Music <==> ws[k].rms * ws[k].rms >= 31.0 * (0.003 * 0.003)
  {
    EnergyOfOne(ws, k);
    MeanSquare(ws);
  }

  lemma {:induction false} EnergyOfOne(ws: seq<Window>, k: nat)
    requires forall j :: 0 <= j < |ws| && j != k ==> ws[j].rms == 0.0
    ensures Energy(ws) == if k < |ws| then ws[k].rms * ws[k].rms else 0.0
  {
    if ws != [] { EnergyOfOne(ws[..|ws| - 1], k); }
  }

  /** Louder windows never turn music into silence. */
  lemma LouderStaysMusic(ws: seq<Window>, louder: seq<Window>)
    requires |ws| == |louder| == 31 && Classify(ws) == Music && Classify(louder) != Speech
    requires forall k :: 0 <= k < 31 ==> 0.0 <= ws[k].rms <= louder[k].rms
    ensures Classify(louder) == Music
  {
    EnergyGrows(ws, louder);
    MeanSquare(ws);
    MeanSquare(louder);
  }

  lemma {:induction false} EnergyGrows(ws: seq<Window>, louder: seq<Window>)
    requires |ws| == |louder| && forall k :: 0 <= k < |ws| ==> 0.0 <= ws[k].rms <= louder[k].rms
    ensures Energy(ws) <= Energy(louder)
  {
    if ws != [] {
      EnergyGrows(ws[..|ws| - 1], louder[..|ws| - 1]);
      SquareGrows(ws[|ws| - 1].rms, louder[|ws| - 1].rms);
    }
  }

  // ---- seconds to runs ----

  function AddSecond(runs: seq<SoundRun>, sound: Sound, t: int): seq<SoundRun>
  {
    var n := |runs|;
    if n > 0 && runs[n - 1].sound == sound then
      runs[..n - 1] + [runs[n - 1].(to := t + 1)]
    else if n > 1 && runs[n - 2].sound == sound && runs[n - 1].to - runs[n - 1].from < BLIP_SECONDS then
      runs[..n - 2] + [runs[n - 2].(to := t + 1)]
    else
      runs + [SoundRun(sound, t, t + 1)]
  }

  function RunsOf(secs: seq<Sound>, start: int): seq<SoundRun>
  {
    if secs == [] then []
    else AddSecond(RunsOf(secs[..|secs| - 1], start), secs[|secs| - 1], start + |secs| - 1)
  }

  /** Nonempty runs, each beginning where the one before it ends. */
  ghost predicate WellTimed(runs: seq<SoundRun>)
  {
    runs == [] ||
    (runs[0].from < runs[0].to && (|runs| > 1 ==> runs[0].to == runs[1].from) && WellTimed(runs[1..]))
  }

  /** A run of the seconds from `start`: its first and last second have its sound, and no
      two seconds in a row inside it both differ from it. */
  ghost predicate Describes(r: SoundRun, secs: seq<Sound>, start: int)
  {
    && start <= r.from < r.to <= start + |secs|
    && secs[r.from - start] == r.sound == secs[r.to - 1 - start]
    && forall k :: r.from - start < k < r.to - start ==> secs[k - 1] == r.sound || secs[k] == r.sound
  }

  /** Run i describes its seconds, follows on from the run before it, which has another
      sound, and if it is a short inner run its two neighbours differ too. */
  ghost predicate RunFits(runs: seq<SoundRun>, i: nat, secs: seq<Sound>, start: int)
    requires i < |runs|
  {
    && Describes(runs[i], secs, start)
    && (i == 0 ==> runs[i].from == start)
    && (i > 0 ==> runs[i - 1].to == runs[i].from && runs[i - 1].sound != runs[i].sound)
    && (0 < i < |runs| - 1 && runs[i].to - runs[i].from < 2 ==> runs[i - 1].sound != runs[i + 1].sound)
  }

  ghost predicate Faithful(runs: seq<SoundRun>, secs: seq<Sound>, start: int)
  {
    && (runs == [] <==> secs == [])
    && (runs != [] ==> runs[|runs| - 1].to == start + |secs|)
    && forall i :: 0 <= i < |runs| ==> RunFits(runs, i, secs, start)
  }

  lemma DescribesLonger(r: SoundRun, secs: seq<Sound>, sound: Sound, start: int)
    requires Describes(r, secs, start)
    ensures Describes(r, secs + [sound], start)
  {
  }

  /** The last run, or after a blip the one before it, takes in the next second. */
  lemma DescribesExtended(r: SoundRun, secs: seq<Sound>, start: int)
    requires secs != [] && Describes(r, secs, start)
    requires r.to == start + |secs| || (r.to == start + |secs| - 1)
    ensures Describes(r.(to := start + |secs| + 1), secs + [r.sound], start)
  {
    var r', secs' := r.(to := start + |secs| + 1), secs + [r.sound];
    forall k | r'.from - start < k < r'.to - start
      ensures secs'[k - 1] == r.sound || secs'[k] == r.sound
    {
    }
  }

  /** The runs before the last one stay as they were. */
  lemma EarlierRunsFit(runs: seq<SoundRun>, runs': seq<SoundRun>, secs: seq<Sound>, start: int, sound: Sound)
    requires Faithful(runs, secs, start) && runs' != [] && runs' == AddSecond(runs, sound, start + |secs|)
    ensures forall i :: 0 <= i < |runs'| - 1 ==> RunFits(runs', i, secs + [sound], start)
  {
    forall i | 0 <= i < |runs'| - 1 ensures RunFits(runs', i, secs + [sound], start) {
      assert RunFits(runs, i, secs, start);
      hide Describes;
      DescribesLonger(runs[i], secs, sound, start);
    }
  }

  lemma LastRunFits(runs: seq<SoundRun>, runs': seq<SoundRun>, secs: seq<Sound>, start: int, sound: Sound)
    requires Faithful(runs, secs, start) && runs' != [] && runs' == AddSecond(runs, sound, start + |secs|)
    ensures RunFits(runs', |runs'| - 1, secs + [sound], start)
  {
    var n, m := |runs|, |runs'| - 1;
    if m < n {
      assert RunFits(runs, m, secs, start) && RunFits(runs, n - 1, secs, start);
      hide Describes;
      DescribesExtended(runs[m], secs, start);
    } else if n > 0 {
      assert RunFits(runs, n - 1, secs, start);
    }
  }

  /** Folding one more second in keeps the runs faithful. */
  lemma AddSecondFaithful(runs: seq<SoundRun>, secs: seq<Sound>, start: int, sound: Sound)
    requires Faithful(runs, secs, start)
    ensures Faithful(AddSecond(runs, sound, start + |secs|), secs + [sound], start)
  {
    var runs' := AddSecond(runs, sound, start + |secs|);
    EarlierRunsFit(runs, runs', secs, start, sound);
    LastRunFits(runs, runs', secs, start, sound);
    forall i | 0 <= i < |runs'| ensures RunFits(runs', i, secs + [sound], start) { }
  }

  /** The runs of any seconds tile them, neighbours differ, each begins and ends on its own
      sound, blips inside are single seconds, and a short inner run separates two sounds. */
  lemma {:induction false} RunsAreFaithful(secs: seq<Sound>, start: int)
    ensures Faithful(RunsOf(secs, start), secs, start)
  {
    if secs != [] {
      var init := secs[..|secs| - 1];
      RunsAreFaithful(init, start);
      AddSecondFaithful(RunsOf(init, start), init, start, secs[|secs| - 1]);
      assert init + [secs[|secs| - 1]] == secs;
    }
  }

  lemma {:induction false} FaithfulIsTimed(runs: seq<SoundRun>, secs: seq<Sound>, start: int, i: nat)
    requires Faithful(runs, secs, start) && i <= |runs|
    ensures WellTimed(runs[i..])
    decreases |runs| - i
  {
    if i < |runs| {
      FaithfulIsTimed(runs, secs, start, i + 1);
      assert RunFits(runs, i, secs, start);
      if i + 1 < |runs| { assert RunFits(runs, i + 1, secs, start); }
      assert runs[i..][1..] == runs[i + 1..];
    }
  }

  lemma TimedRuns(secs: seq<Sound>, start: int) returns (runs: seq<SoundRun>)
    ensures runs == RunsOf(secs, start) && Faithful(runs, secs, start) && WellTimed(runs)
    ensures runs != [] ==> runs[0].from == start
  {
    runs := RunsOf(secs, start);
    RunsAreFaithful(secs, start);
    FaithfulIsTimed(runs, secs, start, 0);
    assert runs[0..] == runs;
    if runs != [] { assert RunFits(runs, 0, secs, start); }
  }

  // ---- runs to holds ----

  /** First index from which every run is music or silence. */
  function QuietIndex(runs: seq<SoundRun>): (i: nat)
    ensures i <= |runs|
    ensures forall k :: i <= k < |runs| ==> runs[k].sound != Speech
    ensures i > 0 ==> runs[i - 1].sound == Speech
  {
    if runs == [] || runs[|runs| - 1].sound == Speech then |runs|
    else QuietIndex(runs[..|runs| - 1])
  }

  function QuietSinceOf(runs: seq<SoundRun>): Option<int>
  {
    var i := QuietIndex(runs);
    if i < |runs| && runs[|runs| - 1].to - runs[i].from >= HOLD_AFTER_SECONDS then Some(runs[i].from) else None
  }

  /** No key press after time g (`after` is the last press; none: -Infinity). */
  predicate NoPressAfter(after: Option<real>, g: real) { after.Some? ==> after.value <= g }

  /** The scan of `summary`, from `quietFrom` on. */
  function HoldScan(runs: seq<SoundRun>, after: Option<real>, quietFrom: Option<real>): Option<real>
  {
    if runs == [] then None
    else if NoHold(runs[0], after) then HoldScan(runs[1..], after, None)
    else
      var q := QuietStart(runs[0], after, quietFrom);
      if runs[0].to as real - q >= HOLD_AFTER_SECONDS as real then Some(q)
      else HoldScan(runs[1..], after, Some(q))
  }

  /** A run that ended by the last press, or is speech, ends a quiet stretch. */
  predicate NoHold(r: SoundRun, after: Option<real>)
  {
    (after.Some? && r.to as real <= after.value) || r.sound == Speech
  }

  function QuietStart(r: SoundRun, after: Option<real>, quietFrom: Option<real>): real
  {
    if quietFrom.Some? then quietFrom.value
    else if after.Some? then Max(r.from as real, after.value)
    else r.from as real
  }

  function SummaryOf(secs: seq<Sound>, start: int, after: Option<real>): Option<Summary>
  {
    var runs := RunsOf(secs, start);
    if runs == [] then None
    else
      var now := runs[|runs| - 1];
      var hold := HoldScan(runs, after, None);
      Some(Summary(now.sound, now.to - now.from,
                   if hold.None? then 0 else Round(now.to as real - hold.value),
                   LatestRuns(runs)))
  }

  function LatestRuns(runs: seq<SoundRun>): seq<SoundRun>
  {
    runs[if |runs| > RECENT_RUNS then |runs| - RECENT_RUNS else 0..]
  }

  /** The scan of the first run. */
  lemma ScanUnfold(runs: seq<SoundRun>, after: Option<real>, q: Option<real>)
    requires runs != [] && !NoHold(runs[0], after)
    requires runs[0].to as real - QuietStart(runs[0], after, q) >= HOLD_AFTER_SECONDS as real
    ensures HoldScan(runs, after, q) == Some(QuietStart(runs[0], after, q))
  {
  }

  /** The scan from run i on, run i first. */
  lemma ScanNext(runs: seq<SoundRun>, i: nat, after: Option<real>, q: Option<real>)
    requires i < |runs|
    ensures var start := QuietStart(runs[i], after, q);
            HoldScan(runs[i..], after, q) ==
              if NoHold(runs[i], after) then HoldScan(runs[i + 1..], after, None)
              else if runs[i].to as real - start >= HOLD_AFTER_SECONDS as real then Some(start)
              else HoldScan(runs[i + 1..], after, Some(start))
  {
    assert runs[i..][1..] == runs[i + 1..];
  }

  lemma ScanLast(r: SoundRun, after: Option<real>, q: Option<real>)
    ensures HoldScan([r], after, q).Some? <==>
      !NoHold(r, after) && r.to as real - QuietStart(r, after, q) >= HOLD_AFTER_SECONDS as real
    ensures HoldScan([r], after, q).Some? ==> HoldScan([r], after, q) == Some(QuietStart(r, after, q))
  {
  }

  /** One more second never moves a hold the scan has found, even when it folds the last
      run away. */
  lemma {:induction false} ScanStable(runs: seq<SoundRun>, sound: Sound, after: Option<real>, q: Option<real>)
    requires WellTimed(runs) && HoldScan(runs, after, q).Some?
    requires q.Some? ==> q.value <= runs[0].from as real
    ensures HoldScan(AddSecond(runs, sound, runs[|runs| - 1].to), after, q) == HoldScan(runs, after, q)
  {
    var t := runs[|runs| - 1].to;
    var runs', rest := AddSecond(runs, sound, t), runs[1..];
    if |runs| == 1 {
      ScanUnfold(runs', after, q);
    } else if |runs| == 2 {
      assert rest == [runs[1]];
      ScanLast(runs[1], after, if NoHold(runs[0], after) then None else Some(QuietStart(runs[0], after, q)));
      if NoHold(runs[0], after) {
        assert runs'[1..][0] == runs'[1];
        ScanUnfold(runs'[1..], after, None);
      } else {
        var q0 := QuietStart(runs[0], after, q);
        if runs[0].to as real - q0 < HOLD_AFTER_SECONDS as real {
          assert HoldScan(rest, after, Some(q0)) == Some(q0);
          if |runs'| == 1 {
            ScanUnfold(runs', after, q);
          } else {
            assert runs'[1..][0] == runs'[1];
            ScanUnfold(runs'[1..], after, Some(q0));
          }
        }
      }
    } else {
      assert runs'[1..] == AddSecond(rest, sound, t);
      assert runs'[0] == runs[0] && runs[0].to == rest[0].from;
      if NoHold(runs[0], after) {
        ScanStable(rest, sound, after, None);
      } else {
        var q0 := QuietStart(runs[0], after, q);
        if runs[0].to as real - q0 < HOLD_AFTER_SECONDS as real {
          ScanStable(rest, sound, after, Some(q0));
        }
      }
    }
  }

  lemma {:induction false} HoldStable(secs: seq<Sound>, more: seq<Sound>, start: int, after: Option<real>)
    requires HoldScan(RunsOf(secs, start), after, None).Some?
    ensures HoldScan(RunsOf(secs + more, start), after, None) == HoldScan(RunsOf(secs, start), after, None)
  {
    if more == [] {
      assert secs + more == secs;
    } else {
      var init := more[..|more| - 1];
      var sound := more[|more| - 1];
      HoldStable(secs, init, start, after);
      var runs := TimedRuns(secs + init, start);
      ScanStable(runs, sound, after, None);
      assert (secs + more)[..|secs + more| - 1] == secs + init;
    }
  }

  /** A found hold is five seconds old, began no earlier than the last press, and within it
      no two seconds in a row are speech. */
  lemma {:induction false} ScanSound(runs: seq<SoundRun>, after: Option<real>, q: Option<real>)
    returns (i: nat, k: nat)
    requires WellTimed(runs) && HoldScan(runs, after, q).Some?
    requires q.Some? ==> q.value <= runs[0].from as real && NoPressAfter(after, q.value)
    ensures i <= k < |runs| && forall j :: i <= j <= k ==> runs[j].sound != Speech
    ensures var h := HoldScan(runs, after, q).value;
            && NoPressAfter(after, h)
            && runs[k].to as real - h >= HOLD_AFTER_SECONDS as real
            && (h >= runs[i].from as real || (i == 0 && q == Some(h)))
  {
    var rest := runs[1..];
    var q0 := QuietStart(runs[0], after, q);
    if !NoHold(runs[0], after) && runs[0].to as real - q0 >= HOLD_AFTER_SECONDS as real {
      i, k := 0, 0;
    } else {
      var q' := if NoHold(runs[0], after) then None else Some(q0);
      assert runs[0].to == rest[0].from;
      var i', k' := ScanSound(rest, after, q');
      i, k := if i' == 0 && q'.Some? && HoldScan(rest, after, q') == q' then 0 else i' + 1, k' + 1;
      assert forall j :: 1 <= j <= k ==> runs[j] == rest[j - 1];
    }
  }

  /** What a reported hold means in seconds of sound. */
  lemma HoldMeansQuiet(secs: seq<Sound>, start: int, after: Option<real>)
    requires HoldScan(RunsOf(secs, start), after, None).Some?
    ensures var h := HoldScan(RunsOf(secs, start), after, None).value;
            && h >= start as real && NoPressAfter(after, h)
            && exists e :: QuietStretch(secs, start, h, e)
  {
    var runs := TimedRuns(secs, start);
    var h := HoldScan(runs, after, None).value;
    var i, k := ScanSound(runs, after, None);
    FromsAscend(runs, 0, i);
    FromsAscend(runs, k, |runs| - 1);
    QuietRunsQuiet(secs, start, runs, i, k);
    assert QuietStretch(secs, start, h, runs[k].to);
  }

  /** From h to e is at least five seconds without two speech seconds in a row. */
  ghost predicate QuietStretch(secs: seq<Sound>, start: int, h: real, e: int)
  {
    && e as real - h >= 5.0
    && e <= start + |secs|
    && forall t :: 0 < t < e - start && h <= (start + t - 1) as real ==> !(secs[t - 1] == Speech && secs[t] == Speech)
  }

  lemma {:induction false} FromsAscend(runs: seq<SoundRun>, i: nat, j: nat)
    requires WellTimed(runs) && i <= j < |runs|
    ensures runs[i].from < runs[i].to && runs[i].from <= runs[j].from && runs[i].to <= runs[j].to
    ensures i < j ==> runs[i].to <= runs[j].from
  {
    if i > 0 {
      FromsAscend(runs[1..], i - 1, j - 1);
    } else if j > 0 {
      FromsAscend(runs[1..], 0, j - 1);
    }
  }

  lemma {:induction false} QuietRunsQuiet(secs: seq<Sound>, start: int, runs: seq<SoundRun>, i: nat, k: nat)
    requires Faithful(runs, secs, start) && i <= k < |runs|
    requires forall j :: i <= j <= k ==> runs[j].sound != Speech
    ensures start <= runs[i].from && runs[k].to <= start + |secs|
    ensures forall t :: runs[i].from - start < t < runs[k].to - start ==>
              !(secs[t - 1] == Speech && secs[t] == Speech)
    decreases k
  {
    assert RunFits(runs, k, secs, start);
    if i < k { QuietRunsQuiet(secs, start, runs, i, k - 1); }
  }

  /** Quiet runs that began by g and have lasted five seconds past it, with no press after g,
      put the call on hold from g or earlier. */
  lemma {:induction false} QuietRunsHold(runs: seq<SoundRun>, after: Option<real>, q: Option<real>, j: nat, g: real)
    requires WellTimed(runs) && j < |runs|
    requires forall i :: j <= i < |runs| ==> runs[i].sound != Speech
    requires runs[j].from as real <= g || (j == 0 && q.Some?)
    requires q.Some? ==> q.value <= g
    requires NoPressAfter(after, g)
    requires runs[|runs| - 1].to as real >= g + HOLD_AFTER_SECONDS as real
    ensures HoldScan(runs, after, q).Some? && HoldScan(runs, after, q).value <= g
  {
    var rest := runs[1..];
    FromsAscend(runs, 0, j);
    if NoHold(runs[0], after) {
      if |runs| > 1 { assert runs[0].to == rest[0].from; }
      QuietRunsHold(rest, after, None, if j == 0 then 0 else j - 1, g);
    } else {
      var q0 := QuietStart(runs[0], after, q);
      if runs[0].to as real - q0 < HOLD_AFTER_SECONDS as real {
        QuietRunsHold(rest, after, Some(q0), if j == 0 then 0 else j - 1, g);
      }
    }
  }

  // ---- what the navigator is told ----

  /** Once a hold is reported it is at least five seconds long, and every further second of
      any sound adds exactly one to it. */
  lemma HoldGrowsBySeconds(secs: seq<Sound>, more: seq<Sound>, start: int, after: Option<real>)
    requires OnHold(secs, start, after) != 0
    ensures OnHold(secs, start, after) >= 5
    ensures OnHold(secs + more, start, after) == OnHold(secs, start, after) + |more|
  {
    var runs := TimedRuns(secs, start);
    var runs' := TimedRuns(secs + more, start);
    HoldStable(secs, more, start, after);
    HoldIsOld(runs, after);
    RoundShift(runs[|runs| - 1].to as real - HoldScan(runs, after, None).value, |more|);
  }

  lemma RoundAtLeast(x: real, n: int)
    requires x >= n as real
    ensures Round(x) >= n
  {
  }

  lemma HoldIsOld(runs: seq<SoundRun>, after: Option<real>)
    requires WellTimed(runs) && HoldScan(runs, after, None).Some?
    ensures runs != [] && runs[|runs| - 1].to as real - HoldScan(runs, after, None).value >= HOLD_AFTER_SECONDS as real
  {
    var i, k := ScanSound(runs, after, None);
    FromsAscend(runs, k, |runs| - 1);
  }

  lemma RoundShift(x: real, n: int)
    ensures Round(x + n as real) == Round(x) + n
  {
  }

  /** `seconds_on_hold` of the summary. */
  function OnHold(secs: seq<Sound>, start: int, after: Option<real>): int
  {
    var summary := SummaryOf(secs, start, after);
    if summary.None? then 0 else summary.value.secondsOnHold
  }

  lemma {:induction false} QuietIndexIs(runs: seq<SoundRun>, i: nat)
    requires i <= |runs| && (forall k :: i <= k < |runs| ==> runs[k].sound != Speech) && (i > 0 ==> runs[i - 1].sound == Speech)
    ensures QuietIndex(runs) == i
  {
    if i < |runs| { QuietIndexIs(runs[..|runs| - 1], i); }
  }

  /** quietSince tells where the last runs without speech began, if that is five seconds ago or
      more, and nothing otherwise. */
  lemma QuietSinceMeans(runs: seq<SoundRun>, i: nat)
    requires i < |runs| && (forall k :: i <= k < |runs| ==> runs[k].sound != Speech) && (i > 0 ==> runs[i - 1].sound == Speech)
    ensures QuietSinceOf(runs) == if runs[|runs| - 1].to - runs[i].from >= 5 then Some(runs[i].from) else None
  {
    QuietIndexIs(runs, i);
  }

  lemma SpeechLast(runs: seq<SoundRun>)
    requires runs == [] || runs[|runs| - 1].sound == Speech
    ensures QuietSinceOf(runs) == None
  {
  }

  /** Without a press since the quiet began, what quietSince reports is on hold. */
  lemma QuietIsOnHold(secs: seq<Sound>, start: int, after: Option<real>)
    requires QuietSinceOf(RunsOf(secs, start)).Some?
    requires NoPressAfter(after, QuietSinceOf(RunsOf(secs, start)).value as real)
    ensures OnHold(secs, start, after) >= start + |secs| - QuietSinceOf(RunsOf(secs, start)).value
  {
    var runs := TimedRuns(secs, start);
    QuietRunsHold(runs, after, None, QuietIndex(runs), QuietSinceOf(runs).value as real);
    RoundAtLeast(runs[|runs| - 1].to as real - HoldScan(runs, after, None).value, start + |secs| - QuietSinceOf(runs).value);
  }

  /** Five or more seconds without speech since the last press are always reported as a hold
      that covers them. */
  lemma QuietSecondsAreOnHold(secs: seq<Sound>, start: int, after: Option<real>, i: nat)
    requires i + 5 <= |secs|
    requires forall k :: i <= k < |secs| ==> secs[k] != Speech
    requires NoPressAfter(after, (start + i) as real)
    ensures OnHold(secs, start, after) >= |secs| - i
  {
    var runs := TimedRuns(secs, start);
    var j := RunAt(runs, start + i);
    forall k | j <= k < |runs| ensures runs[k].sound != Speech {
      FromsAscend(runs, j, k);
      FromsAscend(runs, k, |runs| - 1);
      assert RunFits(runs, k, secs, start);
    }
    QuietRunsHold(runs, after, None, j, (start + i) as real);
    RoundAtLeast(runs[|runs| - 1].to as real - HoldScan(runs, after, None).value, |secs| - i);
  }

  lemma {:induction false} RunAt(runs: seq<SoundRun>, t: int) returns (j: nat)
    requires WellTimed(runs) && runs != []
    requires runs[0].from <= t < runs[|runs| - 1].to
    ensures j < |runs| && runs[j].from <= t < runs[j].to
  {
    if t < runs[0].to {
      j := 0;
    } else {
      var k := RunAt(runs[1..], t);
      j := k + 1;
    }
  }

  /** The summary of any seconds: what plays now is the last second's sound. It is said to have
      played for a time that began with such a second, after a second of another sound, and in
      which no two seconds in a row were anything else. The latest runs are told, twelve at most. */
  lemma SummaryMeans(secs: seq<Sound>, start: int, after: Option<real>)
    requires secs != []
    ensures var s, n, all := SummaryOf(secs, start, after), |secs|, RunsOf(secs, start);
            && s.Some? && s.value.now == secs[n - 1] && 1 <= s.value.forSeconds <= n
            && secs[n - s.value.forSeconds] == secs[n - 1]
            && (s.value.forSeconds < n ==> secs[n - s.value.forSeconds - 1] != secs[n - 1])
            && (forall k :: n - s.value.forSeconds < k < n ==> secs[k - 1] == secs[n - 1] || secs[k] == secs[n - 1])
            && s.value.recent == all[|all| - Min(12, |all|)..]
  {
    RunsAreFaithful(secs, start);
    var runs := RunsOf(secs, start);
    LastRunIs(runs, secs, start);
    hide Faithful, HoldScan, RunsOf;
    var r := runs[|runs| - 1];
    assert SummaryOf(secs, start, after).value.forSeconds == r.to - r.from;
    hide SummaryOf;
  }

  lemma LastRunIs(runs: seq<SoundRun>, secs: seq<Sound>, start: int)
    requires secs != [] && Faithful(runs, secs, start)
    ensures runs != []
    ensures var r, n := runs[|runs| - 1], |secs|;
            && 1 <= r.to - r.from <= n && r.sound == secs[n - 1] == secs[n - (r.to - r.from)]
            && (r.to - r.from < n ==> secs[n - (r.to - r.from) - 1] != secs[n - 1])
            && forall k :: n - (r.to - r.from) < k < n ==> secs[k - 1] == secs[n - 1] || secs[k] == secs[n - 1]
  {
    assert RunFits(runs, |runs| - 1, secs, start);
    if |runs| > 1 { assert RunFits(runs, |runs| - 2, secs, start); }
  }

  // ---- the detector ----

  class LineSound {
    var secs: seq<Sound>
    var start: int
    var windows: nat
    var speechWindows: nat
    var squares: real
    /** Every window of the call so far. */
    ghost var heard: seq<Window>

    ghost predicate Valid()
      reads this
    {
      && windows < WINDOWS_PER_SECOND
      && |heard| == WINDOWS_PER_SECOND * |secs| + windows
      && SecondsOf(secs, heard)
      && speechWindows == SpeechCount(Unfinished(secs, heard))
      && squares == Energy(Unfinished(secs, heard))
    }

    constructor ()
      ensures Valid() && secs == [] && heard == [] && start == 0
    {
      secs, start, windows, speechWindows, squares, heard := [], 0, 0, 0, 0.0, [];
    }

    method Window(prob: real, rms: real, nowSeconds: real) returns (sound: Option<Sound>)
      requires Valid()
      modifies this
      ensures Valid() && heard == old(heard) + [LineSoundWindow(prob, rms)]
      ensures sound.Some? <==> |heard| == WINDOWS_PER_SECOND * |secs|
      ensures secs == old(secs) + if sound.Some? then [sound.value] else []
      ensures start == if sound.Some? && old(secs) == [] then FirstSecond(nowSeconds) else old(start)
    {
      hide SecondsOf, SpeechCount, Energy, SoundOf;
      ghost var w := LineSoundWindow(prob, rms);
      WindowHeard(secs, heard, w);
      heard := heard + [w];
      windows := windows + 1;
      if prob > 0.5 { speechWindows := speechWindows + 1; }
      squares := squares + rms * rms;
      if windows < WINDOWS_PER_SECOND { return None; }
      ghost var now := Unfinished(secs, heard);
      assert speechWindows == SpeechCount(now) && squares == Energy(now) && windows == |now|;
      var s := SoundOf(speechWindows, squares, windows);
      SecondHeard(secs, heard);
      assert s == Classify(now);
      windows, speechWindows, squares := 0, 0, 0.0;
      if |secs| == 0 { start := FirstSecond(nowSeconds); }
      secs := secs + [s];
      assert SecondsOf(secs, heard);
      NothingUnfinished(secs, heard);
      return Some(s);
    }

    method Runs() returns (runs: seq<SoundRun>)
      ensures runs == RunsOf(secs, start)
    {
      runs := [];
      for i := 0 to |secs|
        invariant runs == RunsOf(secs[..i], start)
      {
        var sound, t, n := secs[i], start + i, |runs|;
        assert secs[..i + 1][..i] == secs[..i];
        if n > 0 && runs[n - 1].sound == sound {
          runs := runs[n - 1 := runs[n - 1].(to := t + 1)];
        } else if n > 1 && runs[n - 2].sound == sound && runs[n - 1].to - runs[n - 1].from < BLIP_SECONDS {
          runs := runs[..n - 1];
          runs := runs[n - 2 := runs[n - 2].(to := t + 1)];
        } else {
          runs := runs + [SoundRun(sound, t, t + 1)];
        }
      }
      assert secs[..|secs|] == secs;
    }

    method QuietSince() returns (since: Option<int>)
      ensures since == QuietSinceOf(RunsOf(secs, start))
    {
      var runs := Runs();
      var from: Option<int> := None;
      var i := |runs|;
      while i > 0 && runs[i - 1].sound != Speech
        invariant 0 <= i <= |runs|
        invariant QuietIndex(runs) == QuietIndex(runs[..i])
        invariant from == if i < |runs| then Some(runs[i].from) else None
      {
        hide RunsOf, QuietSinceOf;
        assert runs[..i][..i - 1] == runs[..i - 1];
        i := i - 1;
        from := Some(runs[i].from);
      }
      since := if from.Some? && runs[|runs| - 1].to - from.value >= HOLD_AFTER_SECONDS then from else None;
    }

    method GetSummary(lastPressAt: Option<real>) returns (summary: Option<Summary>)
      ensures summary == SummaryOf(secs, start, lastPressAt)
    {
      var runs := Runs();
      if |runs| == 0 { return None; }
      var now := runs[|runs| - 1];
      var quietFrom: Option<real>, holdFrom: Option<real> := None, None;
      var i := 0;
      while i < |runs|
        invariant 0 <= i <= |runs| && holdFrom.None?
        invariant HoldScan(runs, lastPressAt, None) == HoldScan(runs[i..], lastPressAt, quietFrom)
        decreases |runs| - i
      {
        hide HoldScan, RunsOf, SummaryOf;
        var r := runs[i];
        ScanNext(runs, i, lastPressAt, quietFrom);
        i := i + 1;
        if (lastPressAt.Some? && r.to as real <= lastPressAt.value) || r.sound == Speech {
          quietFrom := None;
          continue;
        }
        if quietFrom.None? {
          quietFrom := Some(if lastPressAt.Some? then Max(r.from as real, lastPressAt.value) else r.from as real);
        }
        if r.to as real - quietFrom.value >= HOLD_AFTER_SECONDS as real {
          holdFrom := quietFrom;
          break;
        }
      }
      summary := Some(Summary(now.sound, now.to - now.from,
                              if holdFrom.None? then 0 else Round(now.to as real - holdFrom.value),
                              LatestRuns(runs)));
    }
  }

  function LineSoundWindow(prob: real, rms: real): Window { Window.Window(prob, rms) }

  /** The first second ended about now, and not before a second into the call. */
  function FirstSecond(nowSeconds: real): (s: int)
    ensures nowSeconds >= 0.5 ==> s as real + 0.5 <= nowSeconds < s as real + 1.5
    ensures nowSeconds < 0.5 ==> s == 0
  {
    if Round(nowSeconds) - 1 > 0 then Round(nowSeconds) - 1 else 0
  }
}
