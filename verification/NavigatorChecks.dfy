/** When the navigator looks at the call and what it then does, told from what was said, pressed
    and answered. */
module NavigatorChecks {
  import opened Wrappers
  import opened Text
  import opened Navigator

  // ---- what an answer makes it do ----

  /** An answer it acts on: sure enough of the action and, to press, of a key there is. */
  predicate IsSure(a: Answer, threshold: real)
  {
    && a.Answer? && a.action != Wait && a.p >= threshold
    && (a.action == Press ==> a.keyP >= threshold && |a.key| == 1 && ('0' <= a.key[0] <= '9' || a.key[0] in {'*', '#'}))
  }

  lemma KeysAre(key: string)
    ensures key in KEYS <==> |key| == 1 && ('0' <= key[0] <= '9' || key[0] in {'*', '#'})
  {
    if |key| == 1 { assert key == [key[0]]; }
  }

  lemma Flushed(m: Nav)
    ensures var f := FlushPartial(m); f == m.(entries := f.entries, partial := "", nextSerial := f.nextSerial)
  {
  }

  /** It does what it was told if the answer is sure enough and nobody stopped it meanwhile, and
      nothing at all otherwise: a press adds one key press and waits for the reply, a hand-off or
      hang-up stops it. Only a failed answer makes it look again at what it has seen. */
  lemma AnswerMeans(m: Nav, t: int, a: Answer, threshold: real)
    requires m.flight.Deciding?
    ensures var m', sure := Decided(m, t, a, threshold), IsSure(a, threshold) && !m.stopped;
            && (sure && a.action == Press ==>
                  && m'.presses == m.presses + [KeyPress(t, ByNavigator, a.key)] && m'.acts == m.acts + [Press]
                  && m'.flight.Pressing? && !m'.stopped && m'.seenChars == m.seenChars)
            && (sure && a.action != Press ==>
                  m' == m.(flight := Landed, stopped := true, acts := m.acts + [a.action]))
            && (!sure ==> m' == m.(flight := Landed, seenChars := if a.Failed? then -1 else m.seenChars))
  {
    if a.Answer? { KeysAre(a.key); }
    Flushed(m);
    hide KEYS;
    hide FlushPartial;
  }

  /** A press goes into the transcript after what the line said so far, with its time, its keys
      and who pressed them; what the navigator pressed is not looked at until more is said. */
  lemma PressMeans(m: Nav, press: KeyPress)
    requires !m.stopped
    ensures var m' := Pressed(m, press);
            && m'.presses == m.presses + [press] && m'.partial == "" && m'.entries != []
            && m'.entries[|m'.entries| - 1].t == press.t && m'.entries[|m'.entries| - 1].who == Keypad
            && m'.entries[|m'.entries| - 1].text
                 == "pressed " + press.keys + (if press.presser == ByNavigator then " (you)" else " (the assistant)")
            && m'.entries[..|m'.entries| - 1] == AllEntries(m)
            && (press.presser == ByNavigator ==> Check(m', false) == m')
  {
  }

  /** What the assistant said goes in likewise, trimmed. */
  lemma SaidMeans(m: Nav, t: int, text: string)
    requires !m.stopped && Trim(text) != ""
    ensures var m' := AssistantSaid(m, t, text);
            && m'.partial == "" && m'.entries != [] && m'.entries[..|m'.entries| - 1] == AllEntries(m)
            && m'.entries[|m'.entries| - 1].t == t && m'.entries[|m'.entries| - 1].who == Assistant
            && m'.entries[|m'.entries| - 1].text == Trim(text)
  {
  }

  /** The other steps: the assistant's key presses, a press that went through, the end. */
  lemma StepsMean(m: Nav, step: Step)
    requires Possible(m, step)
    ensures step.AssistantPresses? ==> Next(m, step) == Pressed(m, KeyPress(step.t, ByAssistant, step.keys))
    ensures step == PressDone(true) ==> Next(m, step) == m.(flight := Landed)
    ensures step == Stopped ==> Next(m, step) == m.(stopped := true)
    ensures step == PressDone(false) ==> Next(m, step).flight.Landed? && Next(m, step).stopped == m.stopped
  {
    hide KEYS, Without, Pressed;
  }

  // ---- what the line says ----

  /** A sentence ends before place i. */
  predicate EndsAt(s: string, i: nat) { 0 < i < |s| && s[i - 1] in {'.', '!', '?'} && IsSpace(s[i]) }

  lemma {:induction false} SentencesAre(s: string)
    ensures var n := Sentences(s); (n > 0 ==> EndsAt(s, n)) && forall i :: n < i ==> !EndsAt(s, i)
  {
    if |s| >= 2 && Sentences(s) != |s| - 1 {
      var r := s[..|s| - 1];
      SentencesAre(r);
      forall i | Sentences(r) < i ensures !EndsAt(s, i) {
        assert !EndsAt(r, i);
      }
    }
  }

  /** The line's text joins what it has said since its last whole sentence. Up to the last
      sentence in it, it becomes an entry of the time the first of it was heard; the rest waits
      and counts from now. */
  lemma LineTextMeans(m: Nav, t: int, delta: string)
    requires !m.stopped && delta != ""
    ensures var m', s, since := LineText(m, t, delta), m.partial + delta, if m.partial == "" then t else m.partialAt;
            if forall i :: !EndsAt(s, i) then m'.entries == m.entries && m'.partial == s && m'.partialAt == since
            else exists n :: EndsAt(s, n) && (forall i :: n < i ==> !EndsAt(s, i)) && SentenceEntered(m, m', t, since, s, n)
  {
    var s := m.partial + delta;
    SentencesAre(s);
    var n := Sentences(s);
    hide Sentences;
    if n > 0 { assert SentenceEntered(m, LineText(m, t, delta), t, if m.partial == "" then t else m.partialAt, s, n); }
  }

  ghost predicate SentenceEntered(m: Nav, m': Nav, t: int, since: int, s: string, n: nat)
  {
    && n <= |s| && m'.entries == m.entries + [Entry(m.nextSerial, since, Line, Trim(s[..n]))]
    && m'.partial == TrimStart(s[n..]) && m'.partialAt == t
  }

  // ---- when it looks ----

  /** It has seen no more, and pressed no later, than was said. */
  ghost predicate CountsOk(m: Nav) { m.seenChars <= m.totalChars && m.pressedAtChars <= m.totalChars }

  /** Somebody says something. */
  predicate Talks(step: Step)
  {
    match step
    case LineTalks(_, delta) => delta != ""
    case AssistantTalks(_, text) => exists i :: 0 <= i < |text| && !IsSpace(text[i])
    case _ => false
  }

  predicate Fails(step: Step) { step == PressDone(false) || (step.AnswerComes? && step.answer.Failed?) }

  lemma {:induction false} BlankTrims(s: string)
    ensures Trim(s) == "" <==> forall i :: 0 <= i < |s| ==> IsSpace(s[i])
  {
    TrimStartBlank(s);
    TrimEndBlank(TrimStart(s));
  }

  lemma {:induction false} TrimStartBlank(s: string)
    ensures (forall i :: 0 <= i < |s| ==> IsSpace(s[i])) <==> TrimStart(s) == ""
  {
    if s != "" && IsSpace(s[0]) { TrimStartBlank(s[1..]); assert forall i :: 0 < i < |s| ==> s[i] == s[1..][i - 1]; }
  }

  lemma {:induction false} TrimEndBlank(s: string)
    requires s != "" ==> !IsSpace(s[0])
    ensures TrimEnd(s) == "" <==> s == ""
  {
    if s != "" && IsSpace(s[|s| - 1]) { TrimEndBlank(s[..|s| - 1]); }
  }

  /** Talk adds to what was said unless nobody listens any more, and nothing else does. */
  lemma StepCounts(m: Nav, step: Step)
    requires CountsOk(m) && Possible(m, step)
    ensures var m' := Next(m, step);
            && CountsOk(m')
            && (if Talks(step) && !m.stopped then m'.totalChars > m.totalChars else m'.totalChars == m.totalChars)
            && (m.stopped ==> m'.stopped)
  {
    hide KEYS, Chosen, Sentences, FlushPartial, PressText, Without;
    Flushed(m);
    if step.AssistantTalks? { BlankTrims(step.text); }
    hide IsSpace, Trim, TrimStart;
  }

  lemma {:induction false} CountsInRuns(m: Nav, steps: seq<Step>, end: Nav)
    requires CountsOk(m) && IsRun(m, steps, end)
    ensures CountsOk(end)
    decreases |steps|
  {
    if steps != [] {
      StepCounts(m, steps[0]);
      hide Next, Talks;
      CountsInRuns(Next(m, steps[0]), steps[1..], end);
    }
  }

  lemma LookKept(m: Nav, step: Step)
    requires CountsOk(m) && Possible(m, step) && !step.TimeToCheck? && Next(m, step).acts == m.acts && !Next(m, step).stopped
    requires m.totalChars != m.seenChars && m.totalChars != m.pressedAtChars
    ensures var m' := Next(m, step); m'.totalChars != m'.seenChars && m'.totalChars != m'.pressedAtChars
  {
    StepCounts(m, step);
    Flushed(m);
    hide KEYS, Chosen, Sentences, FlushPartial, PressText, Without, Talks;
  }

  lemma {:induction false} ActsGrow(m: Nav, steps: seq<Step>, end: Nav)
    requires IsRun(m, steps, end)
    ensures m.acts <= end.acts && (m.stopped ==> end.stopped)
    decreases |steps|
  {
    if steps != [] {
      ActsStep(m, steps[0]);
      hide Next;
      ActsGrow(Next(m, steps[0]), steps[1..], end);
    }
  }

  lemma ActsStep(m: Nav, step: Step)
    requires Possible(m, step)
    ensures m.acts <= Next(m, step).acts && (m.stopped ==> Next(m, step).stopped)
  {
    Flushed(m);
    hide KEYS, Chosen, Sentences, FlushPartial, PressText, Without;
  }

  lemma {:induction false} LookThrough(m: Nav, steps: seq<Step>, end: Nav)
    requires CountsOk(m) && IsRun(m, steps, end) && end.acts == m.acts && !end.stopped
    requires forall i :: 0 <= i < |steps| ==> !steps[i].TimeToCheck?
    requires m.totalChars != m.seenChars && m.totalChars != m.pressedAtChars
    ensures end.totalChars != end.seenChars && end.totalChars != end.pressedAtChars
    decreases |steps|
  {
    if steps != [] {
      ActsStep(m, steps[0]);
      ActsGrow(Next(m, steps[0]), steps[1..], end);
      StepCounts(m, steps[0]);
      assert !steps[0].TimeToCheck?;
      LookKept(m, steps[0]);
      hide Next, Talks;
      LookThrough(Next(m, steps[0]), steps[1..], end);
    }
  }

  /** Whatever is said gets looked at: if nobody has checked since, and the navigator has done
      nothing since, the next check starts, unless it is stopped or one is still on its way. */
  lemma WordsAreLookedAt(m: Nav, talk: Step, steps: seq<Step>, end: Nav)
    requires CountsOk(m) && Talks(talk) && IsRun(m, [talk] + steps, end)
    requires (forall i :: 0 <= i < |steps| ==> !steps[i].TimeToCheck?) && end.acts == m.acts
    requires !end.stopped && end.flight.Landed?
    ensures Check(end, false).flight.Deciding?
  {
    assert ([talk] + steps)[1..] == steps;
    var m' := Next(m, talk);
    ActsStep(m, talk);
    ActsGrow(m', steps, end);
    StepCounts(m, talk);
    assert m'.seenChars == m.seenChars && m'.pressedAtChars == m.pressedAtChars by {
      Flushed(m);
      hide Sentences, FlushPartial;
    }
    hide Next, Talks, IsRun;
    LookThrough(m', steps, end);
  }

  lemma {:induction false} NothingNewThrough(m: Nav, steps: seq<Step>, end: Nav)
    requires CountsOk(m) && IsRun(m, steps, end) && (m.totalChars == m.seenChars || m.totalChars == m.pressedAtChars)
    requires forall i :: 0 <= i < |steps| ==> !Talks(steps[i]) && !Fails(steps[i])
    ensures end.totalChars == end.seenChars || end.totalChars == end.pressedAtChars
    decreases |steps|
  {
    if steps != [] {
      StepCounts(m, steps[0]);
      assert !Talks(steps[0]) && !Fails(steps[0]);
      NothingNewStep(m, steps[0]);
      hide Next, Talks, Fails;
      NothingNewThrough(Next(m, steps[0]), steps[1..], end);
    }
  }

  lemma NothingNewStep(m: Nav, step: Step)
    requires CountsOk(m) && Possible(m, step) && (m.totalChars == m.seenChars || m.totalChars == m.pressedAtChars)
    requires !Talks(step) && !Fails(step)
    ensures var m' := Next(m, step); m'.totalChars == m'.seenChars || m'.totalChars == m'.pressedAtChars
  {
    StepCounts(m, step);
    Flushed(m);
    hide KEYS, Chosen, Sentences, FlushPartial, PressText, Without, Talks;
  }

  /** After a check has begun, or the navigator has pressed a key, there is nothing to look at
      until somebody talks, or the check or the press fails; only a quiet line is checked. */
  lemma NothingNewNothingChecked(m: Nav, begin: Step, steps: seq<Step>, end: Nav)
    requires CountsOk(m) && IsRun(m, [begin] + steps, end)
    requires
      || (begin.TimeToCheck? && Next(m, begin).flight.Deciding? && m.flight.Landed?)
      || (begin.AnswerComes? && Next(m, begin).flight.Pressing?)
    requires forall i :: 0 <= i < |steps| ==> !Talks(steps[i]) && !Fails(steps[i])
    ensures Check(end, false) == end
  {
    assert ([begin] + steps)[1..] == steps;
    StepCounts(m, begin);
    assert Next(m, begin).totalChars == Next(m, begin).seenChars || Next(m, begin).totalChars == Next(m, begin).pressedAtChars by {
      Flushed(m);
      hide KEYS, Sentences, FlushPartial, PressText;
    }
    hide Next, Talks, Fails;
    NothingNewThrough(Next(m, begin), steps, end);
    hide IsRun;
  }

  /** A quiet line is checked whenever nothing stands in the way, and a failure makes the
      navigator look again; one that is stopped or waiting never looks. */
  lemma ChecksElse(m: Nav, holding: bool, fail: Step)
    ensures !m.stopped && m.flight.Landed? ==> Check(m, true).flight.Deciding?
    ensures m.stopped || !m.flight.Landed? ==> Check(m, holding) == m
    ensures Possible(m, fail) && Fails(fail) && !m.stopped && m.pressedAtChars < m.totalChars ==>
              Check(Next(m, fail), false).flight.Deciding?
  {
    hide Without;
  }

  /** A stopped navigator listens to nobody and presses nothing. */
  lemma StoppedIsDeaf(m: Nav, step: Step)
    requires m.stopped && Possible(m, step) && step != PressDone(false)
    ensures var m' := Next(m, step);
            m' == m || (!m'.flight.Deciding? && m' == m.(flight := m'.flight, seenChars := m'.seenChars))
  {
    hide KEYS, Chosen, Sentences, FlushPartial, PressText, Without;
  }
}
