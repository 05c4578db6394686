/** The phone-menu navigator (navigator.ts): the transcript it reads, the keys it presses, and
    what is left of a press that failed.

    A check waits twice: for the decision model, and for the press. `Flight` is what it waits
    for; meanwhile the line talks on, and the assistant talks and presses keys. */
module Navigator {
  import opened Wrappers
  import opened Text

  datatype Who = Line | Assistant | Keypad

  /** `serial` is the entry's identity. */
  datatype Entry = Entry(serial: nat, t: int, who: Who, text: string)

  datatype Presser = ByNavigator | ByAssistant

  datatype KeyPress = KeyPress(t: int, presser: Presser, keys: string)

  datatype Flight = Landed | Deciding | Pressing(at: nat, serial: nat)

  datatype Action = Wait | Press | HandOff | HangUp

  /** The decision model's answer: the action and key it chose, and how sure it is of each. */
  datatype Answer = Failed | Answer(action: Action, p: real, key: string, keyP: real)

  /** History: `received` is the line's text, `said` the assistant's, and `acts` what the
      navigator began to do. */
  datatype Nav = Nav(
    entries: seq<Entry>,
    partial: string,
    partialAt: int,
    presses: seq<KeyPress>,
    totalChars: nat,
    seenChars: int,
    pressedAtChars: int,
    flight: Flight,
    stopped: bool,
    nextSerial: nat,
    received: string,
    said: seq<string>,
    acts: seq<Action>)

  const INIT := Nav([], "", 0, [], 0, 0, -1, Landed, false, 0, "", [], [])
  const KEYS := {"0", "1", "2", "3", "4", "5", "6", "7", "8", "9", "*", "#"}

  // ---- the transcript ----

  function Added(m: Nav, t: int, who: Who, text: string): Nav
  {
    m.(entries := m.entries + [Entry(m.nextSerial, t, who, text)], nextSerial := m.nextSerial + 1)
  }

  function FlushPartial(m: Nav): Nav
  {
    var m' := if Trim(m.partial) != "" then Added(m, m.partialAt, Line, Trim(m.partial)) else m;
    m'.(partial := "")
  }

  predicate EndsSentence(c: char) { c in {'.', '!', '?'} }

  /** How much of a text is sentences: up to its last sentence mark before white space. */
  function Sentences(s: string): (n: nat)
    ensures n < |s| || (s == "" && n == 0)
    ensures n > 0 ==> EndsSentence(s[n - 1]) && IsSpace(s[n])
  {
    if |s| < 2 then 0
    else if EndsSentence(s[|s| - 2]) && IsSpace(s[|s| - 1]) then |s| - 1
    else Sentences(s[..|s| - 1])
  }

  function Heard(m: Nav, t: int, delta: string): Nav
  {
    m.(partialAt := if m.partial == "" then t else m.partialAt, partial := m.partial + delta,
       totalChars := m.totalChars + |delta|, received := m.received + delta)
  }

  /** Sentences become an entry; the unfinished rest stays. */
  function SentencesAdded(m: Nav, t: int, n: nat): Nav
    requires n <= |m.partial|
  {
    Added(m, m.partialAt, Line, Trim(m.partial[..n])).(partial := TrimStart(m.partial[n..]), partialAt := t)
  }

  function LineText(m: Nav, t: int, delta: string): Nav
  {
    if m.stopped || delta == "" then m
    else
      var h := Heard(m, t, delta);
      if Sentences(h.partial) == 0 then h else SentencesAdded(h, t, Sentences(h.partial))
  }

  function AssistantSaid(m: Nav, t: int, text: string): Nav
  {
    if m.stopped || Trim(text) == "" then m
    else Added(FlushPartial(m), t, Assistant, Trim(text)).(totalChars := m.totalChars + |text|, said := m.said + [Trim(text)])
  }

  function PressText(p: KeyPress): string
  {
    "pressed " + p.keys + " (" + (if p.presser == ByNavigator then "you" else "the assistant") + ")"
  }

  function Pressed(m: Nav, press: KeyPress): Nav
  {
    if m.stopped then m
    else
      Added(FlushPartial(m), press.t, Keypad, PressText(press)).(
        presses := m.presses + [press],
        pressedAtChars := if press.presser == ByNavigator then m.totalChars else m.pressedAtChars)
  }

  function Without(entries: seq<Entry>, serial: nat): seq<Entry>
  {
    if entries == [] then []
    else
      var before, e := entries[..|entries| - 1], entries[|entries| - 1];
      if e.serial == serial then Without(before, serial) else Without(before, serial) + [e]
  }

  // ---- a check ----

  /** `holding`: the line went quiet since the last check, or has been for a while. */
  function Check(m: Nav, holding: bool): Nav
  {
    if m.stopped || m.flight != Landed then m
    else if !holding && (m.totalChars == m.seenChars || m.totalChars == m.pressedAtChars) then m
    else m.(seenChars := m.totalChars, flight := Deciding)
  }

  /** What an answer makes the navigator do: it must be sure enough of the action, and of the
      key too. */
  function Chosen(a: Answer, threshold: real): (r: Action)
    ensures r == Press ==> a.Answer? && a.key in KEYS
  {
    if a.Failed? || a.p < threshold then Wait
    else if a.action == Press && !(a.key in KEYS && a.keyP >= threshold) then Wait
    else a.action
  }

  function Decided(m: Nav, t: int, a: Answer, threshold: real): Nav
  {
    if m.stopped then (if a.Failed? then m.(flight := Landed, seenChars := -1) else m.(flight := Landed))
    else
      match Chosen(a, threshold)
      case Wait => m.(flight := Landed, seenChars := if a.Failed? then -1 else m.seenChars)
      case Press =>
        var m' := Pressed(m, KeyPress(t, ByNavigator, a.key));
        m'.(flight := Pressing(|m.presses|, m'.nextSerial - 1), acts := m.acts + [Press])
      case act => m.(flight := Landed, stopped := true, acts := m.acts + [act])
  }

  /** A failed press isn't one: forget it, and look again next time. */
  function PressReply(m: Nav, ok: bool): Nav
    requires m.flight.Pressing? && m.flight.at < |m.presses|
  {
    if ok then m.(flight := Landed)
    else
      m.(presses := m.presses[..m.flight.at] + m.presses[m.flight.at + 1..],
         entries := Without(m.entries, m.flight.serial),
         pressedAtChars := -1, seenChars := -1, flight := Landed)
  }

  datatype Step =
    | LineTalks(t: int, delta: string)
    | AssistantTalks(t: int, text: string)
    | AssistantPresses(t: int, keys: string)
    | TimeToCheck(holding: bool)
    | AnswerComes(t: int, answer: Answer, threshold: real)
    | PressDone(ok: bool)
    | Stopped

  predicate Possible(m: Nav, step: Step)
  {
    && (step.AnswerComes? ==> m.flight.Deciding?)
    && (step.PressDone? ==> m.flight.Pressing? && m.flight.at < |m.presses|)
  }

  function Next(m: Nav, step: Step): Nav
    requires Possible(m, step)
  {
    match step
    case LineTalks(t, delta) => LineText(m, t, delta)
    case AssistantTalks(t, text) => AssistantSaid(m, t, text)
    case AssistantPresses(t, keys) => Pressed(m, KeyPress(t, ByAssistant, keys))
    case TimeToCheck(holding) => Check(m, holding)
    case AnswerComes(t, answer, threshold) => Decided(m, t, answer, threshold)
    case PressDone(ok) => PressReply(m, ok)
    case Stopped => m.(stopped := true)
  }

  // ---- what the transcript holds ----

  function Of(entries: seq<Entry>, who: Who): seq<Entry>
  {
    if entries == [] then []
    else
      var before, e := entries[..|entries| - 1], entries[|entries| - 1];
      if e.who == who then Of(before, who) + [e] else Of(before, who)
  }

  function Texts(entries: seq<Entry>): (r: seq<string>)
    ensures |r| == |entries|
  {
    if entries == [] then [] else Texts(entries[..|entries| - 1]) + [entries[|entries| - 1].text]
  }

  function NonBlank(s: string): string
  {
    if s == "" then "" else NonBlank(s[..|s| - 1]) + if IsSpace(s[|s| - 1]) then "" else [s[|s| - 1]]
  }

  function LineChars(entries: seq<Entry>): string
  {
    if entries == [] then ""
    else
      var before, e := entries[..|entries| - 1], entries[|entries| - 1];
      if e.who == Line then LineChars(before) + NonBlank(e.text) else LineChars(before)
  }

  ghost predicate Shows(e: Entry, p: KeyPress) { e.t == p.t && e.text == PressText(p) }

  /** The keypad entries are the presses, one for one and in order. */
  ghost predicate KeypadAgrees(keypad: seq<Entry>, presses: seq<KeyPress>)
  {
    |keypad| == |presses| && forall i :: 0 <= i < |presses| ==> Shows(keypad[i], presses[i])
  }

  ghost predicate Numbered(entries: seq<Entry>, next: nat)
  {
    entries != [] ==> entries[|entries| - 1].serial < next && Numbered(entries[..|entries| - 1], entries[|entries| - 1].serial)
  }

  /** Nothing is done after a hand-off or hang-up. */
  ghost predicate LastIsLast(acts: seq<Action>, stopped: bool)
  {
    && (forall i :: 0 <= i < |acts| - 1 ==> acts[i] == Press)
    && (acts != [] && acts[|acts| - 1] != Press ==> stopped)
  }

  ghost predicate Agrees(m: Nav)
  {
    && KeypadAgrees(Of(m.entries, Keypad), m.presses)
    && Texts(Of(m.entries, Assistant)) == m.said
    && LineChars(m.entries) + NonBlank(m.partial) == NonBlank(m.received)
    && Numbered(m.entries, m.nextSerial)
    && LastIsLast(m.acts, m.stopped)
    && (m.flight.Pressing? ==>
          m.flight.at < |m.presses| && Of(m.entries, Keypad)[m.flight.at].serial == m.flight.serial)
  }

  // ---- text ----

  lemma {:induction false} NonBlankConcat(a: string, b: string)
    ensures NonBlank(a + b) == NonBlank(a) + NonBlank(b)
  {
    if b == "" {
      assert a + b == a;
    } else {
      assert (a + b)[..|a + b| - 1] == a + b[..|b| - 1];
      NonBlankConcat(a, b[..|b| - 1]);
    }
  }

  lemma {:induction false} NonBlankTrimStart(s: string)
    ensures NonBlank(TrimStart(s)) == NonBlank(s)
  {
    if s != "" && IsSpace(s[0]) {
      assert s == [s[0]] + s[1..] && [s[0]][..0] == "";
      NonBlankConcat([s[0]], s[1..]);
      assert NonBlank([s[0]]) == "";
      NonBlankTrimStart(s[1..]);
    }
  }

  lemma {:induction false} NonBlankTrimEnd(s: string)
    ensures NonBlank(TrimEnd(s)) == NonBlank(s)
  {
    if s != "" && IsSpace(s[|s| - 1]) { NonBlankTrimEnd(s[..|s| - 1]); }
  }

  lemma NonBlankTrim(s: string)
    ensures NonBlank(Trim(s)) == NonBlank(s)
  {
    NonBlankTrimStart(s);
    NonBlankTrimEnd(TrimStart(s));
  }

  // ---- the pieces keep it ----

  lemma AddedParts(entries: seq<Entry>, e: Entry)
    ensures forall who :: Of(entries + [e], who) == if e.who == who then Of(entries, who) + [e] else Of(entries, who)
    ensures LineChars(entries + [e]) == if e.who == Line then LineChars(entries) + NonBlank(e.text) else LineChars(entries)
    ensures Numbered(entries, e.serial) ==> Numbered(entries + [e], e.serial + 1)
  {
    assert (entries + [e])[..|entries|] == entries;
  }

  lemma TextsNext(entries: seq<Entry>, e: Entry)
    ensures Texts(entries + [e]) == Texts(entries) + [e.text]
  {
    assert (entries + [e])[..|entries|] == entries;
  }

  lemma FlushKeeps(m: Nav)
    requires Agrees(m)
    ensures Agrees(FlushPartial(m)) && FlushPartial(m).partial == ""
  {
    AddedParts(m.entries, Entry(m.nextSerial, m.partialAt, Line, Trim(m.partial)));
    NonBlankTrim(m.partial);
    Associate(LineChars(m.entries), NonBlank(m.partial), "");
  }

  lemma Associate(a: string, b: string, c: string)
    ensures a + b + c == a + (b + c)
    ensures a + "" == a
  {
  }

  lemma DeltaKeeps(m: Nav, t: int, delta: string)
    requires Agrees(m)
    ensures Agrees(Heard(m, t, delta))
  {
    NonBlankConcat(m.partial, delta);
    NonBlankConcat(m.received, delta);
    Associate(LineChars(m.entries), NonBlank(m.partial), NonBlank(delta));
  }

  lemma SentencesKeep(m: Nav, t: int, n: nat)
    requires Agrees(m) && 0 < n <= |m.partial|
    ensures Agrees(SentencesAdded(m, t, n))
  {
    AddedParts(m.entries, Entry(m.nextSerial, m.partialAt, Line, Trim(m.partial[..n])));
    SentenceKept(m.partial, n);
    Associate(LineChars(m.entries), NonBlank(Trim(m.partial[..n])), NonBlank(TrimStart(m.partial[n..])));
  }

  lemma LineTextKeeps(m: Nav, t: int, delta: string)
    requires Agrees(m)
    ensures Agrees(LineText(m, t, delta))
  {
    DeltaKeeps(m, t, delta);
    var h := Heard(m, t, delta);
    if Sentences(h.partial) > 0 { SentencesKeep(h, t, Sentences(h.partial)); }
  }

  lemma SentenceKept(whole: string, n: nat)
    requires n <= |whole|
    ensures NonBlank(Trim(whole[..n])) + NonBlank(TrimStart(whole[n..])) == NonBlank(whole)
  {
    assert whole == whole[..n] + whole[n..];
    NonBlankConcat(whole[..n], whole[n..]);
    NonBlankTrim(whole[..n]);
    NonBlankTrimStart(whole[n..]);
  }

  lemma SaidKeeps(m: Nav, t: int, text: string)
    requires Agrees(m)
    ensures Agrees(AssistantSaid(m, t, text))
  {
    FlushKeeps(m);
    var f := FlushPartial(m);
    var e := Entry(f.nextSerial, t, Assistant, Trim(text));
    AddedParts(f.entries, e);
    TextsNext(Of(f.entries, Assistant), e);
  }

  lemma PressedKeeps(m: Nav, press: KeyPress)
    requires Agrees(m) && !m.stopped
    ensures var m' := Pressed(m, press);
            && Agrees(m') && m'.nextSerial > 0
            && Of(m'.entries, Keypad)[|m.presses|].serial == m'.nextSerial - 1
  {
    FlushKeeps(m);
    PressAdded(FlushPartial(m), press, if press.presser == ByNavigator then m.totalChars else m.pressedAtChars);
  }

  lemma PressAdded(f: Nav, press: KeyPress, pressedAt: int)
    requires Agrees(f)
    ensures var m' := Added(f, press.t, Keypad, PressText(press)).(presses := f.presses + [press], pressedAtChars := pressedAt);
            && Agrees(m') && m'.nextSerial > 0
            && Of(m'.entries, Keypad)[|f.presses|].serial == m'.nextSerial - 1
  {
    var e := Entry(f.nextSerial, press.t, Keypad, PressText(press));
    AddedParts(f.entries, e);
    KeypadNext(Of(f.entries, Keypad), f.presses, e, press);
  }

  lemma KeypadNext(keypad: seq<Entry>, presses: seq<KeyPress>, e: Entry, press: KeyPress)
    requires KeypadAgrees(keypad, presses) && Shows(e, press)
    ensures KeypadAgrees(keypad + [e], presses + [press])
  {
  }

  // ---- taking a press back ----

  lemma WithoutNext(entries: seq<Entry>, e: Entry, serial: nat)
    ensures Without(entries + [e], serial)
         == if e.serial == serial then Without(entries, serial) else Without(entries, serial) + [e]
  {
    assert (entries + [e])[..|entries|] == entries;
  }

  lemma NumberedNext(entries: seq<Entry>, e: Entry, next: nat)
    ensures Numbered(entries + [e], next) <==> Numbered(entries, e.serial) && e.serial < next
  {
    assert (entries + [e])[..|entries|] == entries;
  }

  lemma {:induction false} WithoutKeypad(entries: seq<Entry>, serial: nat, who: Who)
    ensures Of(Without(entries, serial), who) == Without(Of(entries, who), serial)
  {
    if entries != [] {
      var n := |entries| - 1;
      var before, e := entries[..n], entries[n];
      WithoutKeypad(before, serial, who);
      AddedParts(Without(before, serial), e);
      WithoutNext(Of(before, who), e, serial);
    }
  }

  lemma {:induction false} NumberedOf(entries: seq<Entry>, next: nat, who: Who)
    requires Numbered(entries, next)
    ensures Numbered(Of(entries, who), next)
  {
    if entries != [] {
      var n := |entries| - 1;
      var before, e := entries[..n], entries[n];
      NumberedOf(before, e.serial, who);
      NumberedNext(Of(before, who), e, next);
      NumberedUpTo(Of(before, who), e.serial, next);
    }
  }

  lemma NumberedUpTo(entries: seq<Entry>, next: nat, more: nat)
    requires Numbered(entries, next) && next <= more
    ensures Numbered(entries, more)
  {
  }

  lemma {:induction false} NumberedBelow(entries: seq<Entry>, next: nat, i: nat)
    requires Numbered(entries, next) && i < |entries|
    ensures entries[i].serial < next
  {
    var n := |entries| - 1;
    if i < n { NumberedBelow(entries[..n], entries[n].serial, i); }
  }

  lemma {:induction false} NoneWithout(entries: seq<Entry>, next: nat, serial: nat)
    requires Numbered(entries, next) && serial >= next
    ensures Without(entries, serial) == entries
  {
    if entries != [] { NoneWithout(entries[..|entries| - 1], entries[|entries| - 1].serial, serial); }
  }

  /** Only one entry has a serial. */
  lemma {:induction false} WithoutOne(entries: seq<Entry>, next: nat, at: nat)
    requires Numbered(entries, next) && at < |entries|
    ensures Without(entries, entries[at].serial) == entries[..at] + entries[at + 1..]
  {
    var n := |entries| - 1;
    var before, e := entries[..n], entries[n];
    if at == n {
      NoneWithout(before, e.serial, e.serial);
      assert entries[..at] + entries[at + 1..] == before;
    } else {
      NumberedBelow(before, e.serial, at);
      WithoutOne(before, e.serial, at);
      assert before[at] == entries[at];
      assert before[..at] + before[at + 1..] + [e] == entries[..at] + entries[at + 1..];
    }
  }

  lemma {:induction false} NumberedWithout(entries: seq<Entry>, next: nat, serial: nat)
    requires Numbered(entries, next)
    ensures Numbered(Without(entries, serial), next)
  {
    if entries != [] {
      var n := |entries| - 1;
      var before, e := entries[..n], entries[n];
      NumberedWithout(before, e.serial, serial);
      NumberedNext(Without(before, serial), e, next);
      NumberedUpTo(Without(before, serial), e.serial, next);
    }
  }

  /** Taking out a keypad entry leaves the words. */
  lemma {:induction false} WordsWithout(entries: seq<Entry>, next: nat, at: nat)
    requires Numbered(entries, next) && at < |Of(entries, Keypad)|
    ensures var serial := Of(entries, Keypad)[at].serial;
            && LineChars(Without(entries, serial)) == LineChars(entries)
            && Of(Without(entries, serial), Assistant) == Of(entries, Assistant)
  {
    var n := |entries| - 1;
    var before, e, serial := entries[..n], entries[n], Of(entries, Keypad)[at].serial;
    if at < |Of(before, Keypad)| {
      NumberedOf(before, e.serial, Keypad);
      NumberedBelow(Of(before, Keypad), e.serial, at);
      assert serial == Of(before, Keypad)[at].serial < e.serial;
      WordsWithout(before, e.serial, at);
      AddedParts(Without(before, serial), e);
    } else {
      NoneWithout(before, e.serial, serial);
    }
  }

  lemma KeypadWithout(keypad: seq<Entry>, presses: seq<KeyPress>, at: nat)
    requires KeypadAgrees(keypad, presses) && at < |presses|
    ensures KeypadAgrees(keypad[..at] + keypad[at + 1..], presses[..at] + presses[at + 1..])
  {
    var ks, ps := keypad[..at] + keypad[at + 1..], presses[..at] + presses[at + 1..];
    forall i | 0 <= i < |ps| ensures Shows(ks[i], ps[i]) {
      var j := if i < at then i else i + 1;
      assert ks[i] == keypad[j] && ps[i] == presses[j];
    }
  }

  lemma RollbackKeeps(m: Nav)
    requires Agrees(m) && m.flight.Pressing?
    ensures Agrees(PressReply(m, false))
  {
    var at, serial := m.flight.at, m.flight.serial;
    WithoutKeypad(m.entries, serial, Keypad);
    NumberedOf(m.entries, m.nextSerial, Keypad);
    WithoutOne(Of(m.entries, Keypad), m.nextSerial, at);
    KeypadWithout(Of(m.entries, Keypad), m.presses, at);
    WordsWithout(m.entries, m.nextSerial, at);
    NumberedWithout(m.entries, m.nextSerial, serial);
  }

  // ---- every run ----

  lemma DecidedKeeps(m: Nav, t: int, a: Answer, threshold: real)
    requires Agrees(m) && m.flight.Deciding?
    ensures Agrees(Decided(m, t, a, threshold))
  {
    hide Agrees, Chosen, Pressed, KEYS;
    if m.stopped || Chosen(a, threshold) == Wait {
      LandedKeeps(m, Decided(m, t, a, threshold));
    } else if Chosen(a, threshold) == Press {
      PressDecided(m, t, a.key);
    } else {
      ActedKeeps(m, Chosen(a, threshold));
    }
  }

  lemma LandedKeeps(m: Nav, m': Nav)
    requires Agrees(m) && m' == m.(flight := Landed, seenChars := m'.seenChars)
    ensures Agrees(m')
  {
    hide KeypadAgrees, Numbered, LineChars, Of, Texts, NonBlank;
  }

  lemma ActedKeeps(m: Nav, act: Action)
    requires Agrees(m) && !m.stopped
    ensures Agrees(m.(flight := Landed, stopped := true, acts := m.acts + [act]))
  {
    hide KeypadAgrees, Numbered, LineChars, Of, Texts, NonBlank;
  }

  lemma PressDecided(m: Nav, t: int, key: string)
    requires Agrees(m) && !m.stopped
    ensures var m' := Pressed(m, KeyPress(t, ByNavigator, key));
            m'.nextSerial > 0 && Agrees(m'.(flight := Pressing(|m.presses|, m'.nextSerial - 1), acts := m.acts + [Press]))
  {
    PressedKeeps(m, KeyPress(t, ByNavigator, key));
    hide KeypadAgrees, Numbered, LineChars, Of, Texts, NonBlank, Added, FlushPartial, PressText;
  }

  lemma StepKeeps(m: Nav, step: Step)
    requires Agrees(m) && Possible(m, step)
    ensures Agrees(Next(m, step))
  {
    match step
    case LineTalks(t, delta) => LineTextKeeps(m, t, delta);
    case AssistantTalks(t, text) => SaidKeeps(m, t, text);
    case AssistantPresses(t, keys) => if !m.stopped { PressedKeeps(m, KeyPress(t, ByAssistant, keys)); }
    case TimeToCheck(holding) =>
    case AnswerComes(t, answer, threshold) => DecidedKeeps(m, t, answer, threshold);
    case PressDone(ok) => if !ok { RollbackKeeps(m); }
    case Stopped =>
  }

  ghost predicate IsRun(m: Nav, steps: seq<Step>, end: Nav)
    decreases |steps|
  {
    if steps == [] then end == m else Possible(m, steps[0]) && IsRun(Next(m, steps[0]), steps[1..], end)
  }

  /** In every run: the keypad entries are the presses that stood, one for one and in order;
      the line's entries and the unfinished sentence hold exactly the characters the line said
      that aren't blank, in order, and the assistant's entries what it said; and nothing is
      pressed, handed off or hung up after a hand-off or hang-up. */
  lemma {:induction false} RunAgrees(m: Nav, steps: seq<Step>, end: Nav)
    requires Agrees(m) && IsRun(m, steps, end)
    ensures Agrees(end)
    decreases |steps|
  {
    if steps != [] {
      StepKeeps(m, steps[0]);
      RunAgrees(Next(m, steps[0]), steps[1..], end);
    }
  }

  lemma InitAgrees()
    ensures Agrees(INIT)
  {
  }

  // ---- a failed press leaves nothing ----

  /** What may happen while a press is awaited. */
  predicate Meanwhile(step: Step) { !step.TimeToCheck? && !step.AnswerComes? && !step.PressDone? }

  /** `p` is waiting for a press that `q` never made. */
  ghost predicate OnePressApart(p: Nav, q: Nav)
  {
    && p.flight.Pressing? && p.flight.at < |p.presses| && q.flight.Landed?
    && q.presses == p.presses[..p.flight.at] + p.presses[p.flight.at + 1..]
    && p.received == q.received && p.said == q.said && p.stopped == q.stopped && p.totalChars == q.totalChars
  }

  lemma OnePressApartStep(p: Nav, q: Nav, step: Step)
    requires OnePressApart(p, q) && Meanwhile(step)
    ensures OnePressApart(Next(p, step), Next(q, step))
  {
    if step.AssistantPresses? {
      PressedApart(p, q, KeyPress(step.t, ByAssistant, step.keys));
    } else if step.LineTalks? {
      hide OnePressApart;
      TalkedApart(p, q, step.t, step.delta);
    }
  }

  lemma PressedApart(p: Nav, q: Nav, press: KeyPress)
    requires OnePressApart(p, q)
    ensures OnePressApart(Pressed(p, press), Pressed(q, press))
  {
    if !p.stopped {
      var at := p.flight.at;
      assert (p.presses + [press])[..at] == p.presses[..at];
      assert (p.presses + [press])[at + 1..] == p.presses[at + 1..] + [press];
    }
  }

  lemma TalkedApart(p: Nav, q: Nav, t: int, delta: string)
    requires OnePressApart(p, q)
    ensures OnePressApart(LineText(p, t, delta), LineText(q, t, delta))
  {
    hide Sentences;
  }

  lemma {:induction false} OnePressApartRun(p: Nav, q: Nav, steps: seq<Step>, p': Nav, q': Nav)
    requires OnePressApart(p, q) && IsRun(p, steps, p') && IsRun(q, steps, q')
    requires forall i :: 0 <= i < |steps| ==> Meanwhile(steps[i])
    ensures OnePressApart(p', q')
    decreases |steps|
  {
    if steps != [] {
      OnePressApartStep(p, q, steps[0]);
      OnePressApartRun(Next(p, steps[0]), Next(q, steps[0]), steps[1..], p', q');
    }
  }

  lemma PressStarts(m: Nav, t: int, press: Answer, wait: Answer, threshold: real)
    requires m.flight.Deciding? && !m.stopped
    requires Chosen(press, threshold) == Press && wait.Answer? && Chosen(wait, threshold) == Wait
    ensures OnePressApart(Decided(m, t, press, threshold), Decided(m, t, wait, threshold))
  {
    var p := KeyPress(t, ByNavigator, press.key);
    assert (m.presses + [p])[..|m.presses|] + (m.presses + [p])[|m.presses| + 1..] == m.presses;
  }

  lemma PressFails(p: Nav, q: Nav)
    requires Agrees(p) && Agrees(q) && OnePressApart(p, q)
    ensures var r := PressReply(p, false);
            && r.presses == q.presses
            && KeypadAgrees(Of(r.entries, Keypad), q.presses) && KeypadAgrees(Of(q.entries, Keypad), q.presses)
            && LineChars(r.entries) + NonBlank(r.partial) == LineChars(q.entries) + NonBlank(q.partial)
            && Texts(Of(r.entries, Assistant)) == Texts(Of(q.entries, Assistant))
            && (!r.stopped ==> Check(r, false).flight.Deciding?)
  {
    RollbackKeeps(p);
  }

  /** The navigator presses, anything happens while Twilio is asked to, and the press fails:
      then presses, keypad entries, the line's words and the assistant's are what they would be
      had it decided to wait; and if it runs on, the next check looks again even if nothing
      new was said. */
  lemma FailedPressIsForgotten(m: Nav, t: int, press: Answer, wait: Answer, threshold: real, steps: seq<Step>, p: Nav, q: Nav)
    requires Agrees(m) && m.flight.Deciding? && !m.stopped
    requires Chosen(press, threshold) == Press && wait.Answer? && Chosen(wait, threshold) == Wait
    requires IsRun(Decided(m, t, press, threshold), steps, p) && IsRun(Decided(m, t, wait, threshold), steps, q)
    requires forall i :: 0 <= i < |steps| ==> Meanwhile(steps[i])
    ensures p.flight.Pressing? && p.flight.at < |p.presses|
    ensures var r := PressReply(p, false);
            && r.presses == q.presses
            && KeypadAgrees(Of(r.entries, Keypad), q.presses) && KeypadAgrees(Of(q.entries, Keypad), q.presses)
            && LineChars(r.entries) + NonBlank(r.partial) == LineChars(q.entries) + NonBlank(q.partial)
            && Texts(Of(r.entries, Assistant)) == Texts(Of(q.entries, Assistant))
            && (!r.stopped ==> Check(r, false).flight.Deciding?)
  {
    var p0, q0 := Decided(m, t, press, threshold), Decided(m, t, wait, threshold);
    DecidedKeeps(m, t, press, threshold);
    DecidedKeeps(m, t, wait, threshold);
    PressStarts(m, t, press, wait, threshold);
    OnePressApartRun(p0, q0, steps, p, q);
    RunAgrees(p0, steps, p);
    RunAgrees(q0, steps, q);
    PressFails(p, q);
  }

  // ---- the transcript sent to the model ----

  const MAX_TRANSCRIPT_CHARS := 4000

  function Chars(entries: seq<Entry>): nat
  {
    if entries == [] then 0 else |entries[0].text| + Chars(entries[1..])
  }

  /** The entries, and the unfinished sentence as one more. */
  function AllEntries(m: Nav): seq<Entry>
  {
    if Trim(m.partial) != "" then m.entries + [Entry(m.nextSerial, m.partialAt, Line, Trim(m.partial))] else m.entries
  }

  /** The shortest end of the entries that reaches the limit, or all of them. */
  ghost predicate ShortestTail(all: seq<Entry>, k: nat, tail: seq<Entry>)
  {
    && k <= |all| && tail == all[k..]
    && (k < |all| ==> Chars(all[k + 1..]) < 4000)
    && (k == 0 || Chars(tail) >= 4000)
  }

  lemma CharsFirst(entries: seq<Entry>, i: nat)
    requires i < |entries|
    ensures entries[i..] == [entries[i]] + entries[i + 1..]
    ensures Chars(entries[i..]) == |entries[i].text| + Chars(entries[i + 1..])
  {
    assert entries[i..][1..] == entries[i + 1..];
  }

  // ---- the navigator itself ----

  lemma WithoutUpTo(entries: seq<Entry>, i: nat, serial: nat)
    requires i < |entries|
    ensures Without(entries[..i + 1], serial)
         == if entries[i].serial == serial then Without(entries[..i], serial) else Without(entries[..i], serial) + [entries[i]]
  {
    assert entries[..i + 1] == entries[..i] + [entries[i]];
    WithoutNext(entries[..i], entries[i], serial);
  }

  lemma {:induction false} SentencesUpTo(s: string, n: nat)
    requires n <= |s|
    requires forall i :: n < i < |s| ==> !(EndsSentence(s[i - 1]) && IsSpace(s[i]))
    requires n == 0 || (n < |s| && EndsSentence(s[n - 1]) && IsSpace(s[n]))
    ensures Sentences(s) == n
  {
    if |s| >= 2 && n != |s| - 1 { SentencesUpTo(s[..|s| - 1], n); }
  }

  class MenuNavigator {
    var entries: seq<Entry>
    var partial: string
    var partialAt: int
    var presses: seq<KeyPress>
    var totalChars: nat
    var seenChars: int
    var pressedAtChars: int
    var flight: Flight
    var stopped: bool
    var nextSerial: nat
    ghost var received: string
    ghost var said: seq<string>
    ghost var acts: seq<Action>

    ghost function State(): Nav
      reads this
    {
      Nav(entries, partial, partialAt, presses, totalChars, seenChars, pressedAtChars, flight, stopped, nextSerial,
          received, said, acts)
    }

    constructor ()
      ensures State() == INIT
    {
      entries, partial, partialAt, presses, totalChars, seenChars, pressedAtChars := [], "", 0, [], 0, 0, -1;
      flight, stopped, nextSerial, received, said, acts := Landed, false, 0, "", [], [];
    }

    method Add(t: int, who: Who, text: string)
      modifies this
      ensures State() == Added(old(State()), t, who, text)
    {
      entries, nextSerial := entries + [Entry(nextSerial, t, who, text)], nextSerial + 1;
    }

    method Flush()
      modifies this
      ensures State() == FlushPartial(old(State()))
    {
      if Trim(partial) != "" { Add(partialAt, Line, Trim(partial)); }
      partial := "";
    }

    /** The pattern of sentences followed by white space: where its greedy match ends. */
    method FindBreak() returns (n: nat)
      ensures n == Sentences(partial)
    {
      n := |partial|;
      while n > 0 && !(n < |partial| && EndsSentence(partial[n - 1]) && IsSpace(partial[n]))
        invariant n <= |partial|
        invariant forall i :: n < i < |partial| ==> !(EndsSentence(partial[i - 1]) && IsSpace(partial[i]))
      {
        n := n - 1;
      }
      SentencesUpTo(partial, n);
    }

    method OnLineText(t: int, delta: string)
      modifies this
      ensures State() == LineText(old(State()), t, delta)
    {
      if stopped || delta == "" { return; }
      Hear(t, delta);
      var n := FindBreak();
      if n > 0 { AddSentences(t, n); }
    }

    method Hear(t: int, delta: string)
      modifies this
      ensures State() == Heard(old(State()), t, delta)
    {
      if partial == "" { partialAt := t; }
      partial := partial + delta;
      totalChars := totalChars + |delta|;
      received := received + delta;
    }

    method AddSentences(t: int, n: nat)
      requires n <= |partial|
      modifies this
      ensures State() == SentencesAdded(old(State()), t, n)
    {
      Add(partialAt, Line, Trim(partial[..n]));
      partial, partialAt := TrimStart(partial[n..]), t;
    }

    method OnAssistantSaid(t: int, text: string)
      modifies this
      ensures State() == AssistantSaid(old(State()), t, text)
    {
      if stopped || Trim(text) == "" { return; }
      Flush();
      Add(t, Assistant, Trim(text));
      totalChars := totalChars + |text|;
      said := said + [Trim(text)];
    }

    method OnPressed(press: KeyPress)
      modifies this
      ensures State() == Pressed(old(State()), press)
    {
      if stopped { return; }
      presses := presses + [press];
      Flush();
      Add(press.t, Keypad, PressText(press));
      if press.presser == ByNavigator { pressedAtChars := totalChars; }
    }

    method StartCheck(holding: bool)
      modifies this
      ensures State() == Check(old(State()), holding)
    {
      if stopped || flight != Landed { return; }
      var heard := totalChars != seenChars && totalChars != pressedAtChars;
      if !heard && !holding { return; }
      seenChars, flight := totalChars, Deciding;
    }

    method OnAnswer(t: int, a: Answer, threshold: real)
      modifies this
      ensures State() == Decided(old(State()), t, a, threshold)
    {
      if a.Failed? { seenChars := -1; }
      flight := Landed;
      if stopped { return; }
      match Chosen(a, threshold) {
        case Wait =>
        case Press =>
          var at := |presses|;
          OnPressed(KeyPress(t, ByNavigator, a.key));
          flight, acts := Pressing(at, nextSerial - 1), acts + [Press];
        case act =>
          stopped, acts := true, acts + [act];
      }
    }

    method OnPressReply(ok: bool)
      requires flight.Pressing? && flight.at < |presses|
      modifies this
      ensures State() == PressReply(old(State()), ok)
    {
      if !ok {
        presses := presses[..flight.at] + presses[flight.at + 1..];
        var kept := EntriesWithout(flight.serial);
        entries, pressedAtChars, seenChars := kept, -1, -1;
      }
      flight := Landed;
    }

    method EntriesWithout(serial: nat) returns (kept: seq<Entry>)
      ensures kept == Without(entries, serial)
    {
      kept := [];
      for i := 0 to |entries|
        invariant kept == Without(entries[..i], serial)
      {
        WithoutUpTo(entries, i, serial);
        if entries[i].serial != serial { kept := kept + [entries[i]]; }
      }
      assert entries[..|entries|] == entries;
    }

    /** The transcript a check sends. */
    method Transcript() returns (sent: seq<Entry>)
      ensures exists k :: ShortestTail(AllEntries(State()), k, sent)
    {
      var all := entries;
      if Trim(partial) != "" { all := all + [Entry(nextSerial, partialAt, Line, Trim(partial))]; }
      assert all == AllEntries(State());
      sent := [];
      var used, i := 0, |all|;
      while i > 0 && used < MAX_TRANSCRIPT_CHARS
        invariant 0 <= i <= |all| && sent == all[i..] && used == Chars(sent)
        invariant i < |all| ==> Chars(all[i + 1..]) < MAX_TRANSCRIPT_CHARS
        invariant all == AllEntries(State())
      {
        i := i - 1;
        CharsFirst(all, i);
        sent, used := [all[i]] + sent, used + |all[i].text|;
      }
      assert ShortestTail(AllEntries(State()), i, sent);
    }
  }
}
