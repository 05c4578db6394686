/** How a call mission ends (call.ts: finish, lastWords, onLineEnded), when its lines are never
    merged. Timers, tools, the navigator, the voice model and the last party's hang-up may all
    end it, in any order and again and again; it hangs up what is up, waits for the last words,
    and reports.

    `finish` waits between its hang-ups, for the last words and for the session to close;
    `Phase` is what it waits for, and a step is everything up to the next wait. */
module Ending {
  import opened Wrappers
  import Twilio
  import opened PartyLines

  type CallId = Twilio.CallId

  /** How a line ended. */
  datatype Note = Note(line: nat)

  datatype Entry = Words(text: string) | EndNote(note: Note) | Remark(note: Note)

  datatype Phase =
    | Up
    | HangingUp(rest: seq<CallId>, lastWords: bool)   // a hang-up was sent; `rest` come next
    | LastWords
    | Closing
    | Over

  /** `dialing`: a call is being placed, or the first one answered, and its line will be added.
      `hangups` are the calls hung up so far and `reports` the logs reported. History: `notes`
      are the end notes given to finish so far, `reported` those given before the report,
      `wereUp` the calls up when the ending began, `linesThen` how many lines there were,
      `dialingThen` whether a call was being placed, `byTools` the calls that tools hung up, and
      `gone` the lines whose call.ended has come; a tool may say that a line is over before. */
  datatype Mission = Mission(
    connected: bool,
    dialing: bool,
    lines: seq<PartyLine>,
    phase: Phase,
    handedOff: bool,
    endNotes: Option<seq<Note>>,
    log: seq<Entry>,
    hangups: seq<CallId>,
    reports: seq<seq<Entry>>,
    notes: seq<Note>,
    reported: seq<Note>,
    wereUp: seq<CallId>,
    linesThen: nat,
    dialingThen: bool,
    byTools: set<CallId>,
    gone: set<nat>)

  const INIT := Mission(false, false, [], Up, false, None, [], [], [], [], [], [], 0, false, {}, {})

  /** The calls that are up, in order. */
  function UpCalls(lines: seq<PartyLine>): (ids: seq<CallId>)
  {
    if lines == [] then []
    else
      var n := |lines| - 1;
      UpCalls(lines[..n]) + if lines[n].state.Ended? then [] else [lines[n].callId]
  }

  function Reversed<T>(s: seq<T>): (r: seq<T>)
    ensures |r| == |s|
  {
    if s == [] then [] else [s[|s| - 1]] + Reversed(s[..|s| - 1])
  }

  function Logged(notes: seq<Note>): (entries: seq<Entry>)
  {
    if notes == [] then [] else Logged(notes[..|notes| - 1]) + [EndNote(notes[|notes| - 1])]
  }

  // ---- finish, wait by wait ----

  function Flush(m: Mission): Mission
    requires m.endNotes.Some?
  {
    m.(log := m.log + Logged(m.endNotes.value), endNotes := None, phase := Closing)
  }

  /** Sends the next hang-up, or goes on to the last words. */
  function Advance(m: Mission, rest: seq<CallId>, lastWords: bool): Mission
    requires m.endNotes.Some?
  {
    if rest != [] then m.(hangups := m.hangups + [rest[0]], phase := HangingUp(rest[1..], lastWords))
    else if lastWords then m.(phase := LastWords)
    else Flush(m)
  }

  function Noted(m: Mission, endNote: Option<Note>): Mission
  {
    if endNote.None? then m
    else
      var m' := m.(notes := m.notes + [endNote.value]);
      if m.endNotes.Some? then m'.(endNotes := Some(m.endNotes.value + [endNote.value]))
      else m'.(log := m.log + [EndNote(endNote.value)])
  }

  /** The ending begins. */
  function Begun(m: Mission, handsOff: bool, endNote: Option<Note>): (r: Mission)
    ensures r.endNotes.Some?
  {
    Noted(m.(endNotes := Some([]), handedOff := handsOff, wereUp := UpCalls(m.lines), linesThen := |m.lines|, dialingThen := m.dialing), endNote)
  }

  function Finish(m: Mission, handsOff: bool, lastWords: bool, endNote: Option<Note>): Mission
  {
    if m.phase != Up then Noted(m, endNote)
    else Advance(Begun(m, handsOff, endNote), if handsOff then [] else Reversed(UpCalls(m.lines)), lastWords)
  }

  /** Line n is over. */
  function Ends(m: Mission, n: nat): Mission
    requires 1 <= n <= |m.lines|
  {
    m.(lines := m.lines[n - 1 := m.lines[n - 1].(state := Twilio.Ended)])
  }

  function Gone(m: Mission, n: nat): Mission
    requires 1 <= n <= |m.lines|
  {
    Ends(m, n).(gone := m.gone + {n})
  }

  /** A call.ended event. */
  function LineEnded(m: Mission, n: nat): Mission
    requires 1 <= n <= |m.lines|
  {
    var m' := Gone(m, n);
    if m.connected && UpCalls(m'.lines) == [] then Finish(m', false, true, Some(Note(n)))
    else m'.(log := m.log + [Remark(Note(n))])
  }

  datatype Step =
    | DialStarts                     // or the first call is being answered
    | DialFails
    | LineAdded(id: CallId)
    | Answered
    | FinishCalled(handsOff: bool, lastWords: bool)
    | CallEnded(n: nat)
    | StateHeard(n: nat, state: Twilio.CallState)
    | ToolHangsUp(n: nat)            // drop_line, or a call that wasn't answered
    | LineOver(n: nat)               // the tool says so
    | Heard(assistant: bool, text: string)
    | HangUpReply                    // accepted or refused
    | LastWordsOver                  // heard, or waited long enough
    | SessionClosed

  /** One call is placed at a time, and none once the ending has begun. A call's end is the last
      thing heard of it, and a tool says a line is over only when it has hung it up or its call
      is gone. */
  predicate Possible(m: Mission, step: Step)
  {
    match step
    case DialStarts => m.phase.Up? && !m.dialing
    case DialFails => m.dialing
    case LineAdded(_) => m.dialing
    case CallEnded(n) => 1 <= n <= |m.lines|
    case StateHeard(n, state) => 1 <= n <= |m.lines| && n !in m.gone && !state.Ended?
    case ToolHangsUp(n) => 1 <= n <= |m.lines|
    case LineOver(n) => 1 <= n <= |m.lines| && (n in m.gone || m.lines[n - 1].callId in m.byTools)
    case HangUpReply => m.phase.HangingUp?
    case LastWordsOver => m.phase.LastWords?
    case SessionClosed => m.phase.Closing?
    case _ => true
  }

  /** The report is out and the mission no longer hears the link. */
  predicate Deaf(m: Mission) { m.phase.Over? && !m.handedOff }

  function Next(m: Mission, step: Step): Mission
    requires Possible(m, step) && (m.phase.HangingUp? || m.phase.LastWords? ==> m.endNotes.Some?)
  {
    match step
    case DialStarts => m.(dialing := true)
    case DialFails => m.(dialing := false)
    case LineAdded(id) => m.(lines := m.lines + [PartyLine(id, Twilio.CallState.Dialing)], dialing := false)
    case Answered => m.(connected := true)
    case FinishCalled(handsOff, lastWords) => Finish(m, handsOff, lastWords, None)
    case CallEnded(n) => if Deaf(m) then m else LineEnded(m, n)
    case StateHeard(n, state) => if Deaf(m) then m else m.(lines := m.lines[n - 1 := m.lines[n - 1].(state := state)])
    case ToolHangsUp(n) => m.(byTools := m.byTools + {m.lines[n - 1].callId})
    case LineOver(n) => Ends(m, n)
    case Heard(assistant, text) =>
      if assistant && m.phase.LastWords? then m else m.(log := m.log + [Words(text)])
    case HangUpReply => Advance(m, m.phase.rest, m.phase.lastWords)
    case LastWordsOver => Flush(m)
    case SessionClosed => m.(phase := Over, reports := m.reports + [m.log], reported := m.notes)
  }

  // ---- what every run keeps ----

  function EndNotes(log: seq<Entry>): seq<Note>
  {
    if log == [] then []
    else EndNotes(log[..|log| - 1]) + if log[|log| - 1].EndNote? then [log[|log| - 1].note] else []
  }

  /** What is still to be hung up. */
  function Rest(phase: Phase): seq<CallId> { if phase.HangingUp? then phase.rest else [] }

  function Waiting(endNotes: Option<seq<Note>>): seq<Note> { if endNotes.Some? then endNotes.value else [] }

  /** Every end note is logged or waits to be, in the order they came; none is logged until the
      wait for the last words is over. */
  ghost predicate NotesKept(m: Mission)
  {
    && EndNotes(m.log) + Waiting(m.endNotes) == m.notes
    && (m.endNotes.Some? <==> m.phase.HangingUp? || m.phase.LastWords?)
    && (!m.phase.Closing? && !m.phase.Over? ==> EndNotes(m.log) == [])
  }

  ghost predicate CallsKept(m: Mission)
  {
    && (m.phase.Up? ==> m.hangups == [] && m.reports == [])
    && (!m.phase.Up? ==> m.hangups + Rest(m.phase) == if m.handedOff then [] else Reversed(m.wereUp))
  }

  ghost predicate ReportKept(m: Mission)
  {
    if m.phase.Over? then |m.reports| == 1 && EndNotes(m.reports[0]) == m.reported && m.reported <= m.notes
    else m.reports == []
  }

  ghost predicate Kept(m: Mission) { NotesKept(m) && CallsKept(m) && ReportKept(m) }

  lemma {:induction false} EndNotesConcat(a: seq<Entry>, b: seq<Entry>)
    ensures EndNotes(a + b) == EndNotes(a) + EndNotes(b)
  {
    if b == [] {
      assert a + b == a;
    } else {
      EndNotesConcat(a, b[..|b| - 1]);
      assert (a + b)[..|a + b| - 1] == a + b[..|b| - 1];
    }
  }

  lemma {:induction false} EndNotesLogged(notes: seq<Note>)
    ensures EndNotes(Logged(notes)) == notes
  {
    if notes != [] {
      var n := |notes| - 1;
      EndNotesLogged(notes[..n]);
      assert Logged(notes)[..|Logged(notes)| - 1] == Logged(notes[..n]);
    }
  }

  lemma EndNotesOne(log: seq<Entry>, e: Entry)
    ensures EndNotes(log + [e]) == EndNotes(log) + if e.EndNote? then [e.note] else []
  {
    assert (log + [e])[..|log|] == log;
  }

  lemma FlushKeeps(m: Mission)
    requires m.endNotes.Some? && EndNotes(m.log) + m.endNotes.value == m.notes
    ensures NotesKept(Flush(m))
  {
    EndNotesConcat(m.log, Logged(m.endNotes.value));
    EndNotesLogged(m.endNotes.value);
  }

  /** The part of Kept that doesn't depend on what is waited for. */
  lemma AdvanceKeeps(m: Mission, rest: seq<CallId>, lastWords: bool)
    requires m.endNotes.Some? && EndNotes(m.log) == [] && m.endNotes.value == m.notes && m.reports == []
    requires m.hangups + rest == if m.handedOff then [] else Reversed(m.wereUp)
    ensures Kept(Advance(m, rest, lastWords))
  {
    if rest != [] {
      assert m.hangups + [rest[0]] + rest[1..] == m.hangups + rest;
    } else if !lastWords {
      FlushKeeps(m);
      assert m.hangups + [] == m.hangups + rest;
    }
  }

  lemma NotedKeeps(m: Mission, endNote: Option<Note>)
    requires Kept(m) && !m.phase.Up?
    ensures Kept(Noted(m, endNote))
  {
    if endNote.Some? {
      EndNotesOne(m.log, EndNote(endNote.value));
      if m.endNotes.Some? {
        assert EndNotes(m.log) + (m.endNotes.value + [endNote.value]) == m.notes + [endNote.value];
      } else {
        assert EndNotes(m.log) + [] == EndNotes(m.log);
        assert EndNotes(m.log) + [endNote.value] + [] == m.notes + [endNote.value];
      }
    }
  }

  lemma FinishKeeps(m: Mission, handsOff: bool, lastWords: bool, endNote: Option<Note>)
    requires Kept(m)
    ensures Kept(Finish(m, handsOff, lastWords, endNote))
  {
    if m.phase.Up? {
      var calls := if handsOff then [] else Reversed(UpCalls(m.lines));
      var m' := Begun(m, handsOff, endNote);
      assert m.notes == [] && m'.hangups + calls == calls;
      AdvanceKeeps(m', calls, lastWords);
    } else {
      NotedKeeps(m, endNote);
    }
  }

  lemma RemarkKeeps(m: Mission, m': Mission, e: Entry)
    requires Kept(m) && !e.EndNote? && m' == m.(lines := m'.lines, gone := m'.gone, log := m.log + [e])
    ensures Kept(m')
  {
    EndNotesOne(m.log, e);
    assert EndNotes(m.log) + [] == EndNotes(m.log);
  }

  lemma StepKeeps(m: Mission, step: Step)
    requires Kept(m) && Possible(m, step)
    ensures Kept(Next(m, step))
  {
    match step
    case DialStarts =>
    case DialFails =>
    case LineAdded(id) =>
    case Answered =>
    case FinishCalled(handsOff, lastWords) => FinishKeeps(m, handsOff, lastWords, None);
    case CallEnded(n) =>
      if Next(m, step) != m {
        var m' := Gone(m, n);
        FinishKeeps(m', false, true, Some(Note(n)));
        RemarkKeeps(m, m'.(log := m.log + [Remark(Note(n))]), Remark(Note(n)));
      }
    case StateHeard(_, _) =>
    case ToolHangsUp(n) =>
    case LineOver(n) =>
    case Heard(assistant, text) => RemarkKeeps(m, m.(log := m.log + [Words(text)]), Words(text));
    case HangUpReply =>
      assert EndNotes(m.log) + m.endNotes.value == m.endNotes.value;
      AdvanceKeeps(m, m.phase.rest, m.phase.lastWords);
    case LastWordsOver => FlushKeeps(m);
    case SessionClosed =>
      assert EndNotes(m.log) + [] == EndNotes(m.log);
  }

  ghost predicate IsRun(m: Mission, steps: seq<Step>, end: Mission)
    decreases |steps|
  {
    if steps == [] then end == m
    else Possible(m, steps[0]) && NotesKept(m) && IsRun(Next(m, steps[0]), steps[1..], end)
  }

  lemma {:induction false} RunKeeps(m: Mission, steps: seq<Step>, end: Mission)
    requires Kept(m) && IsRun(m, steps, end)
    ensures Kept(end)
    decreases |steps|
  {
    if steps != [] {
      StepKeeps(m, steps[0]);
      RunKeeps(Next(m, steps[0]), steps[1..], end);
    }
  }

  lemma {:induction false} InReversed<T>(s: seq<T>)
    ensures forall x :: x in s <==> x in Reversed(s)
  {
    if s != [] {
      InReversed(s[..|s| - 1]);
      assert s == s[..|s| - 1] + [s[|s| - 1]];
    }
  }

  /** However many times and in whatever order the ending is asked for: at most one report; by
      then a hang-up was sent to every line that was up when the ending began, newest first
      (none if it was handed off); and each end note received before the report is in it
      exactly once, in the order they came, with none logged before the last words were waited
      for. */
  lemma OneEnding(steps: seq<Step>, m: Mission)
    requires IsRun(INIT, steps, m)
    ensures |m.reports| <= 1 && (|m.reports| == 1 <==> m.phase.Over?)
    ensures m.phase.Over? && !m.handedOff ==>
              m.hangups == Reversed(m.wereUp) && forall id :: id in m.wereUp ==> id in m.hangups
    ensures m.handedOff ==> m.hangups == []
    ensures m.phase.Over? ==> EndNotes(m.reports[0]) == m.reported
    ensures m.phase.Up? || m.phase.HangingUp? || m.phase.LastWords? ==> EndNotes(m.log) == []
    ensures m.phase.Over? ==> EndNotes(m.log) == m.notes
  {
    RunKeeps(INIT, steps, m);
    InReversed(m.wereUp);
    assert m.hangups + [] == m.hangups && EndNotes(m.log) + [] == EndNotes(m.log);
  }

  /** How many waits are left before the report. */
  function WaitsLeft(phase: Phase): nat
  {
    match phase
    case Up => 0
    case HangingUp(rest, lastWords) => |rest| + (if lastWords then 3 else 2)
    case LastWords => 2
    case Closing => 1
    case Over => 0
  }

  /** Each wait that ends brings the report one wait nearer; nothing else puts it off. */
  lemma NothingPutsItOff(m: Mission, step: Step)
    requires Kept(m) && Possible(m, step) && !m.phase.Up?
    ensures var left := WaitsLeft(m.phase);
            WaitsLeft(Next(m, step).phase)
              == if step.HangUpReply? || step.LastWordsOver? || step.SessionClosed? then left - 1 else left
  {
    hide Advance, Flush, Finish, LineEnded, EndNotes, CallsKept, ReportKept;
    match step
    case FinishCalled(handsOff, lastWords) => NotedChanges(m, None); FinishAgain(m, handsOff, lastWords, None);
    case CallEnded(n) => LineEndedWaits(m, n);
    case HangUpReply => AdvanceWaits(m, m.phase.rest, m.phase.lastWords);
    case LastWordsOver => FlushChanges(m);
    case _ =>
  }

  lemma FlushChanges(m: Mission)
    requires m.endNotes.Some?
    ensures Flush(m) == m.(log := Flush(m).log, endNotes := None, phase := Closing)
  {
  }

  lemma NotedChanges(m: Mission, endNote: Option<Note>)
    ensures var m' := Noted(m, endNote);
            m' == m.(notes := m'.notes, endNotes := m'.endNotes, log := m'.log) && (m'.endNotes.Some? <==> m.endNotes.Some?)
  {
  }

  lemma FinishAgain(m: Mission, handsOff: bool, lastWords: bool, endNote: Option<Note>)
    requires !m.phase.Up?
    ensures Finish(m, handsOff, lastWords, endNote) == Noted(m, endNote)
  {
  }

  lemma LineEndedWaits(m: Mission, n: nat)
    requires 1 <= n <= |m.lines| && !m.phase.Up?
    ensures LineEnded(m, n).phase == m.phase
  {
    NotedChanges(Gone(m, n), Some(Note(n)));
    hide Noted, UpCalls;
  }

  lemma AdvanceWaits(m: Mission, rest: seq<CallId>, lastWords: bool)
    requires m.endNotes.Some?
    ensures WaitsLeft(Advance(m, rest, lastWords).phase) == |rest| + (if lastWords then 2 else 1)
  {
    hide Flush;
    FlushChanges(m);
  }

  lemma AdvanceChanges(m: Mission, rest: seq<CallId>, lastWords: bool)
    requires m.endNotes.Some?
    ensures var m' := Advance(m, rest, lastWords);
            && m' == m.(hangups := m'.hangups, phase := m'.phase, log := m'.log, endNotes := m'.endNotes) && !m'.phase.Up?
  {
    hide Flush;
    FlushChanges(m);
  }

  // ---- what each step does ----

  lemma {:induction false} ReversedAt<T>(s: seq<T>, k: nat)
    requires k < |s|
    ensures Reversed(s)[k] == s[|s| - 1 - k]
  {
    if k > 0 { ReversedAt(s[..|s| - 1], k - 1); }
  }

  lemma {:induction false} UpCallsConcat(a: seq<PartyLine>, b: seq<PartyLine>)
    ensures UpCalls(a + b) == UpCalls(a) + UpCalls(b)
  {
    if b == [] {
      assert a + b == a;
    } else {
      var n := |b| - 1;
      UpCallsConcat(a, b[..n]);
      assert (a + b)[..|a + b| - 1] == a + b[..n];
      var last := if b[n].state.Ended? then [] else [b[n].callId];
      assert UpCalls(a) + (UpCalls(b[..n]) + last) == UpCalls(a) + UpCalls(b[..n]) + last;
    }
  }

  lemma {:induction false} NobodyUp(lines: seq<PartyLine>)
    ensures UpCalls(lines) == [] <==> forall i :: 0 <= i < |lines| ==> lines[i].state.Ended?
  {
    if lines != [] {
      var before := lines[..|lines| - 1];
      NobodyUp(before);
      assert forall i :: 0 <= i < |before| ==> before[i] == lines[i];
    }
  }

  /** With line n's end everybody has hung up on an answered call. */
  predicate LastOneGone(m: Mission, n: nat)
  {
    m.connected && forall i :: 0 <= i < |m.lines| && i + 1 != n ==> m.lines[i].state.Ended?
  }

  /** The link is heard until the report is out, and after a hand-off still. */
  predicate IsHeard(m: Mission) { m.handedOff || !m.phase.Over? }

  /** What begins the ending: a finish, or the last party's end. */
  predicate Begins(m: Mission, step: Step)
  {
    m.phase.Up? && (step.FinishCalled? || (step.CallEnded? && LastOneGone(m, step.n)))
  }

  function StateAfter(m: Mission, step: Step, i: nat): Twilio.CallState
    requires i < |m.lines|
  {
    match step
    case CallEnded(n) => if n == i + 1 && IsHeard(m) then Twilio.Ended else m.lines[i].state
    case LineOver(n) => if n == i + 1 then Twilio.Ended else m.lines[i].state
    case StateHeard(n, state) => if n == i + 1 && IsHeard(m) then state else m.lines[i].state
    case _ => m.lines[i].state
  }

  ghost predicate LinesMove(m: Mission, step: Step, m': Mission)
  {
    && |m'.lines| == |m.lines| + (if step.LineAdded? then 1 else 0)
    && (forall i :: 0 <= i < |m.lines| ==> m'.lines[i] == PartyLine(m.lines[i].callId, StateAfter(m, step, i)))
    && (step.LineAdded? ==> m'.lines[|m.lines|] == PartyLine(step.id, Twilio.CallState.Dialing))
    && (m'.connected <==> m.connected || step.Answered?)
    && (m'.dialing <==> step.DialStarts? || (m.dialing && !step.DialFails? && !step.LineAdded?))
    && m'.gone == m.gone + (if step.CallEnded? && IsHeard(m) then {step.n} else {})
    && m'.byTools == m.byTools + (if step.ToolHangsUp? && 1 <= step.n <= |m.lines| then {m.lines[step.n - 1].callId} else {})
  }

  ghost predicate EndingMoves(m: Mission, step: Step, m': Mission)
  {
    && (m'.phase.Up? <==> m.phase.Up? && !Begins(m, step))
    && (Begins(m, step) ==>
          && m'.wereUp == UpCalls(m'.lines) && m'.linesThen == |m.lines| && m'.dialingThen == m.dialing
          && (m'.handedOff <==> step.FinishCalled? && step.handsOff)
          && m'.phase == FirstWait(m'.wereUp, m'.handedOff, if step.FinishCalled? then step.lastWords else true))
    && (!Begins(m, step) ==>
          && m'.wereUp == m.wereUp && m'.linesThen == m.linesThen && m'.dialingThen == m.dialingThen && m'.handedOff == m.handedOff)
    && m'.notes == m.notes + (if step.CallEnded? && IsHeard(m) && LastOneGone(m, step.n) then [Note(step.n)] else [])
  }

  /** What is waited for first: the newest call's hang-up, or the last words, or the session. */
  function FirstWait(up: seq<CallId>, handsOff: bool, lastWords: bool): Phase
  {
    if up != [] && !handsOff then HangingUp(Reversed(up)[1..], lastWords) else if lastWords then LastWords else Closing
  }

  /** The log without end notes. */
  function Talk(log: seq<Entry>): seq<Entry>
  {
    if log == [] then []
    else Talk(log[..|log| - 1]) + if log[|log| - 1].EndNote? then [] else [log[|log| - 1]]
  }

  /** What is said goes into the log, except what the assistant says while its last words are
      waited for, and so do the ends of lines that are not the last. */
  ghost predicate LogMoves(m: Mission, step: Step, m': Mission)
  {
    && Talk(m'.log) == Talk(m.log) + (if step.Heard? && !(step.assistant && m.phase.LastWords?) then [Words(step.text)]
                                      else if step.CallEnded? && IsHeard(m) && !LastOneGone(m, step.n) then [Remark(Note(step.n))]
                                      else [])
    && m'.reports == m.reports + (if step.SessionClosed? then [m.log] else [])
  }

  lemma {:induction false} TalkConcat(a: seq<Entry>, b: seq<Entry>)
    ensures Talk(a + b) == Talk(a) + Talk(b)
  {
    if b == [] {
      assert a + b == a;
    } else {
      var n := |b| - 1;
      TalkConcat(a, b[..n]);
      assert (a + b)[..|a + b| - 1] == a + b[..n];
      var last := if b[n].EndNote? then [] else [b[n]];
      assert Talk(a) + (Talk(b[..n]) + last) == Talk(a) + Talk(b[..n]) + last;
    }
  }

  lemma {:induction false} NotesAreNoTalk(notes: seq<Note>)
    ensures Talk(Logged(notes)) == []
  {
    if notes != [] {
      var n := |notes| - 1;
      NotesAreNoTalk(notes[..n]);
      assert Logged(notes)[..|Logged(notes)| - 1] == Logged(notes[..n]);
    }
  }

  lemma NotedTalk(m: Mission, endNote: Option<Note>)
    ensures var m' := Noted(m, endNote);
            Talk(m'.log) == Talk(m.log) && m'.notes == m.notes + (if endNote.Some? then [endNote.value] else [])
  {
    if endNote.Some? {
      TalkConcat(m.log, [EndNote(endNote.value)]);
      assert [EndNote(endNote.value)][..0] == [];
      assert Talk([EndNote(endNote.value)]) == [];
    }
  }

  lemma FlushTalk(m: Mission)
    requires m.endNotes.Some?
    ensures Talk(Flush(m).log) == Talk(m.log)
  {
    TalkConcat(m.log, Logged(m.endNotes.value));
    NotesAreNoTalk(m.endNotes.value);
  }

  lemma AdvanceTalk(m: Mission, rest: seq<CallId>, lastWords: bool)
    requires m.endNotes.Some?
    ensures Talk(Advance(m, rest, lastWords).log) == Talk(m.log)
    ensures Advance(m, rest, lastWords).phase ==
              if rest != [] then HangingUp(rest[1..], lastWords) else if lastWords then LastWords else Closing
  {
    FlushTalk(m);
  }

  lemma TalkOne(log: seq<Entry>, e: Entry)
    requires !e.EndNote?
    ensures Talk(log + [e]) == Talk(log) + [e]
  {
    assert (log + [e])[..|log|] == log;
  }

  /** A finish changes no line, and what is in the log but the end notes stays. */
  lemma FinishMoves(m: Mission, handsOff: bool, lastWords: bool, endNote: Option<Note>)
    ensures var m' := Finish(m, handsOff, lastWords, endNote);
            && m'.lines == m.lines && m'.connected == m.connected && m'.dialing == m.dialing
            && m'.gone == m.gone && m'.byTools == m.byTools && m'.reports == m.reports && m'.reported == m.reported
            && Talk(m'.log) == Talk(m.log) && m'.notes == m.notes + (if endNote.Some? then [endNote.value] else [])
            && if m.phase.Up?
               then m'.wereUp == UpCalls(m.lines) && m'.linesThen == |m.lines| && m'.dialingThen == m.dialing
                    && m'.handedOff == handsOff && m'.phase == FirstWait(m'.wereUp, handsOff, lastWords)
               else m'.wereUp == m.wereUp && m'.linesThen == m.linesThen && m'.dialingThen == m.dialingThen
                    && m'.handedOff == m.handedOff && m'.phase == m.phase
  {
    NotedChanges(m, endNote);
    NotedTalk(m, endNote);
    if m.phase.Up? {
      var begun := m.(endNotes := Some([]), handedOff := handsOff, wereUp := UpCalls(m.lines), linesThen := |m.lines|, dialingThen := m.dialing);
      NotedChanges(begun, endNote);
      NotedTalk(begun, endNote);
      var calls := if handsOff then [] else Reversed(UpCalls(m.lines));
      AdvanceChanges(Begun(m, handsOff, endNote), calls, lastWords);
      AdvanceTalk(Begun(m, handsOff, endNote), calls, lastWords);
    }
    hide Noted, Advance, Talk, UpCalls, Reversed;
  }

  lemma CallEndedMoves(m: Mission, n: nat)
    requires 1 <= n <= |m.lines| && IsHeard(m)
    ensures var m' := LineEnded(m, n);
            LinesMove(m, CallEnded(n), m') && EndingMoves(m, CallEnded(n), m') && LogMoves(m, CallEnded(n), m')
  {
    var g := Gone(m, n);
    LineEndedIs(m, n);
    hide LineEnded, UpCalls, Talk, LastOneGone, LinesMove, EndingMoves, LogMoves;
    if LastOneGone(m, n) {
      FinishMoves(g, false, true, Some(Note(n)));
      LastCallEnded(m, n, g, Finish(g, false, true, Some(Note(n))));
    } else {
      OtherCallEnded(m, n, g);
    }
  }

  lemma OtherCallEnded(m: Mission, n: nat, g: Mission)
    requires 1 <= n <= |m.lines| && IsHeard(m) && g == Gone(m, n) && !LastOneGone(m, n)
    ensures var m' := g.(log := m.log + [Remark(Note(n))]);
            LinesMove(m, CallEnded(n), m') && EndingMoves(m, CallEnded(n), m') && LogMoves(m, CallEnded(n), m')
  {
    TalkOne(m.log, Remark(Note(n)));
    hide Talk, UpCalls, LastOneGone;
  }

  lemma LineEndedIs(m: Mission, n: nat)
    requires 1 <= n <= |m.lines|
    ensures var g := Gone(m, n);
            LineEnded(m, n) == if LastOneGone(m, n) then Finish(g, false, true, Some(Note(n)))
                               else g.(log := m.log + [Remark(Note(n))])
  {
    NobodyUp(Gone(m, n).lines);
    GoneIsLast(m, n);
    hide Finish, UpCalls, LastOneGone;
  }

  lemma LastCallEnded(m: Mission, n: nat, g: Mission, m': Mission)
    requires 1 <= n <= |m.lines| && IsHeard(m) && g == Gone(m, n) && LastOneGone(m, n)
    requires && m'.lines == g.lines && m'.connected == g.connected && m'.dialing == g.dialing
             && m'.gone == g.gone && m'.byTools == g.byTools && m'.reports == g.reports
             && Talk(m'.log) == Talk(g.log) && m'.notes == g.notes + [Note(n)]
             && if g.phase.Up?
                then m'.wereUp == UpCalls(g.lines) && m'.linesThen == |g.lines| && m'.dialingThen == g.dialing
                     && m'.handedOff == false && m'.phase == FirstWait(m'.wereUp, false, true)
                else m'.wereUp == g.wereUp && m'.linesThen == g.linesThen && m'.dialingThen == g.dialingThen
                     && m'.handedOff == g.handedOff && m'.phase == g.phase
    ensures LinesMove(m, CallEnded(n), m') && EndingMoves(m, CallEnded(n), m') && LogMoves(m, CallEnded(n), m')
  {
    hide Talk, UpCalls, LastOneGone;
    assert Talk(m.log) + [] == Talk(m.log);
  }

  lemma GoneIsLast(m: Mission, n: nat)
    requires 1 <= n <= |m.lines|
    ensures m.connected ==> (LastOneGone(m, n) <==> forall i :: 0 <= i < |Gone(m, n).lines| ==> Gone(m, n).lines[i].state.Ended?)
  {
    var g := Gone(m, n);
    if forall i :: 0 <= i < |g.lines| ==> g.lines[i].state.Ended? {
      forall i | 0 <= i < |m.lines| && i + 1 != n ensures m.lines[i].state.Ended? { assert g.lines[i] == m.lines[i]; }
    }
  }

  lemma FinishCalledMoves(m: Mission, handsOff: bool, lastWords: bool)
    ensures var step, m' := FinishCalled(handsOff, lastWords), Finish(m, handsOff, lastWords, None);
            LinesMove(m, step, m') && EndingMoves(m, step, m') && LogMoves(m, step, m')
  {
    FinishMoves(m, handsOff, lastWords, None);
    hide Finish, UpCalls, Talk;
  }

  lemma WaitElse(m: Mission, step: Step)
    requires NotesKept(m) && Possible(m, step) && (step.HangUpReply? || step.LastWordsOver? || step.SessionClosed?)
    ensures var m' := Next(m, step);
            && m' == m.(hangups := m'.hangups, phase := m'.phase, log := m'.log, endNotes := m'.endNotes,
                        reports := m'.reports, reported := m'.reported)
            && !m'.phase.Up? && Talk(m'.log) == Talk(m.log)
            && m'.reports == m.reports + if step.SessionClosed? then [m.log] else []
  {
    if step.HangUpReply? {
      AdvanceTalk(m, m.phase.rest, m.phase.lastWords);
      AdvanceChanges(m, m.phase.rest, m.phase.lastWords);
    } else if step.LastWordsOver? {
      FlushTalk(m);
      FlushChanges(m);
    }
    hide Advance, Flush, Talk, EndNotes;
  }

  lemma WaitMoves(m: Mission, step: Step)
    requires NotesKept(m) && Possible(m, step) && (step.HangUpReply? || step.LastWordsOver? || step.SessionClosed?)
    ensures var m' := Next(m, step);
            LinesMove(m, step, m') && EndingMoves(m, step, m') && LogMoves(m, step, m')
  {
    WaitElse(m, step);
    hide Next, Talk, UpCalls, NotesKept, LastOneGone, FirstWait;
  }

  /** A step that only touches lines. */
  predicate OnlyLines(m: Mission, step: Step)
  {
    step.DialStarts? || step.DialFails? || step.LineAdded? || step.Answered? || step.StateHeard? || step.ToolHangsUp?
    || step.LineOver? || (step.CallEnded? && !IsHeard(m))
  }

  lemma LineStepLines(m: Mission, step: Step)
    requires NotesKept(m) && Possible(m, step) && OnlyLines(m, step)
    ensures LinesMove(m, step, Next(m, step))
  {
    hide NotesKept;
  }

  lemma LineStepElse(m: Mission, step: Step)
    requires NotesKept(m) && Possible(m, step) && OnlyLines(m, step)
    ensures var m' := Next(m, step);
            m' == m.(connected := m'.connected, dialing := m'.dialing, lines := m'.lines, gone := m'.gone, byTools := m'.byTools)
  {
    hide NotesKept;
  }

  lemma LineStepMoves(m: Mission, step: Step)
    requires NotesKept(m) && Possible(m, step) && OnlyLines(m, step)
    ensures var m' := Next(m, step);
            LinesMove(m, step, m') && EndingMoves(m, step, m') && LogMoves(m, step, m')
  {
    LineStepLines(m, step);
    LineStepElse(m, step);
    hide Next, LinesMove, Talk, UpCalls, LastOneGone, NotesKept;
  }

  /** What every step of an ending does, and that it does no more. */
  lemma EveryStepMoves(m: Mission, step: Step)
    requires NotesKept(m) && Possible(m, step)
    ensures var m' := Next(m, step);
            LinesMove(m, step, m') && EndingMoves(m, step, m') && LogMoves(m, step, m')
  {
    hide LinesMove, EndingMoves, LogMoves, LineEnded, Finish, NotesKept;
    if step.FinishCalled? {
      FinishCalledMoves(m, step.handsOff, step.lastWords);
    } else if step.CallEnded? && IsHeard(m) {
      CallEndedMoves(m, step.n);
    } else if step.HangUpReply? || step.LastWordsOver? || step.SessionClosed? {
      WaitMoves(m, step);
    } else if step.Heard? {
      HeardMoves(m, step.assistant, step.text);
    } else {
      LineStepMoves(m, step);
    }
  }

  lemma HeardMoves(m: Mission, assistant: bool, text: string)
    requires NotesKept(m)
    ensures var step, m' := Heard(assistant, text), Next(m, Heard(assistant, text));
            LinesMove(m, step, m') && EndingMoves(m, step, m') && LogMoves(m, step, m')
  {
    hide EndNotes, Talk, EndingMoves, LinesMove;
    TalkOne(m.log, Words(text));
    OnlyLogged(m, Next(m, Heard(assistant, text)), assistant, text);
  }

  lemma OnlyLogged(m: Mission, m': Mission, assistant: bool, text: string)
    requires m' == m.(log := m'.log)
    ensures LinesMove(m, Heard(assistant, text), m') && EndingMoves(m, Heard(assistant, text), m')
  {
    hide UpCalls, LastOneGone, FirstWait;
  }

  // ---- which lines are hung up ----

  ghost predicate LineKept(lines: seq<PartyLine>, i: nat, byTools: set<CallId>, gone: set<nat>)
    requires i < |lines|
  {
    if i + 1 in gone then lines[i].state.Ended? else lines[i].state.Ended? ==> lines[i].callId in byTools
  }

  /** Of the lines there were when the ending began, those that are up were up then, or a tool
      has hung them up. */
  ghost predicate WasUp(line: PartyLine, wereUp: seq<CallId>, byTools: set<CallId>)
  {
    !line.state.Ended? ==> line.callId in wereUp || line.callId in byTools
  }

  ghost predicate HadLine(lines: seq<PartyLine>, n: nat, id: CallId) { exists i :: 0 <= i < n <= |lines| && lines[i].callId == id }

  /** A line is added later only by a call that was being placed when the ending began. */
  ghost predicate LinesKept(m: Mission)
  {
    && (forall i :: 0 <= i < |m.lines| ==> LineKept(m.lines, i, m.byTools, m.gone))
    && (forall n :: n in m.gone ==> 1 <= n <= |m.lines|)
    && (!m.phase.Up? ==>
          && m.linesThen <= |m.lines| && |m.lines| + (if m.dialing then 1 else 0) <= m.linesThen + (if m.dialingThen then 1 else 0)
          && (forall i :: 0 <= i < m.linesThen ==> WasUp(m.lines[i], m.wereUp, m.byTools))
          && forall id :: id in m.wereUp ==> HadLine(m.lines, m.linesThen, id))
  }

  lemma {:induction false} UpCallsIs(lines: seq<PartyLine>, id: CallId)
    ensures id in UpCalls(lines) <==> exists i :: 0 <= i < |lines| && !lines[i].state.Ended? && lines[i].callId == id
  {
    if lines != [] {
      var n := |lines| - 1;
      UpCallsIs(lines[..n], id);
      if id in UpCalls(lines[..n]) {
        var i :| 0 <= i < n && !lines[..n][i].state.Ended? && lines[..n][i].callId == id;
        assert !lines[i].state.Ended?;
      }
      if i :| 0 <= i < |lines| && !lines[i].state.Ended? && lines[i].callId == id {
        if i < n { assert !lines[..n][i].state.Ended?; }
      }
    }
  }

  /** The lines of two states are the same, but for one. */
  lemma LineChanged(m: Mission, m': Mission, n: nat)
    requires LinesKept(m) && 1 <= n <= |m.lines| && |m'.lines| == |m.lines|
    requires forall i :: 0 <= i < |m.lines| && i != n - 1 ==> m'.lines[i] == m.lines[i]
    requires m'.lines[n - 1].callId == m.lines[n - 1].callId && LineKept(m'.lines, n - 1, m'.byTools, m'.gone)
    requires m.gone <= m'.gone <= m.gone + {n} && m'.dialing == m.dialing && m'.dialingThen == m.dialingThen
    requires m'.phase.Up? == m.phase.Up? && m'.wereUp == m.wereUp && m'.linesThen == m.linesThen && m.byTools <= m'.byTools
    requires !m'.lines[n - 1].state.Ended? ==> !m.lines[n - 1].state.Ended? || m.lines[n - 1].callId in m.byTools
    ensures LinesKept(m')
  {
    forall i | 0 <= i < |m'.lines| ensures LineKept(m'.lines, i, m'.byTools, m'.gone) { assert LineKept(m.lines, i, m.byTools, m.gone); }
    if !m.phase.Up? {
      forall i | 0 <= i < m.linesThen ensures WasUp(m'.lines[i], m'.wereUp, m'.byTools) {
        assert WasUp(m.lines[i], m.wereUp, m.byTools);
      }
      forall id | id in m.wereUp ensures HadLine(m'.lines, m'.linesThen, id) {
        assert HadLine(m.lines, m.linesThen, id);
        var i :| 0 <= i < m.linesThen && m.lines[i].callId == id;
        assert m'.lines[i].callId == id;
      }
    }
  }

  /** What was up when the ending began is on the list. */
  lemma BeginsKept(m: Mission, m': Mission)
    requires LinesKept(m) && m'.lines == m.lines && m'.byTools == m.byTools && m'.gone == m.gone && m'.dialing == m.dialing
    requires m'.wereUp == UpCalls(m.lines) && m'.linesThen == |m.lines| && m'.dialingThen == m.dialing
    ensures LinesKept(m')
  {
    forall i | 0 <= i < |m'.lines| ensures LineKept(m'.lines, i, m'.byTools, m'.gone) { assert LineKept(m.lines, i, m.byTools, m.gone); }
    forall i | 0 <= i < m'.linesThen ensures WasUp(m'.lines[i], m'.wereUp, m'.byTools) { UpCallsIs(m.lines, m.lines[i].callId); }
    forall id | id in m'.wereUp ensures HadLine(m'.lines, m'.linesThen, id) { UpCallsIs(m.lines, id); }
  }

  lemma FinishLines(m: Mission, handsOff: bool, lastWords: bool, endNote: Option<Note>)
    requires LinesKept(m)
    ensures LinesKept(Finish(m, handsOff, lastWords, endNote))
  {
    hide Advance, Noted, UpCalls;
    var m' := Finish(m, handsOff, lastWords, endNote);
    if m.phase.Up? {
      var begun := Begun(m, handsOff, endNote);
      NotedChanges(m.(endNotes := Some([]), handedOff := handsOff, wereUp := UpCalls(m.lines), linesThen := |m.lines|,
                      dialingThen := m.dialing), endNote);
      AdvanceChanges(begun, if handsOff then [] else Reversed(UpCalls(m.lines)), lastWords);
      BeginsKept(m, m');
    } else {
      NotedChanges(m, endNote);
      LinesKeptBy(m, m');
    }
  }

  lemma LinesKeptBy(m: Mission, m': Mission)
    requires LinesKept(m) && m' == m.(notes := m'.notes, endNotes := m'.endNotes, log := m'.log)
    ensures LinesKept(m')
  {
  }

  lemma CallEndedLines(m: Mission, n: nat)
    requires LinesKept(m) && 1 <= n <= |m.lines|
    ensures LinesKept(LineEnded(m, n))
  {
    var m' := Gone(m, n);
    LineChanged(m, m', n);
    FinishLines(m', false, true, Some(Note(n)));
  }

  lemma AddedLines(m: Mission, id: CallId)
    requires LinesKept(m) && NotesKept(m) && m.dialing
    ensures LinesKept(Next(m, LineAdded(id)))
  {
    var m' := Next(m, LineAdded(id));
    forall i | 0 <= i < |m'.lines| ensures LineKept(m'.lines, i, m'.byTools, m'.gone) {
      if i < |m.lines| { assert LineKept(m.lines, i, m.byTools, m.gone); }
    }
    if !m.phase.Up? {
      forall x | x in m.wereUp ensures HadLine(m'.lines, m'.linesThen, x) {
        assert HadLine(m.lines, m.linesThen, x);
        var i :| 0 <= i < m.linesThen && m.lines[i].callId == x;
        assert m'.lines[i].callId == x;
      }
    }
  }

  lemma ToolLines(m: Mission, step: Step)
    requires LinesKept(m) && NotesKept(m) && Possible(m, step) && (step.StateHeard? || step.ToolHangsUp? || step.LineOver?)
    ensures LinesKept(Next(m, step))
  {
    assert LineKept(m.lines, step.n - 1, m.byTools, m.gone);
    LineChanged(m, Next(m, step), step.n);
  }

  lemma LinesStep(m: Mission, step: Step)
    requires LinesKept(m) && NotesKept(m) && Possible(m, step)
    ensures LinesKept(Next(m, step))
  {
    match step
    case LineAdded(id) => AddedLines(m, id);
    case FinishCalled(handsOff, lastWords) => FinishLines(m, handsOff, lastWords, None);
    case CallEnded(n) => if !Deaf(m) { CallEndedLines(m, n); }
    case StateHeard(_, _) => ToolLines(m, step);
    case ToolHangsUp(_) => ToolLines(m, step);
    case LineOver(_) => ToolLines(m, step);
    case _ =>
  }

  lemma {:induction false} RunLines(m: Mission, steps: seq<Step>, end: Mission)
    requires LinesKept(m) && IsRun(m, steps, end)
    ensures LinesKept(end)
    decreases |steps|
  {
    if steps != [] {
      LinesStep(m, steps[0]);
      RunLines(Next(m, steps[0]), steps[1..], end);
    }
  }

  /** Calls have different ids. */
  ghost predicate Distinct(lines: seq<PartyLine>) { forall i, j :: 0 <= i < j < |lines| ==> lines[i].callId != lines[j].callId }

  /** A hang-up was sent to a line, by the ending or by a tool. */
  predicate HungUp(m: Mission, id: CallId) { id in m.hangups || id in m.byTools }

  /** The ending hangs up exactly what was up when it began: once the report is out, every line
      still up was sent a hang-up if and only if every line added since the ending began is over
      or was hung up by the tool that called it. */
  lemma AllHungUpIff(steps: seq<Step>, m: Mission)
    requires IsRun(INIT, steps, m) && m.phase.Over? && !m.handedOff && Distinct(m.lines)
    ensures m.linesThen <= |m.lines|
    ensures (forall i :: 0 <= i < |m.lines| && !m.lines[i].state.Ended? ==> HungUp(m, m.lines[i].callId))
       <==> (forall i :: m.linesThen <= i < |m.lines| && !m.lines[i].state.Ended? ==> m.lines[i].callId in m.byTools)
    ensures forall i :: m.linesThen <= i < |m.lines| ==> m.lines[i].callId !in m.hangups
  {
    RunLines(INIT, steps, m);
    RunKeeps(INIT, steps, m);
    assert m.hangups + [] == m.hangups;
    InReversed(m.wereUp);
    forall i | 0 <= i < m.linesThen && !m.lines[i].state.Ended? ensures HungUp(m, m.lines[i].callId) {
      assert WasUp(m.lines[i], m.wereUp, m.byTools);
    }
    forall i | m.linesThen <= i < |m.lines| ensures m.lines[i].callId !in m.hangups { NewLine(m, i); }
  }

  lemma NewLine(m: Mission, i: nat)
    requires LinesKept(m) && !m.phase.Up? && Distinct(m.lines) && m.linesThen <= i < |m.lines|
    ensures m.lines[i].callId !in m.wereUp
  {
    forall id | id in m.wereUp ensures id != m.lines[i].callId {
      assert HadLine(m.lines, m.linesThen, id);
      var k :| 0 <= k < m.linesThen && m.lines[k].callId == id;
      assert m.lines[k].callId != m.lines[i].callId;
    }
  }

  lemma RunFrom(m: Mission, step: Step, rest: seq<Step>, end: Mission)
    requires Possible(m, step) && NotesKept(m) && IsRun(Next(m, step), rest, end)
    ensures IsRun(m, [step] + rest, end)
  {
    assert ([step] + rest)[1..] == rest;
  }

  /** A mission that is ending ends when its waits are over. */
  lemma {:induction false} EndsFrom(m: Mission) returns (steps: seq<Step>, end: Mission)
    requires Kept(m) && !m.phase.Up?
    ensures IsRun(m, steps, end) && Kept(end) && end.phase.Over? && end.handedOff == m.handedOff
    ensures end.lines == m.lines && end.byTools == m.byTools && end.wereUp == m.wereUp
    decreases WaitsLeft(m.phase)
  {
    if m.phase.Over? {
      steps, end := [], m;
    } else {
      hide IsRun, Kept, Possible, Next, WaitsLeft;
      var step, next := WaitOver(m);
      steps, end := EndsFrom(next);
      RunFrom(m, step, steps, end);
      steps := [step] + steps;
    }
  }

  lemma WaitOver(m: Mission) returns (step: Step, next: Mission)
    requires Kept(m) && !m.phase.Up? && !m.phase.Over?
    ensures Possible(m, step) && NotesKept(m) && next == Next(m, step) && Kept(next) && !next.phase.Up?
    ensures next.lines == m.lines && next.byTools == m.byTools && next.wereUp == m.wereUp && next.handedOff == m.handedOff
    ensures WaitsLeft(next.phase) < WaitsLeft(m.phase)
  {
    step := if m.phase.HangingUp? then HangUpReply else if m.phase.LastWords? then LastWordsOver else SessionClosed;
    StepKeeps(m, step);
    NothingPutsItOff(m, step);
    hide EndNotes, CallsKept, ReportKept, Logged, Reversed;
    next := Next(m, step);
  }

  lemma {:induction false} RunOn(m: Mission, steps: seq<Step>, m': Mission, more: seq<Step>, end: Mission)
    requires IsRun(m, steps, m') && IsRun(m', more, end)
    ensures IsRun(m, steps + more, end)
    decreases |steps|
  {
    hide Next, EndNotes;
    if steps == [] {
      assert steps + more == more;
    } else {
      assert (steps + more)[1..] == steps[1..] + more;
      RunOn(Next(m, steps[0]), steps[1..], m', more, end);
    }
  }

  /** With no call being placed when the ending begins, every line still up is hung up. */
  lemma NoDialAllHungUp(steps: seq<Step>, m: Mission)
    requires IsRun(INIT, steps, m) && m.phase.Over? && !m.handedOff && !m.dialingThen
    ensures |m.lines| == m.linesThen
    ensures forall i :: 0 <= i < |m.lines| && !m.lines[i].state.Ended? ==> HungUp(m, m.lines[i].callId)
  {
    RunLines(INIT, steps, m);
    RunKeeps(INIT, steps, m);
    assert m.hangups + [] == m.hangups;
    InReversed(m.wereUp);
    forall i | 0 <= i < |m.lines| && !m.lines[i].state.Ended? ensures HungUp(m, m.lines[i].callId) {
      assert WasUp(m.lines[i], m.wereUp, m.byTools);
    }
  }

  /** With one being placed, it can go the other way, whatever the mission still waits for: Twilio
      places the call and it is answered, and nothing hangs it up. */
  lemma LateDialLeavesALine(m: Mission, b: CallId) returns (steps: seq<Step>, end: Mission)
    requires Kept(m) && !m.phase.Up? && !m.phase.Over? && !m.handedOff && m.dialing
    requires b !in m.wereUp && b !in m.byTools && forall n :: n in m.gone ==> n <= |m.lines|
    ensures IsRun(m, steps, end) && end.phase.Over? && !end.handedOff
    ensures end.lines == m.lines + [PartyLine(b, Twilio.Active)] && !HungUp(end, b)
  {
    var answered := StateHeard(|m.lines| + 1, Twilio.Active);
    StepKeeps(m, LineAdded(b));
    var m1 := Next(m, LineAdded(b));
    StepKeeps(m1, answered);
    var m2 := Next(m1, answered);
    assert m2.lines == m.lines + [PartyLine(b, Twilio.Active)];
    var rest;
    rest, end := EndsFrom(m2);
    hide IsRun, EndNotes, NotesKept, ReportKept, Next, Possible;
    assert end.hangups + [] == end.hangups;
    InReversed(end.wereUp);
    RunFrom(m1, answered, rest, end);
    RunFrom(m, LineAdded(b), [answered] + rest, end);
    steps := [LineAdded(b)] + ([answered] + rest);
  }

  lemma FirstIsUp(a: CallId) returns (m: Mission)
    ensures IsRun(INIT, [DialStarts] + ([LineAdded(a)] + ([Answered] + [])), m) && Kept(m) && m.phase.Up? && !m.dialing
    ensures m.lines == [PartyLine(a, Twilio.CallState.Dialing)] && m.byTools == {} && m.gone == {}
  {
    var m0 := Next(INIT, DialStarts);
    var m1 := Next(m0, LineAdded(a));
    m := Next(m1, Answered);
    assert IsRun(m, [], m);
    RunFrom(m1, Answered, [], m);
    RunFrom(m0, LineAdded(a), [Answered] + [], m);
    RunFrom(INIT, DialStarts, [LineAdded(a)] + ([Answered] + []), m);
  }

  lemma TimeIsUp(m: Mission, a: CallId) returns (m': Mission)
    requires Kept(m) && m.phase.Up? && m.lines == [PartyLine(a, Twilio.CallState.Dialing)]
    ensures m' == Next(m, FinishCalled(false, true)) && Kept(m') && m'.phase == HangingUp([], true) && !m'.handedOff
    ensures m'.lines == m.lines && m'.wereUp == [a] && m'.byTools == m.byTools && m'.gone == m.gone && m'.dialing == m.dialing
  {
    FinishKeeps(m, false, true, None);
    hide EndNotes, NotesKept, ReportKept, Flush, Logged;
    m' := Next(m, FinishCalled(false, true));
    assert m.lines[..0] == [] && UpCalls(m.lines) == [a];
    assert [a][..0] == [] && Reversed([a]) == [a] + [];
  }

  /** It does happen: the first party is on the line and another is being called when the call
      runs out of time. Twilio places the call and it is answered before the mission has
      reported; its line stays up, and nothing hangs it up. */
  lemma AnsweredLateStaysUp(a: CallId, b: CallId) returns (steps: seq<Step>, m: Mission)
    requires a != b
    ensures IsRun(INIT, steps, m) && m.phase.Over? && !m.handedOff && Distinct(m.lines)
    ensures |m.lines| == 2 && m.lines[1] == PartyLine(b, Twilio.Active) && !HungUp(m, b)
  {
    hide IsRun, EndNotes, Finish, Advance, Flush, LineEnded;
    var up := FirstIsUp(a);
    StepKeeps(up, DialStarts);
    var calling := Next(up, DialStarts);
    var m1 := TimeIsUp(calling, a);
    var rest;
    rest, m := LateDialLeavesALine(m1, b);
    var first := [DialStarts] + ([LineAdded(a)] + ([Answered] + []));
    RunFrom(calling, FinishCalled(false, true), rest, m);
    RunFrom(up, DialStarts, [FinishCalled(false, true)] + rest, m);
    RunOn(INIT, first, up, [DialStarts] + ([FinishCalled(false, true)] + rest), m);
    steps := first + ([DialStarts] + ([FinishCalled(false, true)] + rest));
  }

  // ---- the mission itself ----

  lemma UpCallsNext(lines: seq<PartyLine>, i: nat)
    requires i < |lines|
    ensures UpCalls(lines[..i + 1]) == UpCalls(lines[..i]) + if lines[i].state.Ended? then [] else [lines[i].callId]
  {
    assert lines[..i + 1][..i] == lines[..i];
  }

  lemma ReversedNext<T>(s: seq<T>, x: T)
    ensures Reversed(s + [x]) == [x] + Reversed(s)
  {
    assert (s + [x])[..|s|] == s;
  }

  lemma LoggedNext(notes: seq<Note>, i: nat)
    requires i < |notes|
    ensures Logged(notes[..i + 1]) == Logged(notes[..i]) + [EndNote(notes[i])]
  {
    assert notes[..i + 1][..i] == notes[..i];
  }

  class EndingMission {
    var connected: bool
    ghost var dialing: bool
    var lines: seq<PartyLine>
    var phase: Phase
    var handedOff: bool
    var endNotes: Option<seq<Note>>
    var log: seq<Entry>
    var hangups: seq<CallId>
    var reports: seq<seq<Entry>>
    ghost var notes: seq<Note>
    ghost var reported: seq<Note>
    ghost var wereUp: seq<CallId>
    ghost var linesThen: nat
    ghost var dialingThen: bool
    ghost var byTools: set<CallId>
    ghost var gone: set<nat>

    ghost function State(): Mission
      reads this
    {
      Mission(connected, dialing, lines, phase, handedOff, endNotes, log, hangups, reports, notes, reported, wereUp,
              linesThen, dialingThen, byTools, gone)
    }

    constructor ()
      ensures State() == INIT
    {
      connected, dialing, lines, phase, handedOff, endNotes := false, false, [], Up, false, None;
      log, hangups, reports, notes, reported := [], [], [], [], [];
      wereUp, linesThen, dialingThen, byTools, gone := [], 0, false, {}, {};
    }

    method FindUp() returns (up: seq<CallId>, newestFirst: seq<CallId>)
      ensures up == UpCalls(lines) && newestFirst == Reversed(up)
    {
      up, newestFirst := [], [];
      for i := 0 to |lines|
        invariant up == UpCalls(lines[..i]) && newestFirst == Reversed(up)
      {
        UpCallsNext(lines, i);
        if !lines[i].state.Ended? {
          ReversedNext(up, lines[i].callId);
          up, newestFirst := up + [lines[i].callId], [lines[i].callId] + newestFirst;
        }
      }
      assert lines[..|lines|] == lines;
    }

    method GetNote(endNote: Option<Note>)
      modifies this
      ensures State() == Noted(old(State()), endNote)
    {
      if endNote.None? { return; }
      notes := notes + [endNote.value];
      if endNotes.Some? {
        endNotes := Some(endNotes.value + [endNote.value]);
      } else {
        log := log + [EndNote(endNote.value)];
      }
    }

    method DoFinish(handsOff: bool, lastWords: bool, endNote: Option<Note>)
      modifies this
      ensures State() == Finish(old(State()), handsOff, lastWords, endNote)
    {
      if phase != Up {
        GetNote(endNote);
        return;
      }
      var up, calls := FindUp();
      if handsOff { calls := []; }
      Begin(up, handsOff, endNote);
      GoOn(calls, lastWords);
    }

    method Begin(up: seq<CallId>, handsOff: bool, endNote: Option<Note>)
      requires up == UpCalls(lines)
      modifies this
      ensures State() == Begun(old(State()), handsOff, endNote)
    {
      endNotes, handedOff := Some([]), handsOff;
      wereUp, linesThen, dialingThen := up, |lines|, dialing;
      hide Noted;
      assert State() == old(State()).(endNotes := Some([]), handedOff := handsOff, wereUp := up, linesThen := |lines|,
                                      dialingThen := dialing);
      GetNote(endNote);
    }

    method GoOn(rest: seq<CallId>, lastWords: bool)
      requires endNotes.Some?
      modifies this
      ensures State() == Advance(old(State()), rest, lastWords)
    {
      if rest != [] {
        hangups, phase := hangups + [rest[0]], HangingUp(rest[1..], lastWords);
      } else if lastWords {
        phase := LastWords;
      } else {
        FlushNotes();
      }
    }

    method FlushNotes()
      requires endNotes.Some?
      modifies this
      ensures State() == Flush(old(State()))
    {
      var waiting := endNotes.value;
      ghost var before := log;
      for i := 0 to |waiting|
        invariant State() == old(State()).(log := before + Logged(waiting[..i]))
      {
        LoggedNext(waiting, i);
        assert before + Logged(waiting[..i]) + [EndNote(waiting[i])] == before + Logged(waiting[..i + 1]);
        log := log + [EndNote(waiting[i])];
      }
      assert waiting[..|waiting|] == waiting;
      endNotes, phase := None, Closing;
    }

    method OnLineEnded(n: nat)
      requires 1 <= n <= |lines|
      modifies this
      ensures State() == LineEnded(old(State()), n)
    {
      lines := lines[n - 1 := lines[n - 1].(state := Twilio.Ended)];
      gone := gone + {n};
      var up, _ := FindUp();
      if connected && up == [] {
        DoFinish(false, true, Some(Note(n)));
      } else {
        log := log + [Remark(Note(n))];
      }
    }

    /** The call being placed exists. */
    method AddLine(id: CallId)
      requires Possible(State(), LineAdded(id)) && NotesKept(State())
      modifies this
      ensures State() == Next(old(State()), LineAdded(id))
    {
      lines, dialing := lines + [PartyLine(id, Twilio.CallState.Dialing)], false;
    }

    /** A call.state event. */
    method OnState(n: nat, state: Twilio.CallState)
      requires Possible(State(), StateHeard(n, state)) && NotesKept(State())
      modifies this
      ensures State() == Next(old(State()), StateHeard(n, state))
    {
      if !(phase.Over? && !handedOff) { lines := lines[n - 1 := lines[n - 1].(state := state)]; }
    }

    /** A tool has hung a line up, or nobody answered. */
    method MarkOver(n: nat)
      requires Possible(State(), LineOver(n)) && NotesKept(State())
      modifies this
      ensures State() == Next(old(State()), LineOver(n))
    {
      lines := lines[n - 1 := lines[n - 1].(state := Twilio.Ended)];
    }

    /** The session is closed: nothing but the report is left. */
    method Report()
      requires phase.Closing?
      modifies this
      ensures State() == Next(old(State()), SessionClosed)
    {
      phase, reports := Over, reports + [log];
      reported := notes;
    }
  }
}
