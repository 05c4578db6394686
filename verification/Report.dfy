/** The report of a finished call (report.ts): a TL;DR, then as much of the log as fits. */
module Report {
  import opened Wrappers
  import opened Text

  datatype Kind = Say | Hear | Happened

  /** `t` is in milliseconds since the mission started; `line` is 0 when there is none. */
  datatype LogEntry = LogEntry(t: int, line: nat, kind: Kind, who: string, text: string)

  datatype Direction = Outbound | Inbound

  datatype Outcome = Completed | NoAnswer | Failed | HoldCap | MaxDuration | HandedOff | EndedByAgent | Error

  datatype Party = Party(name: string, number: string)

  datatype OurLine = OurLine(id: string, number: Option<string>)

  /** Times are in milliseconds. */
  datatype MissionReport = MissionReport(
    missionId: string,
    direction: Direction,
    party: Party,
    brief: Option<string>,
    outcome: Outcome,
    summary: Option<string>,
    log: seq<LogEntry>,
    startedAt: int,
    endedAt: int,
    sessionKey: string,
    line: Option<OurLine>)

  /** `maxChars` None: no limit. */
  datatype ReportOptions = ReportOptions(savedAt: Option<string>, maxChars: Option<nat>, saved: bool)

  const REPORT_MAX_CHARS := 3000
  const DEFAULT := ReportOptions(None, Some(REPORT_MAX_CHARS), false)
  const SAVED := ReportOptions(None, None, true)
  const SUMMARY_MAX := 1200
  const GOAL_MIN := 200
  const HEADING_ROOM := 80

  const TLDR := "TL;DR: "
  const NO_TLDR := "none; the call ended before"
  const NO_SUMMARY := NO_TLDR + " the assistant summed it up. Read the log."
  const TELL_USER := "Tell the user how the call went if they're waiting for it."
  const CALL_LOG := "Call log:"

  function OutcomeText(o: Outcome): (s: string)
    ensures s != "" && ',' !in s && OneLine(s)
  {
    match o
    case Completed => "completed"
    case NoAnswer => "no_answer"
    case Failed => "failed"
    case HoldCap => "hold_cap"
    case MaxDuration => "max_duration"
    case HandedOff => "handed_off"
    case EndedByAgent => "ended_by_agent"
    case Error => "error"
  }

  /** Milliseconds to whole seconds, half up. */
  function Seconds(ms: int): int { (ms + 500) / 1000 }

  function Pad2(n: nat): string { if n < 10 then "0" + NatString(n) else NatString(n) }

  function Stamp(ms: int): string
  {
    var s := if Seconds(ms) > 0 then Seconds(ms) else 0;
    Pad2(s / 60) + ":" + Pad2(s % 60)
  }

  function LineTag(line: nat): string { if line == 0 then "" else "[line " + NatString(line) + "] " }

  function Body(e: LogEntry): string { if e.kind == Happened then "— " + e.text else e.who + ": " + e.text }

  function FormatLogEntry(e: LogEntry): string { "[" + Stamp(e.t) + "] " + LineTag(e.line) + Body(e) }

  function FormatLog(log: seq<LogEntry>): (lines: seq<string>)
    ensures |lines| == |log|
    ensures forall i :: 0 <= i < |log| ==> lines[i] == FormatLogEntry(log[i])
  {
    if log == [] then [] else [FormatLogEntry(log[0])] + FormatLog(log[1..])
  }

  function Clip(text: string, max: int): string
  {
    if |text| <= max then text
    else TrimEnd(text[..if 0 <= max - 1 <= |text| then max - 1 else 0]) + "…"
  }

  function Who(p: Party): string { if p.name == p.number then p.number else p.name + " (" + p.number + ")" }

  function Ours(line: Option<OurLine>): string
  {
    match line
    case None => ""
    case Some(l) => l.id + match l.number case None => "" case Some(n) => if n == "" then "" else " (" + n + ")"
  }

  function Via(word: string, ours: string): string { if ours == "" then "" else word + ours }

  /** What the head says before the outcome. */
  function HeadStart(r: MissionReport): string
  {
    if r.direction == Outbound
    then "[otacon-voice] The phone call you placed to " + Who(r.party) + Via(" from ", Ours(r.line)) + " has "
    else "[otacon-voice] Incoming call from " + Who(r.party) + Via(" to ", Ours(r.line)) + " "
  }

  function CallSeconds(r: MissionReport): int { Seconds(r.endedAt - r.startedAt) }

  function Head(r: MissionReport): string
  {
    HeadStart(r) + "ended (" + OutcomeText(r.outcome) + ", " + IntString(CallSeconds(r)) + "s)."
  }

  /** The assistant's own summary, if it left one. */
  function Summary(r: MissionReport): Option<string>
  {
    if r.summary.Some? && Trim(r.summary.value) != "" then Some(Trim(r.summary.value)) else None
  }

  function Tldr(r: MissionReport): string
  {
    TLDR + match Summary(r) case Some(s) => Clip(s, SUMMARY_MAX) case None => NO_SUMMARY
  }

  function FullTranscript(r: MissionReport, o: ReportOptions): string
  {
    if o.saved then ""
    else
      "Full transcript: otacon_call_log with callId " + r.missionId
      + (match o.savedAt case Some(at) => " (saved at " + at + ")" case None => "") + "."
  }

  function Tail(o: ReportOptions): string { if o.saved then "" else TELL_USER }

  function Session(r: MissionReport): string { "Call session (where its consults ran): " + r.sessionKey }

  /** Longest goal: a third of what the fixed parts leave, but at least 200. */
  function GoalMax(fixed: seq<string>, max: nat): int
  {
    var third := (max - (|Join(fixed)| + 1)) / 3;
    if third > GOAL_MIN then third else GOAL_MIN
  }

  function Goal(brief: Option<string>, fixed: seq<string>, maxChars: Option<nat>): seq<string>
  {
    if brief.None? || brief.value == "" then []
    else match maxChars
      case None => ["Goal: " + brief.value]
      case Some(max) => ["Goal: " + Clip(brief.value, GoalMax(fixed, max))]
  }

  function Top(head: string, tldr: string, goal: seq<string>, full: string, session: string): seq<string>
  {
    [head, tldr] + goal + (if full == "" then [] else [full]) + [session]
  }

  /** Everything above the log. */
  function TopOf(r: MissionReport, o: ReportOptions): seq<string>
  {
    var fixed := [Head(r), Tldr(r), FullTranscript(r, o), Session(r), Tail(o)];
    Top(Head(r), Tldr(r), Goal(r.brief, fixed, o.maxChars), FullTranscript(r, o), Session(r))
  }

  lemma Pad2Reads(n: nat)
    ensures Digits(Pad2(n)) && |Pad2(n)| >= 2 && ParseNat(Pad2(n)) == n
    ensures n < 100 ==> |Pad2(n)| == 2
  {
    ParsePrinted(n);
    if n < 10 {
      assert ("0" + NatString(n))[..1] == "0" && "0"[..0] == "";
      assert ParseNat("0") == 0;
    } else {
      assert |NatString(n / 10)| >= 1 && (n < 100 ==> |NatString(n / 10)| == 1);
    }
  }

  /** A stamp reads as whole minutes and seconds, rounded half up, from the mission's start. */
  lemma StampIs(ms: int) returns (minutes: string, seconds: string)
    ensures Stamp(ms) == minutes + ":" + seconds
    ensures Digits(minutes) && |minutes| >= 2 && Digits(seconds) && |seconds| == 2
    ensures ParseNat(seconds) < 60
    ensures ParseNat(minutes) * 60 + ParseNat(seconds) == if ms < 0 then 0 else (ms + 500) / 1000
  {
    var s := if Seconds(ms) > 0 then Seconds(ms) else 0;
    minutes, seconds := Pad2(s / 60), Pad2(s % 60);
    Pad2Reads(s / 60);
    Pad2Reads(s % 60);
  }

  // ---- fitting the log ----

  function Room(top: seq<string>, tail: string, max: nat): int { max - |Join(top + [tail])| - 2 }

  /** The backward scan: the first line kept when lines[i..] are, at a cost of `used` so far. */
  function KeepFrom(lines: seq<string>, i: nat, used: nat, room: int): (k: nat)
    requires i <= |lines|
    ensures k <= i
  {
    if i > 0 && used + |lines[i - 1]| + 1 <= room then KeepFrom(lines, i - 1, used + |lines[i - 1]| + 1, room) else i
  }

  predicate TooLong(lines: seq<string>, room: int) { |Join(lines)| + |CALL_LOG| + 1 > room }

  /** Index of the first log line the report keeps. */
  function FirstKept(top: seq<string>, lines: seq<string>, tail: string, maxChars: Option<nat>): (k: nat)
    ensures k <= |lines|
  {
    if maxChars.None? || !TooLong(lines, Room(top, tail, maxChars.value)) then 0
    else KeepFrom(lines, |lines|, HEADING_ROOM, Room(top, tail, maxChars.value))
  }

  function Heading(kept: nat, all: nat): string
  {
    if kept == all then CALL_LOG else CutHeading(kept, all)
  }

  function CutHeading(kept: nat, all: nat): string
  {
    "Call log (the last " + NatString(kept) + " of " + NatString(all)
    + " entries; the earlier ones are in otacon_call_log):"
  }

  function LogSection(top: seq<string>, lines: seq<string>, tail: string, maxChars: Option<nat>): seq<string>
  {
    if lines == [] then []
    else
      var k := FirstKept(top, lines, tail, maxChars);
      [Heading(|lines| - k, |lines|)] + lines[k..]
  }

  function Layout(top: seq<string>, lines: seq<string>, tail: string, maxChars: Option<nat>): seq<string>
  {
    top + LogSection(top, lines, tail, maxChars) + if tail == "" then [] else [tail]
  }

  function FormatReport(r: MissionReport, o: ReportOptions): string
  {
    Join(Layout(TopOf(r, o), FormatLog(r.log), Tail(o), o.maxChars))
  }

  function FormatSavedReport(r: MissionReport): string { FormatReport(r, SAVED) }

  // ---- the kept log ----

  lemma CostLast(lines: seq<string>, j: nat, i: nat)
    requires j < i <= |lines|
    ensures Cost(lines[j..i]) == Cost(lines[j..i - 1]) + |lines[i - 1]| + 1
  {
    CostConcat(lines[j..i - 1], [lines[i - 1]]);
    assert lines[j..i] == lines[j..i - 1] + [lines[i - 1]];
  }

  lemma {:induction false} KeptFits(lines: seq<string>, i: nat, used: nat, room: int)
    requires i <= |lines|
    ensures var k := KeepFrom(lines, i, used, room); k < i ==> used + Cost(lines[k..i]) <= room
  {
    var k := KeepFrom(lines, i, used, room);
    if k < i {
      KeptFits(lines, i - 1, used + |lines[i - 1]| + 1, room);
      CostLast(lines, k, i);
    }
  }

  lemma {:induction false} EarlierDoesNotFit(lines: seq<string>, i: nat, used: nat, room: int, j: nat)
    requires i <= |lines| && j < KeepFrom(lines, i, used, room)
    ensures used + Cost(lines[j..i]) > room
  {
    CostLast(lines, j, i);
    if used + |lines[i - 1]| + 1 <= room { EarlierDoesNotFit(lines, i - 1, used + |lines[i - 1]| + 1, room, j); }
  }

  /** The log kept is the longest tail the budget allows: it fits, and no longer one does. */
  lemma KeepsLongestTail(top: seq<string>, lines: seq<string>, tail: string, max: nat)
    requires FirstKept(top, lines, tail, Some(max)) > 0
    ensures var k, room := FirstKept(top, lines, tail, Some(max)), max - |Join(top + [tail])| - 2;
            && (k < |lines| ==> HEADING_ROOM + Cost(lines[k..]) <= room)
            && forall j :: 0 <= j < k ==> HEADING_ROOM + Cost(lines[j..]) > room
  {
    var k, room := FirstKept(top, lines, tail, Some(max)), Room(top, tail, max);
    KeptFits(lines, |lines|, HEADING_ROOM, room);
    assert lines[k..|lines|] == lines[k..];
    forall j | 0 <= j < k ensures HEADING_ROOM + Cost(lines[j..]) > room {
      EarlierDoesNotFit(lines, |lines|, HEADING_ROOM, room, j);
      assert lines[j..|lines|] == lines[j..];
    }
  }

  /** A log cut to fit really is cut; one kept whole is kept because it fits. */
  lemma CutOrWhole(top: seq<string>, lines: seq<string>, tail: string, max: nat)
    requires lines != []
    ensures FirstKept(top, lines, tail, Some(max)) == 0 ==> Cost(lines) + |CALL_LOG| <= Room(top, tail, max)
  {
    var room := Room(top, tail, max);
    JoinLength(lines);
    KeptFits(lines, |lines|, HEADING_ROOM, room);
    assert lines[0..|lines|] == lines;
  }

  /** Without a limit, as in the saved transcript, every entry is there. */
  lemma NothingCut(r: MissionReport, o: ReportOptions)
    requires o.maxChars.None? && r.log != []
    ensures LogSection(TopOf(r, o), FormatLog(r.log), Tail(o), o.maxChars) == [CALL_LOG] + FormatLog(r.log)
  {
  }

  // ---- the length of a report ----

  lemma ClipLength(text: string, max: int)
    requires max >= 1
    ensures |Clip(text, max)| <= max
  {
  }

  lemma NatStringLength(n: nat)
    ensures n < 1000 ==> |NatString(n)| <= 3
    ensures n < 10000 ==> |NatString(n)| <= 4
  {
    assert |NatString(n)| <= 1 + if n < 10 then 0 else |NatString(n / 10)|;
    if n >= 10 {
      assert |NatString(n / 10)| <= 1 + if n / 10 < 10 then 0 else |NatString(n / 10 / 10)|;
      if n / 10 >= 10 {
        assert |NatString(n / 10 / 10)| <= 1 + if n / 100 < 10 then 0 else |NatString(n / 10 / 10 / 10)|;
      }
    }
  }

  lemma HeadingLength(kept: nat, all: nat)
    requires kept <= all < 10000
    ensures kept < 1000 ==> |Heading(kept, all)| <= 81
    ensures kept == 0 ==> |Heading(kept, all)| <= 79
  {
    NatStringLength(kept);
    NatStringLength(all);
    assert |NatString(0)| == 1;
  }

  ghost predicate NotTiny(lines: seq<string>) { forall i :: 0 <= i < |lines| ==> |lines[i]| >= 8 }

  lemma {:induction false} NotTinyCost(lines: seq<string>)
    requires NotTiny(lines)
    ensures Cost(lines) >= 9 * |lines|
  {
    if lines != [] { NotTinyCost(lines[1..]); }
  }

  lemma FewKept(top: seq<string>, lines: seq<string>, tail: string, max: nat)
    requires max <= 9000 && NotTiny(lines) && FirstKept(top, lines, tail, Some(max)) > 0
    ensures |lines| - FirstKept(top, lines, tail, Some(max)) < 1000
  {
    KeepsLongestTail(top, lines, tail, max);
    NotTinyCost(lines[FirstKept(top, lines, tail, Some(max))..]);
  }

  /** What is above the log and the closing line, with the line breaks between them. */
  function TopChars(top: seq<string>, tail: string): nat { |Join(top + [tail])| }

  lemma LayoutChars(top: seq<string>, lines: seq<string>, tail: string, maxChars: Option<nat>)
    requires tail != ""
    ensures |Join(Layout(top, lines, tail, maxChars))| == TopChars(top, tail) + Cost(LogSection(top, lines, tail, maxChars))
  {
    var log := LogSection(top, lines, tail, maxChars);
    JoinLength(top + log + [tail]);
    JoinLength(top + [tail]);
    CostConcat(top + log, [tail]);
    CostConcat(top, log);
    CostConcat(top, [tail]);
  }

  /** The heading a log no entry of which fits still gets. */
  function LoneHeading(top: seq<string>, lines: seq<string>, tail: string, max: nat): nat
  {
    if lines != [] && FirstKept(top, lines, tail, Some(max)) == |lines| then |Heading(0, |lines|)| + 1 else 0
  }

  /** A report fits exactly when what is above the log does, with the log's heading if no
      entry fits. */
  lemma FitsIff(top: seq<string>, lines: seq<string>, tail: string, max: nat)
    requires tail != "" && max <= 9000 && NotTiny(lines) && |lines| < 10000
    ensures |Join(Layout(top, lines, tail, Some(max)))| <= max <==>
      TopChars(top, tail) + LoneHeading(top, lines, tail, max) <= max
  {
    hide Layout, FirstKept, CutHeading, Join;
    LayoutChars(top, lines, tail, Some(max));
    if lines != [] {
      var k := FirstKept(top, lines, tail, Some(max));
      var heading := Heading(|lines| - k, |lines|);
      CostConcat([heading], lines[k..]);
      assert Cost([heading]) == |heading| + 1;
      if k == 0 {
        CutOrWhole(top, lines, tail, max);
        assert lines[0..] == lines;
      } else {
        KeepsLongestTail(top, lines, tail, max);
        FewKept(top, lines, tail, max);
        HeadingLength(|lines| - k, |lines|);
      }
    }
  }

  /** Head, transcript line and session line together, at most. */
  const MAX_FIXED := 1444

  lemma TopFits(head: string, tldr: string, full: string, session: string, tail: string, brief: Option<string>)
    requires |head| + |full| + |session| <= MAX_FIXED && |tldr| <= SUMMARY_MAX + 7 && |tail| == 58 && full != ""
    ensures var goal := Goal(brief, [head, tldr, full, session, tail], Some(REPORT_MAX_CHARS));
            TopChars(Top(head, tldr, goal, full, session), tail) <= 2920
  {
    var fixed := [head, tldr, full, session, tail];
    var goal := Goal(brief, fixed, Some(REPORT_MAX_CHARS));
    TopCost(head, tldr, goal, full, session, tail);
    FixedCost(head, tldr, full, session, tail);
    JoinLength(fixed);
    if goal != [] {
      ClipLength(brief.value, GoalMax(fixed, REPORT_MAX_CHARS));
      assert |goal[0]| <= 6 + GoalMax(fixed, REPORT_MAX_CHARS);
      assert Cost(goal) == |goal[0]| + 1;
    }
  }

  lemma FixedCost(head: string, tldr: string, full: string, session: string, tail: string)
    ensures Cost([head, tldr, full, session, tail]) == |head| + |tldr| + |full| + |session| + |tail| + 5
  {
    CostConcat([head, tldr], [full, session, tail]);
    CostConcat([head], [tldr]);
    CostConcat([full, session], [tail]);
    CostConcat([full], [session]);
    assert [head, tldr] + [full, session, tail] == [head, tldr, full, session, tail];
    assert [head] + [tldr] == [head, tldr];
    assert [full, session] + [tail] == [full, session, tail];
    assert [full] + [session] == [full, session];
    assert forall x: string :: Cost([x]) == |x| + 1;
  }

  lemma TopCost(head: string, tldr: string, goal: seq<string>, full: string, session: string, tail: string)
    requires full != ""
    ensures TopChars(Top(head, tldr, goal, full, session), tail)
         == Cost([head, tldr, full, session, tail]) - 1 + Cost(goal)
  {
    var a, b := [head, tldr], [full, session, tail];
    assert Top(head, tldr, goal, full, session) + [tail] == a + goal + b;
    assert [head, tldr, full, session, tail] == a + b;
    JoinLength(a + goal + b);
    CostConcat(a + goal, b);
    CostConcat(a, goal);
    CostConcat(a, b);
  }

  lemma LogIsNotTiny(log: seq<LogEntry>)
    ensures NotTiny(FormatLog(log))
  {
    forall i | 0 <= i < |log| ensures |FormatLog(log)[i]| >= 8 { EntryIsNotTiny(log[i]); }
  }

  lemma EntryIsNotTiny(e: LogEntry)
    ensures |FormatLogEntry(e)| >= 8
  {
    assert |Stamp(e.t)| >= 5;
  }

  lemma TldrLength(r: MissionReport)
    ensures |Tldr(r)| <= SUMMARY_MAX + 7
  {
    if Summary(r).Some? { ClipLength(Summary(r).value, SUMMARY_MAX); }
  }

  /** The delivered report fits for any summary, goal and log. */
  lemma DeliveredReportFits(r: MissionReport, savedAt: Option<string>)
    requires |Head(r)| + |FullTranscript(r, DEFAULT.(savedAt := savedAt))| + |Session(r)| <= MAX_FIXED
    requires |r.log| < 10000
    ensures |FormatReport(r, DEFAULT.(savedAt := savedAt))| <= REPORT_MAX_CHARS
  {
    var o := DEFAULT.(savedAt := savedAt);
    var lines := FormatLog(r.log);
    TldrLength(r);
    TopFits(Head(r), Tldr(r), FullTranscript(r, o), Session(r), Tail(o), r.brief);
    LogIsNotTiny(r.log);
    FitsIff(TopOf(r, o), lines, Tail(o), REPORT_MAX_CHARS);
    HeadingLength(0, |lines|);
  }

  /** The printer as the source runs it: filling the kept log backwards, pushing lines. */
  method KeepBackwards(lines: seq<string>, room: int) returns (kept: seq<string>)
    ensures kept == lines[KeepFrom(lines, |lines|, HEADING_ROOM, room)..]
  {
    kept := [];
    var used: nat, i: nat := HEADING_ROOM, |lines|;
    while i > 0 && used + |lines[i - 1]| + 1 <= room
      invariant 0 <= i <= |lines| && kept == lines[i..]
      invariant KeepFrom(lines, |lines|, HEADING_ROOM, room) == KeepFrom(lines, i, used, room)
    {
      i := i - 1;
      kept := [lines[i]] + kept;
      used := used + |lines[i]| + 1;
    }
  }

  lemma LayoutOfLog(top: seq<string>, lines: seq<string>, tail: string, maxChars: Option<nat>)
    requires lines != []
    ensures var kept := lines[FirstKept(top, lines, tail, maxChars)..];
            Layout(top, lines, tail, maxChars) ==
              top + [Heading(|kept|, |lines|)] + kept + if tail == "" then [] else [tail]
  {
    hide FirstKept, Heading;
  }

  lemma LayoutOfNone(top: seq<string>, tail: string, maxChars: Option<nat>)
    ensures Layout(top, [], tail, maxChars) == top + if tail == "" then [] else [tail]
  {
    hide FirstKept, Heading;
  }

  method PrintLayout(top: seq<string>, lines: seq<string>, tail: string, maxChars: Option<nat>) returns (out: seq<string>)
    ensures out == Layout(top, lines, tail, maxChars)
  {
    hide Join, KeepFrom, Heading, Layout;
    if |lines| > 0 { LayoutOfLog(top, lines, tail, maxChars); } else { LayoutOfNone(top, tail, maxChars); }
    out := top;
    if |lines| > 0 {
      var kept := lines;
      if maxChars.Some? {
        var room := maxChars.value - |Join(out + [tail])| - 2;
        if |Join(lines)| + |CALL_LOG| + 1 > room { kept := KeepBackwards(lines, room); }
      }
      assert kept == lines[FirstKept(top, lines, tail, maxChars)..];
      out := out + [Heading(|kept|, |lines|)] + kept;
    }
    if tail != "" { out := out + [tail]; }
  }

  method PrintReport(r: MissionReport, o: ReportOptions) returns (text: string)
    ensures text == FormatReport(r, o)
  {
    var out := PrintLayout(TopOf(r, o), FormatLog(r.log), Tail(o), o.maxChars);
    text := Join(out);
  }

  // ---- how a report reads ----

  /** The head names the other party, with its number unless that is its name, and our line, with
      its number if it has one, or no line. */
  lemma HeadIs(r: MissionReport)
    ensures var who := if r.party.name == r.party.number then r.party.number else r.party.name + " (" + r.party.number + ")";
            var ours := if r.line.None? then ""
                        else if r.line.value.number.None? || r.line.value.number.value == "" then r.line.value.id
                        else r.line.value.id + " (" + r.line.value.number.value + ")";
            var end := "ended (" + OutcomeText(r.outcome) + ", " + IntString((r.endedAt - r.startedAt + 500) / 1000) + "s).";
            Head(r) == if r.direction == Outbound
                       then "[otacon-voice] The phone call you placed to " + who + (if ours == "" then "" else " from " + ours) + " has " + end
                       else "[otacon-voice] Incoming call from " + who + (if ours == "" then "" else " to " + ours) + " " + end
  {
    var start := HeadStart(r);
    HeadEnds(start, OutcomeText(r.outcome), IntString(CallSeconds(r)));
    OursIs(r.line);
    HeadAround(Who(r.party), Ours(r.line), "ended (" + OutcomeText(r.outcome) + ", " + IntString(CallSeconds(r)) + "s).");
    hide Ours, OutcomeText, IntString;
  }

  lemma OursIs(line: Option<OurLine>)
    ensures Ours(line) ==
              if line.None? then ""
              else if line.value.number.None? || line.value.number.value == "" then line.value.id
              else line.value.id + " (" + line.value.number.value + ")"
  {
    if line.Some? { assert line.value.id + "" == line.value.id; }
  }

  lemma HeadAround(who: string, ours: string, end: string)
    ensures "[otacon-voice] The phone call you placed to " + who + Via(" from ", ours) + " has " + end
         == "[otacon-voice] The phone call you placed to " + who + (if ours == "" then "" else " from " + ours) + " has " + end
    ensures "[otacon-voice] Incoming call from " + who + Via(" to ", ours) + " " + end
         == "[otacon-voice] Incoming call from " + who + (if ours == "" then "" else " to " + ours) + " " + end
  {
  }

  lemma HeadEnds(start: string, outcome: string, seconds: string)
    ensures start + "ended (" + outcome + ", " + seconds + "s)." == start + ("ended (" + outcome + ", " + seconds + "s).")
  {
  }

  /** A text is cut only if it is too long, and then to what fits with an ellipsis, without the
      white space before it. */
  lemma ClipMeans(text: string, max: int) returns (k: nat)
    requires max >= 1
    ensures if |text| <= max then Clip(text, max) == text
            else k < max && Clip(text, max) == text[..k] + "…" && (k > 0 ==> !IsSpace(text[k - 1]))
                 && forall i :: k <= i < max - 1 ==> IsSpace(text[i])
  {
    k := 0;
    if |text| > max { k := TrimEndIs(text[..max - 1]); }
  }

  /** The summary is what the assistant left, without the white space around it, if there is more
      to it, and is told clipped to 1,200 characters; if there is none, that is told. */
  lemma SummaryMeans(r: MissionReport) returns (i: nat, j: nat)
    ensures if r.summary.None? || (forall k :: 0 <= k < |r.summary.value| ==> IsSpace(r.summary.value[k]))
            then Summary(r) == None
                 && Tldr(r) == "TL;DR: " + ("none; the call ended before" + " the assistant summed it up. Read the log.")
            else i < j && IsTrimmed(r.summary.value, i, j) && Summary(r) == Some(r.summary.value[i..j])
                 && Tldr(r) == "TL;DR: " + Clip(r.summary.value[i..j], 1200)
  {
    i, j := 0, 0;
    if r.summary.Some? { i, j := TrimIs(r.summary.value); }
    hide Trim, Clip;
  }

  /** The goal is told whole if it is no longer than 200 characters or a third of what the other
      lines leave, and is cut to the larger of these if it is. */
  lemma GoalMeans(brief: Option<string>, fixed: seq<string>, max: nat) returns (k: int)
    requires brief.Some? && brief.value != ""
    ensures 3 * k <= max - |Join(fixed)| - 1 < 3 * (k + 1)
    ensures Goal(brief, fixed, Some(max)) ==
              ["Goal: " + if |brief.value| <= 200 || |brief.value| <= k then brief.value else Clip(brief.value, if k < 200 then 200 else k)]
  {
    k := (max - |Join(fixed)| - 1) / 3;
    hide Join;
    assert GoalMax(fixed, max) == if k > 200 then k else 200;
  }

  /** The log is told whole exactly if it fits. */
  lemma WholeIff(top: seq<string>, lines: seq<string>, tail: string, max: nat)
    requires lines != []
    ensures FirstKept(top, lines, tail, Some(max)) == 0 <==> |Join(top + [tail])| + 2 + |"Call log:"| + Cost(lines) <= max
  {
    CutOrWhole(top, lines, tail, max);
    JoinLength(lines);
  }

  /** The lines of a report in their order. */
  function InOrder(top: seq<string>, goal: seq<string>, full: seq<string>, session: string, log: seq<string>, tail: seq<string>): seq<string>
  {
    top + goal + full + [session] + log + tail
  }

  /** A report's lines: the head, the summary, the goal if there is one, where the full transcript
      is, the session, the end of the log under a heading that says whether it is all of it, and
      what to do. A saved report is all there and has neither the pointer nor the request. */
  lemma ReportReads(r: MissionReport, o: ReportOptions)
    returns (goal: seq<string>, full: seq<string>, session: string, log: seq<string>, tail: seq<string>, k: nat)
    ensures FormatReport(r, o) == Join(InOrder([Head(r), Tldr(r)], goal, full, session, log, tail))
    ensures goal == [] <==> r.brief.None? || r.brief.value == ""
    ensures goal != [] && (o.maxChars.None? || |r.brief.value| <= 200) ==> goal == ["Goal: " + r.brief.value]
    ensures full == if o.saved then []
                    else ["Full transcript: otacon_call_log with callId " + r.missionId
                          + (if o.savedAt.None? then "" else " (saved at " + o.savedAt.value + ")") + "."]
    ensures session == "Call session (where its consults ran): " + r.sessionKey
    ensures k <= |r.log| && (o.maxChars.None? ==> k == 0)
    ensures log == if r.log == [] then [] else [Heading(|r.log| - k, |r.log|)] + FormatLog(r.log)[k..]
    ensures Heading(|r.log| - k, |r.log|) ==
              if k == 0 then "Call log:"
              else "Call log (the last " + NatString(|r.log| - k) + " of " + NatString(|r.log|)
                   + " entries; the earlier ones are in otacon_call_log):"
    ensures tail == if o.saved then [] else ["Tell the user how the call went if they're waiting for it."]
  {
    var fixed := [Head(r), Tldr(r), FullTranscript(r, o), Session(r), Tail(o)];
    goal := Goal(r.brief, fixed, o.maxChars);
    k := FirstKept(TopOf(r, o), FormatLog(r.log), Tail(o), o.maxChars);
    full := if FullTranscript(r, o) == "" then [] else [FullTranscript(r, o)];
    session := Session(r);
    log := LogSection(TopOf(r, o), FormatLog(r.log), Tail(o), o.maxChars);
    tail := if Tail(o) == "" then [] else [Tail(o)];
    ShortGoal(r.brief, fixed, o.maxChars);
    FullIs(r, o);
    HeadingIs(|r.log| - k, |r.log|);
    KeptWhole(TopOf(r, o), FormatLog(r.log), Tail(o), o.maxChars);
    hide Join, Head, Tldr, Goal, FirstKept, FormatLog, FullTranscript, Heading, NatString, Tail, Session;
    assert TopOf(r, o) == [Head(r), Tldr(r)] + goal + full + [session];
    hide TopOf;
    assert Tail(o) == "" <==> o.saved;
  }

  lemma KeptWhole(top: seq<string>, lines: seq<string>, tail: string, maxChars: Option<nat>)
    ensures maxChars.None? ==> FirstKept(top, lines, tail, maxChars) == 0
  {
  }

  lemma HeadingIs(kept: nat, all: nat)
    ensures Heading(kept, all) ==
              if kept == all then "Call log:"
              else "Call log (the last " + NatString(kept) + " of " + NatString(all)
                   + " entries; the earlier ones are in otacon_call_log):"
  {
    hide NatString;
  }

  lemma FullIs(r: MissionReport, o: ReportOptions)
    ensures Tail(o) == if o.saved then "" else "Tell the user how the call went if they're waiting for it."
    ensures FullTranscript(r, o) == "" <==> o.saved
    ensures !o.saved ==> FullTranscript(r, o)
                         == "Full transcript: otacon_call_log with callId " + r.missionId
                            + (if o.savedAt.None? then "" else " (saved at " + o.savedAt.value + ")") + "."
  {
  }

  lemma ShortGoal(brief: Option<string>, fixed: seq<string>, maxChars: Option<nat>)
    ensures var goal := Goal(brief, fixed, maxChars);
            && (goal == [] <==> brief.None? || brief.value == "")
            && (goal != [] && (maxChars.None? || |brief.value| <= 200) ==> goal == ["Goal: " + brief.value])
  {
    hide Join;
  }
}
