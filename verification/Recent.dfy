/** Earlier calls with the same number (recent.ts): the recap of a call built from its report
    in memory, and the one parsed back from the report's saved text. */
module Recent {
  import opened Wrappers
  import opened Text
  import opened Report

  datatype EarlierCall = EarlierCall(
    endedAt: int,
    seconds: int,
    direction: Direction,
    summary: Option<string>,
    lastLines: seq<string>)

  const LAST_LINES := 4
  const MAX_LINE_CHARS := 200
  const INCOMING := "[otacon-voice] Incoming call"

  // ---- the pieces of the parser ----

  /** White space runs become single spaces. */
  function Collapse(s: string): string
    decreases |s|
  {
    if s == "" then ""
    else if IsSpace(s[0]) then " " + Collapse(TrimStart(s[1..]))
    else [s[0]] + Collapse(s[1..])
  }

  function ClipLine(text: string): string
  {
    var flat := Trim(Collapse(text));
    if |flat| <= MAX_LINE_CHARS then flat else TrimEnd(flat[..MAX_LINE_CHARS - 1]) + "…"
  }

  /** What follows "[...] " at the start of a text. */
  function AfterBracket(s: string): Option<string>
  {
    if After(s, "[").None? then None else AfterClose(After(s, "[").value)
  }

  function AfterClose(s: string): Option<string>
  {
    if s == "" then None
    else if s[0] == ']' then After(s, "] ")
    else AfterClose(s[1..])
  }

  /** What follows "[line 12] " at the start of a text. */
  function AfterLineTag(s: string): Option<string>
  {
    var t := After(s, "[line ");
    if t.None? then None
    else
      var n := DigitRun(t.value);
      if n == 0 then None else After(t.value[n..], "] ")
  }

  /** A log line without its time and line number. */
  function Unstamped(s: string): string
  {
    var t := AfterBracket(s);
    if t.None? then s
    else
      var u := AfterLineTag(t.value);
      if u.Some? then u.value else t.value
  }

  /** What follows "[05:07] " at the start of a text. */
  function AfterStamp(s: string): Option<string>
  {
    var t := After(s, "[");
    if t.None? then None
    else
      var n := DigitRun(t.value);
      if n == 0 then None
      else
        var u := After(t.value[n..], ":");
        if u.None? || |u.value| < 2 || !IsDigit(u.value[0]) || !IsDigit(u.value[1]) then None
        else After(u.value[2..], "] ")
  }

  predicate IsDash(s: string) { StartsWith(s, "—") }

  /** A line of the log that something said, not an event. */
  predicate IsSaid(s: string)
  {
    var t := AfterStamp(s);
    && t.Some? && !IsDash(t.value)
    && (AfterLineTag(t.value).Some? ==> !IsDash(AfterLineTag(t.value).value))
  }

  function SaidLines(lines: seq<string>): seq<string>
  {
    if lines == [] then []
    else (if IsSaid(lines[0]) then [lines[0]] else []) + SaidLines(lines[1..])
  }

  function Said(log: seq<LogEntry>): seq<LogEntry>
  {
    if log == [] then []
    else (if log[0].kind != Happened then [log[0]] else []) + Said(log[1..])
  }

  function LastFour<T>(s: seq<T>): seq<T> { s[if |s| > LAST_LINES then |s| - LAST_LINES else 0..] }

  function Recaps(lines: seq<string>): (r: seq<string>)
    ensures |r| == |lines|
  {
    if lines == [] then [] else [ClipLine(Unstamped(lines[0]))] + Recaps(lines[1..])
  }

  /** The first phone number in a text: '+' and 7 to 15 digits. */
  function FirstNumber(s: string): Option<string>
  {
    if s == "" then None
    else if s[0] == '+' && DigitRun(s[1..]) >= 7 then
      var n := DigitRun(s[1..]);
      Some(s[..1 + if n < 15 then n else 15])
    else FirstNumber(s[1..])
  }

  /** A head that says the call ended after d seconds. */
  ghost predicate EndsAfter(head: string, d: string)
  {
    Digits(d) && d != "" && exists a, o :: EndedMatch(head, a, o, d)
  }

  ghost predicate EndedMatch(head: string, a: string, o: string, d: string)
  {
    o != "" && ',' !in o && head == a + "ended (" + o + ", " + d + "s)."
  }

  ghost function EndedSeconds(head: string): nat
  {
    if exists d :: EndsAfter(head, d) then (var d :| EndsAfter(head, d); ParseNat(d)) else 0
  }

  function FirstTldr(lines: seq<string>): Option<string>
  {
    if lines == [] then None
    else if StartsWith(lines[0], TLDR) then Some(Trim(lines[0][|TLDR|..]))
    else FirstTldr(lines[1..])
  }

  function ParsedSummary(tldr: Option<string>): Option<string>
  {
    if tldr.None? || tldr.value == "" || StartsWith(tldr.value, NO_TLDR) then None else tldr
  }

  ghost function EarlierCallFromSaved(text: string, savedAt: int, number: string): Option<EarlierCall>
  {
    var lines := Split(text);
    if FirstNumber(lines[0]) != Some(number) then None
    else Some(EarlierCall(
                savedAt,
                EndedSeconds(lines[0]),
                if StartsWith(lines[0], INCOMING) then Inbound else Outbound,
                ParsedSummary(FirstTldr(lines)),
                Recaps(LastFour(SaidLines(lines)))))
  }

  function EarlierCallFromReport(r: MissionReport): EarlierCall
  {
    EarlierCall(r.endedAt, CallSeconds(r), r.direction, Summary(r), Recaps(FormatLog(LastFour(Said(r.log)))))
  }

  // ---- what the printer's reports must not hold ----

  predicate IsNumber(s: string)
  {
    8 <= |s| <= 16 && s[0] == '+' && DigitRun(s[1..]) == |s| - 1
  }

  /** Texts without line breaks, and speakers that don't look like an event's dash or a line
      number. */
  predicate EntryReadable(e: LogEntry)
  {
    OneLine(e.who) && OneLine(e.text)
    && (e.kind != Happened ==> !IsDash(e.who) && !StartsWith(e.who, "[line "))
  }

  predicate Readable(r: MissionReport)
  {
    && OneLine(Head(r)) && OneLine(Tldr(r)) && OneLine(Session(r))
    && (r.brief.Some? ==> OneLine(r.brief.value))
    && (forall i :: 0 <= i < |r.log| ==> EntryReadable(r.log[i]))
    && IsNumber(r.party.number)
    && r.startedAt <= r.endedAt
  }

  /** The party's name holds no other party's number. */
  predicate NameIsClear(p: Party)
  {
    p.name == p.number || FirstNumber(p.name).None? || FirstNumber(p.name) == Some(p.number)
  }

  /** The summary was printed whole and doesn't read like the note that there is none. */
  predicate SummaryIsClear(r: MissionReport)
  {
    Summary(r).Some? ==> |Summary(r).value| <= 1200 && !StartsWith(Summary(r).value, NO_TLDR)
  }

  // ---- the head ----

  lemma DigitRunConcat(a: string, b: string)
    requires b != "" ==> !IsDigit(b[0])
    ensures DigitRun(a + b) == DigitRun(a)
  {
    var n := DigitRun(a);
    assert a + b == a[..n] + (a[n..] + b);
    DigitRunIs(a[..n], a[n..] + b);
  }

  /** A number doesn't straddle a place where no digit follows. */
  lemma {:induction false} FirstNumberConcat(a: string, b: string)
    requires b != "" ==> !IsDigit(b[0])
    ensures FirstNumber(a + b) == if FirstNumber(a).Some? then FirstNumber(a) else FirstNumber(b)
  {
    if a == "" {
      assert a + b == b;
    } else {
      hide DigitRun;
      assert (a + b)[1..] == a[1..] + b;
      DigitRunConcat(a[1..], b);
      FirstNumberConcat(a[1..], b);
      assert forall k :: 0 <= k <= |a| ==> (a + b)[..k] == a[..k];
    }
  }

  lemma {:induction false} NoPlusNoNumber(s: string)
    requires '+' !in s
    ensures FirstNumber(s).None?
  {
    if s != "" { NoPlusNoNumber(s[1..]); }
  }

  lemma NumberIsFirst(n: string, b: string)
    requires IsNumber(n) && (b != "" ==> !IsDigit(b[0]))
    ensures FirstNumber(n + b) == Some(n)
  {
    hide DigitRun;
    assert (n + b)[1..] == n[1..] + b;
    DigitRunConcat(n[1..], b);
    assert (n + b)[..|n|] == n;
  }

  lemma FirstNumberOfWho(p: Party, pre: string, post: string)
    requires IsNumber(p.number) && '+' !in pre && post != "" && !IsDigit(post[0])
    ensures FirstNumber(pre + (Who(p) + post)) == Some(p.number) <==> NameIsClear(p)
  {
    var n := p.number;
    if p.name == n {
      NumberIsFirst(n, post);
      NoPlusNoNumber(pre);
      FirstNumberConcat(pre, n + post);
    } else {
      var rest := " (" + (n + (")" + post));
      assert Who(p) + post == p.name + rest;
      NumberIsFirst(n, ")" + post);
      NoPlusNoNumber(" (");
      FirstNumberConcat(" (", n + (")" + post));
      FirstNumberConcat(p.name, rest);
      NoPlusThen(pre, p.name + rest);
    }
  }

  lemma {:induction false} NoPlusThen(pre: string, s: string)
    requires '+' !in pre
    ensures FirstNumber(pre + s) == FirstNumber(s)
  {
    if pre == "" {
      assert pre + s == s;
    } else {
      assert (pre + s)[1..] == pre[1..] + s;
      NoPlusThen(pre[1..], s);
    }
  }

  function HeadEnd(r: MissionReport): string
  {
    "ended (" + OutcomeText(r.outcome) + ", " + IntString(CallSeconds(r)) + "s)."
  }

  lemma Around(pre: string, who: string, via: string, mid: string, end: string)
    ensures pre + who + via + mid + end == pre + (who + (via + (mid + end)))
  {
  }

  lemma AfterWho(word: string, ours: string, mid: string, end: string)
    requires word != "" && !IsDigit(word[0]) && mid != "" && !IsDigit(mid[0])
    ensures var post := Via(word, ours) + (mid + end); post != "" && !IsDigit(post[0])
  {
  }

  lemma NoPlusInHeads()
    ensures '+' !in "[otacon-voice] The phone call you placed to "
    ensures '+' !in "[otacon-voice] Incoming call from "
  {
  }

  /** The head around the party. */
  lemma HeadParts(r: MissionReport) returns (pre: string, post: string)
    ensures Head(r) == pre + (Who(r.party) + post)
    ensures '+' !in pre && post != "" && !IsDigit(post[0])
    ensures pre == if r.direction == Outbound
                   then "[otacon-voice] The phone call you placed to "
                   else "[otacon-voice] Incoming call from "
  {
    NoPlusInHeads();
    var from, mid;
    if r.direction == Outbound {
      pre, from, mid := "[otacon-voice] The phone call you placed to ", " from ", " has ";
    } else {
      pre, from, mid := "[otacon-voice] Incoming call from ", " to ", " ";
    }
    post := Via(from, Ours(r.line)) + (mid + HeadEnd(r));
    Around(pre, Who(r.party), Via(from, Ours(r.line)), mid, HeadEnd(r));
    AfterWho(from, Ours(r.line), mid, HeadEnd(r));
    HeadAssociates(HeadStart(r), OutcomeText(r.outcome), IntString(CallSeconds(r)));
  }

  lemma HeadAssociates(a: string, o: string, n: string)
    ensures a + "ended (" + o + ", " + n + "s)." == a + ("ended (" + o + ", " + n + "s).")
  {
  }

  lemma HeadNumber(r: MissionReport)
    requires IsNumber(r.party.number)
    ensures FirstNumber(Head(r)) == Some(r.party.number) <==> NameIsClear(r.party)
  {
    var pre, post := HeadParts(r);
    FirstNumberOfWho(r.party, pre, post);
  }

  lemma StartOfHead(pre: string, rest: string, start: string)
    requires 1 < |start| <= |pre|
    ensures StartsWith(pre + rest, start) <==> start == pre[..|start|]
    ensures (pre + rest)[0] == pre[0] && (pre + rest)[1] == pre[1]
  {
    assert (pre + rest)[..|start|] == pre[..|start|];
  }

  lemma HeadsBegin(outbound: string, inbound: string)
    requires outbound == "[otacon-voice] The phone call you placed to " && inbound == INCOMING + " from "
    ensures outbound[0] == '[' == inbound[0] && outbound[1] == 'o' == inbound[1]
    ensures outbound[..|INCOMING|] != INCOMING == inbound[..|INCOMING|]
  {
    assert outbound[15] == 'T' && INCOMING[15] == 'I';
  }

  lemma HeadDirection(r: MissionReport)
    ensures StartsWith(Head(r), INCOMING) <==> r.direction == Inbound
    ensures |Head(r)| > 1 && Head(r)[0] == '[' && Head(r)[1] == 'o'
  {
    hide Head, Who;
    var pre, post := HeadParts(r);
    HeadsBegin("[otacon-voice] The phone call you placed to ", "[otacon-voice] Incoming call from ");
    StartOfHead(pre, Who(r.party) + post, INCOMING);
  }

  /** Wherever the match starts, the seconds it captures are those after the last comma. */
  lemma EndedUnique(head: string, a: string, o: string, d: string, a': string, o': string, d': string)
    requires Digits(d) && EndedMatch(head, a, o, d) && Digits(d') && EndedMatch(head, a', o', d')
    ensures d == d'
  {
    var c, c' := |a| + 7 + |o|, |a'| + 7 + |o'|;
    CommaThenDigits(head, a, o, d);
    CommaThenDigits(head, a', o', d');
    assert c == c';
    assert d == head[c + 2..|head| - 3] && d' == head[c' + 2..|head| - 3];
  }

  lemma CommaThenDigits(head: string, a: string, o: string, d: string)
    requires Digits(d) && EndedMatch(head, a, o, d)
    ensures var c := |a| + 7 + |o|;
            && c + 5 <= |head| && head[c] == ',' && head[c + 2..|head| - 3] == d
            && forall i :: c < i < |head| ==> head[i] != ','
  {
    var c := |a| + 7 + |o|;
    var before := a + "ended (" + o;
    assert |before| == c && head == before + (", " + d + "s).");
    forall i | c < i < |head| ensures head[i] != ',' {
      assert head[i] == (", " + d + "s).")[i - c];
    }
  }

  lemma HeadSeconds(r: MissionReport)
    requires r.startedAt <= r.endedAt
    ensures EndedSeconds(Head(r)) == CallSeconds(r)
  {
    var o, d := OutcomeText(r.outcome), NatString(CallSeconds(r));
    assert EndedMatch(Head(r), HeadStart(r), o, d);
    assert EndsAfter(Head(r), d);
    forall d' | EndsAfter(Head(r), d') ensures d' == d {
      var a', o' :| EndedMatch(Head(r), a', o', d');
      EndedUnique(Head(r), HeadStart(r), o, d, a', o', d');
    }
    ParsePrinted(CallSeconds(r));
  }

  // ---- the log ----

  lemma StampShape(ms: int) returns (minutes: string, seconds: string)
    ensures Stamp(ms) == minutes + ":" + seconds
    ensures Digits(minutes) && minutes != "" && Digits(seconds) && |seconds| == 2
  {
    minutes, seconds := StampIs(ms);
  }

  lemma StampRead(m: string, s: string, rest: string)
    requires Digits(m) && m != "" && Digits(s) && |s| == 2
    ensures AfterStamp("[" + m + ":" + s + "] " + rest) == Some(rest)
  {
    var t := m + (":" + (s + ("] " + rest)));
    assert "[" + m + ":" + s + "] " + rest == "[" + t;
    AfterPrefix("[", t);
    DigitRunIs(m, ":" + (s + ("] " + rest)));
    AfterPrefix(":", s + ("] " + rest));
    AfterPrefix("] ", rest);
  }

  lemma Regrouped(open: string, m: string, colon: string, s: string, close: string, tag: string, body: string)
    ensures open + (m + colon + s) + close + tag + body == open + m + colon + s + close + (tag + body)
  {
  }

  lemma EntryAfterStamp(e: LogEntry)
    ensures AfterStamp(FormatLogEntry(e)) == Some(LineTag(e.line) + Body(e))
  {
    hide AfterStamp, Stamp, LineTag, Body;
    var m, s := StampShape(e.t);
    var rest := LineTag(e.line) + Body(e);
    StampRead(m, s, rest);
    Regrouped("[", m, ":", s, "] ", LineTag(e.line), Body(e));
  }

  lemma TagThenBody(line: nat, body: string)
    requires line != 0
    ensures AfterLineTag(LineTag(line) + body) == Some(body) && !IsDash(LineTag(line) + body)
  {
    hide NatString, DigitRun;
    var n := NatString(line);
    assert LineTag(line) + body == "[line " + (n + ("] " + body));
    AfterPrefix("[line ", n + ("] " + body));
    DigitRunIs(n, "] " + body);
    AfterPrefix("] ", body);
  }

  lemma SpeakerIsNoTag(who: string, text: string)
    requires !IsDash(who) && !StartsWith(who, "[line ")
    ensures !IsDash(who + ": " + text) && AfterLineTag(who + ": " + text).None?
  {
    NoTag(who, text);
    assert (who + ": " + text)[0] == if who == "" then ':' else who[0];
  }

  lemma NoTag(who: string, text: string)
    requires !StartsWith(who, "[line ")
    ensures AfterLineTag(who + ": " + text).None?
  {
    var b := who + ": " + text;
    assert b[|who|] == ':';
    if |who| >= 6 {
      assert b[..6] == who[..6];
    } else {
      assert "[line "[|who|] != ':';
    }
  }

  /** A log entry's line is read back as something said exactly when it was. */
  lemma EntryIsSaid(e: LogEntry)
    requires EntryReadable(e)
    ensures IsSaid(FormatLogEntry(e)) <==> e.kind != Happened
  {
    EntryAfterStamp(e);
    if e.line != 0 {
      TagThenBody(e.line, Body(e));
      if e.kind != Happened { SpeakerIsNoTag(e.who, e.text); }
    } else {
      assert LineTag(e.line) + Body(e) == Body(e);
      if e.kind != Happened { SpeakerIsNoTag(e.who, e.text); }
    }
  }

  lemma {:induction false} SaidConcat(a: seq<string>, b: seq<string>)
    ensures SaidLines(a + b) == SaidLines(a) + SaidLines(b)
  {
    if a == [] {
      assert a + b == b;
    } else {
      hide IsSaid;
      assert (a + b)[0] == a[0] && (a + b)[1..] == a[1..] + b;
      SaidConcat(a[1..], b);
      var first := if IsSaid(a[0]) then [a[0]] else [];
      assert first + (SaidLines(a[1..]) + SaidLines(b)) == SaidLines(a) + SaidLines(b);
    }
  }

  lemma {:induction false} SaidInLog(log: seq<LogEntry>)
    requires forall i :: 0 <= i < |log| ==> EntryReadable(log[i])
    ensures SaidLines(FormatLog(log)) == FormatLog(Said(log))
  {
    if log != [] {
      EntryIsSaid(log[0]);
      SaidInLog(log[1..]);
      assert FormatLog(log)[1..] == FormatLog(log[1..]);
    }
  }

  /** A line that doesn't begin with "[" and a digit is no log line. */
  lemma NotSaid(s: string)
    requires s == "" || s[0] != '[' || (|s| > 1 && !IsDigit(s[1]))
    ensures !IsSaid(s)
  {
  }

  lemma {:induction false} NoneSaid(lines: seq<string>)
    requires forall i :: 0 <= i < |lines| ==> !IsSaid(lines[i])
    ensures SaidLines(lines) == []
  {
    if lines != [] { NoneSaid(lines[1..]); }
  }

  lemma {:induction false} FormatLogFrom(log: seq<LogEntry>, i: nat)
    requires i <= |log|
    ensures FormatLog(log)[i..] == FormatLog(log[i..])
  {
    hide FormatLog, FormatLogEntry;
    forall k | 0 <= k < |log| - i ensures FormatLog(log)[i..][k] == FormatLog(log[i..])[k] {
      assert log[i..][k] == log[i + k];
    }
  }

  lemma {:induction false} LastFourFormatted(log: seq<LogEntry>)
    ensures LastFour(FormatLog(log)) == FormatLog(LastFour(log))
  {
    FormatLogFrom(log, if |log| > LAST_LINES then |log| - LAST_LINES else 0);
  }

  // ---- the summary ----

  lemma TrimWhole(s: string)
    requires s != "" && !IsSpace(s[0]) && !IsSpace(s[|s| - 1])
    ensures Trim(s) == s
  {
  }

  lemma ParsedTldr(r: MissionReport)
    ensures ParsedSummary(Some(Trim(Tldr(r)[|TLDR|..]))) == Summary(r) <==> SummaryIsClear(r)
  {
    var x := Tldr(r)[|TLDR|..];
    if Summary(r).Some? {
      var s := Summary(r).value;
      TrimTrimmed(r.summary.value);
      assert x == Clip(s, SUMMARY_MAX);
      ClipLength(s, SUMMARY_MAX);
    } else {
      assert x == NO_SUMMARY;
      TrimWhole(NO_SUMMARY);
      assert NO_SUMMARY[..|NO_TLDR|] == NO_TLDR;
    }
  }

  // ---- printing and parsing agree ----

  /** The lines of a saved report. */
  function SavedLines(r: MissionReport): seq<string> { Layout(TopOf(r, SAVED), FormatLog(r.log), "", None) }

  function GoalLine(r: MissionReport): seq<string>
  {
    if r.brief.None? || r.brief.value == "" then [] else ["Goal: " + r.brief.value]
  }

  lemma SavedShape(r: MissionReport)
    ensures var log := if r.log == [] then [] else [CALL_LOG] + FormatLog(r.log);
            SavedLines(r) == [Head(r)] + ([Tldr(r)] + (GoalLine(r) + [Session(r)] + log))
  {
    hide FormatLog, Head, Tldr, Session;
    assert FormatLog(r.log)[0..] == FormatLog(r.log);
    Above(Head(r), Tldr(r), GoalLine(r), Session(r), if r.log == [] then [] else [CALL_LOG] + FormatLog(r.log));
  }

  lemma Above(head: string, tldr: string, goal: seq<string>, session: string, log: seq<string>)
    ensures Top(head, tldr, goal, "", session) + log + [] == [head] + ([tldr] + (goal + [session] + log))
  {
  }

  lemma EntryOneLine(e: LogEntry)
    requires EntryReadable(e)
    ensures OneLine(FormatLogEntry(e))
  {
    var m, s := StampShape(e.t);
    assert OneLine(m) && OneLine(s) && OneLine(NatString(e.line));
    assert OneLine(LineTag(e.line)) && OneLine(Body(e));
  }

  ghost predicate OneLiners(lines: seq<string>) { forall i :: 0 <= i < |lines| ==> OneLine(lines[i]) }

  lemma OneLinersConcat(a: seq<string>, b: seq<string>)
    requires OneLiners(a) && OneLiners(b)
    ensures OneLiners(a + b)
  {
  }

  lemma GoalOneLine(r: MissionReport)
    requires r.brief.Some? ==> OneLine(r.brief.value)
    ensures OneLiners(GoalLine(r))
  {
  }

  lemma SavedSplits(r: MissionReport)
    requires Readable(r)
    ensures Split(FormatSavedReport(r)) == SavedLines(r)
  {
    hide Head, Tldr, Session, GoalLine, FormatLog, FormatLogEntry, Layout;
    SavedShape(r);
    forall i | 0 <= i < |r.log| ensures OneLine(FormatLog(r.log)[i]) { EntryOneLine(r.log[i]); }
    GoalOneLine(r);
    var log := if r.log == [] then [] else [CALL_LOG] + FormatLog(r.log);
    OneLinersConcat([CALL_LOG], FormatLog(r.log));
    OneLinersConcat(GoalLine(r), [Session(r)]);
    OneLinersConcat(GoalLine(r) + [Session(r)], log);
    OneLinersConcat([Tldr(r)], GoalLine(r) + [Session(r)] + log);
    OneLinersConcat([Head(r)], [Tldr(r)] + (GoalLine(r) + [Session(r)] + log));
    SplitJoin(SavedLines(r));
  }

  lemma SaidPast(line: string, rest: seq<string>)
    requires !IsSaid(line)
    ensures SaidLines([line] + rest) == SaidLines(rest)
  {
  }

  lemma SavedSaid(r: MissionReport)
    requires Readable(r)
    ensures SaidLines(SavedLines(r)) == FormatLog(Said(r.log))
  {
    hide Head, Tldr, Session, GoalLine, FormatLog, FormatLogEntry, SavedLines, IsSaid, Said;
    SavedShape(r);
    TopNotSaid(r);
    var log := if r.log == [] then [] else [CALL_LOG] + FormatLog(r.log);
    SaidPast(Head(r), [Tldr(r)] + (GoalLine(r) + [Session(r)] + log));
    SaidPast(Tldr(r), GoalLine(r) + [Session(r)] + log);
    assert GoalLine(r) + [Session(r)] + log == GoalLine(r) + ([Session(r)] + log);
    SaidConcat(GoalLine(r), [Session(r)] + log);
    SaidPast(Session(r), log);
    SaidPast(CALL_LOG, FormatLog(r.log));
    SaidInLog(r.log);
  }

  lemma TopNotSaid(r: MissionReport)
    ensures !IsSaid(Head(r)) && !IsSaid(Tldr(r)) && !IsSaid(Session(r)) && !IsSaid(CALL_LOG)
    ensures SaidLines(GoalLine(r)) == []
  {
    HeadDirection(r);
    NotSaid(Head(r));
    assert Tldr(r)[0] == 'T' && Session(r)[0] == 'C';
    NotSaid(Tldr(r));
    NotSaid(Session(r));
    NotSaid(CALL_LOG);
    if GoalLine(r) != [] {
      assert GoalLine(r)[0][0] == 'G';
      NotSaid(GoalLine(r)[0]);
      SaidPast(GoalLine(r)[0], []);
      assert GoalLine(r) == [GoalLine(r)[0]] + [];
    }
  }

  lemma SavedTldr(r: MissionReport)
    ensures FirstTldr(SavedLines(r)) == Some(Trim(Tldr(r)[|TLDR|..]))
  {
    SavedShape(r);
    var lines := SavedLines(r);
    HeadDirection(r);
    assert TLDR[0] == 'T';
    assert !StartsWith(Head(r), TLDR);
    assert lines[1..][0] == Tldr(r);
    assert StartsWith(Tldr(r), TLDR) by { AfterPrefix(TLDR, Tldr(r)[|TLDR|..]); }
  }

  /** A saved report read back gives the recap that was built in memory, for every report whose
      texts are single lines and whose speakers can be told from events, exactly when the
      party's name holds no other number and the summary was printed whole and doesn't read
      like the note that there is none. */
  lemma PrintParseAgree(r: MissionReport, savedAt: int)
    requires Readable(r)
    ensures EarlierCallFromSaved(FormatSavedReport(r), savedAt, r.party.number)
              == Some(EarlierCallFromReport(r).(endedAt := savedAt))
       <==> NameIsClear(r.party) && SummaryIsClear(r)
  {
    SavedSplits(r);
    assert SavedLines(r)[0] == Head(r) by { SavedShape(r); }
    HeadNumber(r);
    HeadSeconds(r);
    HeadDirection(r);
    SavedTldr(r);
    ParsedTldr(r);
    SavedSaid(r);
    LastFourFormatted(Said(r.log));
  }

  // ---- what the parser's patterns match ----

  /** A number begins at place i: a plus sign and seven digits. */
  predicate NumberAt(s: string, i: int)
  {
    0 <= i < |s| && s[i] == '+' && i + 8 <= |s| && forall k :: i < k < i + 8 ==> IsDigit(s[k])
  }

  /** The first number in a text begins at the first place where one does, and takes the digits
      there, up to fifteen. */
  lemma {:induction false} FirstNumberMeans(s: string) returns (i: nat, n: nat)
    ensures FirstNumber(s).None? ==> forall k :: !NumberAt(s, k)
    ensures FirstNumber(s).Some? ==>
              && NumberAt(s, i) && (forall k :: 0 <= k < i ==> !NumberAt(s, k))
              && i + 1 + n <= |s| && FirstNumber(s).value == s[i..i + 1 + n]
              && 7 <= n <= 15 && (forall k :: i < k < i + 1 + n ==> IsDigit(s[k]))
              && (n < 15 && i + 1 + n < |s| ==> !IsDigit(s[i + 1 + n]))
  {
    i, n := 0, 0;
    if s != "" {
      NumberHere(s);
      if NumberAt(s, 0) {
        n := if DigitRun(s[1..]) < 15 then DigitRun(s[1..]) else 15;
      } else {
        i, n := FirstNumberMeans(s[1..]);
        NumberLater(s, s[1..], i, n);
        i := i + 1;
      }
    }
  }

  lemma NumberHere(s: string)
    requires s != ""
    ensures NumberAt(s, 0) <==> s[0] == '+' && DigitRun(s[1..]) >= 7
    ensures NumberAt(s, 0) ==>
              var n := if DigitRun(s[1..]) < 15 then DigitRun(s[1..]) else 15;
              && 1 + n <= |s| && FirstNumber(s) == Some(s[0..1 + n]) && (forall k :: 0 < k < 1 + n ==> IsDigit(s[k]))
              && (n < 15 && 1 + n < |s| ==> !IsDigit(s[1 + n]))
    ensures !NumberAt(s, 0) ==> FirstNumber(s) == FirstNumber(s[1..])
  {
    var d, t := DigitRun(s[1..]), s[1..];
    forall k | 1 <= k < 1 + d ensures IsDigit(s[k]) { assert t[..d][k - 1] == s[k]; }
    if d < |t| { assert s[1 + d] == t[d]; }
    hide DigitRun;
  }

  lemma NumberLater(s: string, t: string, i: nat, n: nat)
    requires s != "" && t == s[1..] && !NumberAt(s, 0)
    ensures forall k :: k > 0 ==> (NumberAt(s, k) <==> NumberAt(t, k - 1))
    ensures (forall k :: !NumberAt(t, k)) ==> forall k :: !NumberAt(s, k)
    ensures (forall k :: 0 <= k < i ==> !NumberAt(t, k)) ==> forall k :: 0 <= k < i + 1 ==> !NumberAt(s, k)
    ensures i + 1 + n <= |t| ==> t[i..i + 1 + n] == s[i + 1..i + 2 + n]
  {
    assert forall j :: 1 <= j < |s| ==> s[j] == t[j - 1];
    forall k | k > 0 ensures NumberAt(s, k) <==> NumberAt(t, k - 1) { }
    if forall k :: !NumberAt(t, k) {
      forall k ensures !NumberAt(s, k) { if k > 0 { assert !NumberAt(t, k - 1); } }
    }
    if forall k :: 0 <= k < i ==> !NumberAt(t, k) {
      forall k | 0 <= k < i + 1 ensures !NumberAt(s, k) { if k > 0 { assert !NumberAt(t, k - 1); } }
    }
  }

  /** A log line: digits, a colon and two digits in brackets, a space, and the rest. */
  ghost predicate IsStamped(s: string, minutes: string, seconds: string, rest: string)
  {
    && Digits(minutes) && minutes != "" && Digits(seconds) && |seconds| == 2
    && s == "[" + minutes + ":" + seconds + "] " + rest
  }

  lemma StampMatches(s: string, rest: string)
    ensures AfterStamp(s) == Some(rest) <==> exists m, sec :: IsStamped(s, m, sec, rest)
  {
    if m, sec :| IsStamped(s, m, sec, rest) { StampRead(m, sec, rest); }
    if AfterStamp(s) == Some(rest) {
      var t := s[1..];
      var n := DigitRun(t);
      var u := t[n + 1..];
      StampParts(s, t, n, u, rest);
    }
  }

  lemma StampParts(s: string, t: string, n: nat, u: string, rest: string)
    requires StartsWith(s, "[") && t == s[1..] && 0 < n < |t| && Digits(t[..n]) && t[n] == ':' && u == t[n + 1..]
    requires |u| >= 2 && IsDigit(u[0]) && IsDigit(u[1]) && StartsWith(u[2..], "] ") && rest == u[2..][2..]
    ensures IsStamped(s, t[..n], u[..2], rest)
  {
    assert s == "[" + t && t == t[..n] + ":" + u && u == u[..2] + u[2..] && u[2..] == "] " + rest;
  }

  /** A line number: "[line ", digits, "] ", and the rest. */
  ghost predicate IsTagged(t: string, n: string, rest: string)
  {
    Digits(n) && n != "" && t == "[line " + (n + ("] " + rest))
  }

  lemma TagMatches(t: string, rest: string)
    ensures AfterLineTag(t) == Some(rest) <==> exists n :: IsTagged(t, n, rest)
  {
    if n :| IsTagged(t, n, rest) { TagRead(t, n, rest); }
    if AfterLineTag(t) == Some(rest) { var n := TagParts(t, rest); }
    hide AfterLineTag, IsTagged;
  }

  lemma TagRead(t: string, n: string, rest: string)
    requires IsTagged(t, n, rest)
    ensures AfterLineTag(t) == Some(rest)
  {
    hide DigitRun;
    AfterPrefix("[line ", n + ("] " + rest));
    DigitRunIs(n, "] " + rest);
    assert (n + ("] " + rest))[|n|..] == "] " + rest;
    AfterPrefix("] ", rest);
  }

  lemma TagParts(t: string, rest: string) returns (n: string)
    requires AfterLineTag(t) == Some(rest)
    ensures IsTagged(t, n, rest)
  {
    hide DigitRun;
    var u := t[6..];
    n := u[..DigitRun(u)];
    assert u == n + u[|n|..] && u[|n|..] == "] " + rest && t == "[line " + u;
  }

  /** A head without an end to read gives no seconds. */
  lemma NoEndNoSeconds(head: string)
    requires forall d :: !EndsAfter(head, d)
    ensures EndedSeconds(head) == 0
  {
  }

  // ---- what the last lines are ----

  /** The words of a text: what stands between white space. */
  function Words(s: string): (ws: seq<string>)
    ensures s != "" && !IsSpace(s[0]) ==> ws != []
  {
    if s == "" then []
    else if IsSpace(s[0]) then Words(s[1..])
    else if |s| == 1 || IsSpace(s[1]) then [[s[0]]] + Words(s[1..])
    else [[s[0]] + Words(s[1..])[0]] + Words(s[1..])[1..]
  }

  /** No white space but single spaces. */
  ghost predicate SingleSpaced(s: string)
  {
    forall i :: 0 <= i < |s| && IsSpace(s[i]) ==> s[i] == ' ' && (i + 1 < |s| ==> !IsSpace(s[i + 1]))
  }

  /** The words of `text` in a row, one space between them. */
  ghost predicate IsFlat(flat: string, text: string)
  {
    && Words(flat) == Words(text) && SingleSpaced(flat)
    && (flat != "" ==> !IsSpace(flat[0]) && !IsSpace(flat[|flat| - 1]))
  }

  /** The text's words in a row: all of it if that is at most 200 characters, or else as much
      as leaves room for an ellipsis, without a space before it. */
  ghost predicate IsRecap(line: string, text: string)
  {
    exists flat :: IsFlat(flat, text) && IsCut(line, flat)
  }

  ghost predicate IsCut(line: string, flat: string)
  {
    if |flat| <= 200 then line == flat
    else if flat[198] == ' ' then line == flat[..198] + "…"
    else line == flat[..199] + "…"
  }

  lemma {:induction false} WordsTrimStart(s: string)
    ensures Words(TrimStart(s)) == Words(s)
  {
    if s != "" && IsSpace(s[0]) { WordsTrimStart(s[1..]); }
  }

  lemma {:induction false} WordsAndSpace(s: string, c: char)
    requires IsSpace(c)
    ensures Words(s + [c]) == Words(s)
  {
    if s == "" {
      assert (s + [c])[1..] == "";
    } else {
      WordsAndSpace(s[1..], c);
      assert (s + [c])[1..] == s[1..] + [c] && (s + [c])[0] == s[0];
      if |s| == 1 { assert s[1..] == ""; }
    }
  }

  lemma {:induction false} WordsTrimEnd(s: string)
    ensures Words(TrimEnd(s)) == Words(s)
  {
    if s != "" && IsSpace(s[|s| - 1]) {
      WordsTrimEnd(s[..|s| - 1]);
      WordsAndSpace(s[..|s| - 1], s[|s| - 1]);
      assert s == s[..|s| - 1] + [s[|s| - 1]];
    }
  }

  lemma {:induction false} WordsCollapse(s: string)
    ensures Words(Collapse(s)) == Words(s)
    ensures Collapse(s) == "" <==> s == ""
    ensures s != "" ==> (IsSpace(Collapse(s)[0]) <==> IsSpace(s[0]))
    decreases |s|
  {
    if s == "" {
    } else if IsSpace(s[0]) {
      var rest := TrimStart(s[1..]);
      WordsCollapse(rest);
      WordsTrimStart(s[1..]);
      assert Collapse(s)[1..] == Collapse(rest);
    } else {
      WordsCollapse(s[1..]);
      assert Collapse(s)[1..] == Collapse(s[1..]);
    }
  }

  lemma {:induction false} CollapseSingle(s: string)
    ensures SingleSpaced(Collapse(s))
    decreases |s|
  {
    if s != "" {
      var rest := if IsSpace(s[0]) then TrimStart(s[1..]) else s[1..];
      CollapseSingle(rest);
      WordsCollapse(rest);
      assert Collapse(s)[1..] == Collapse(rest);
    }
  }

  lemma {:induction false} TrimStartIsEnd(s: string)
    ensures TrimStart(s) == s[|s| - |TrimStart(s)|..]
  {
    if s != "" && IsSpace(s[0]) { TrimStartIsEnd(s[1..]); }
  }

  lemma Flattened(text: string)
    ensures IsFlat(Trim(Collapse(text)), text)
  {
    var c := Collapse(text);
    var t := TrimStart(c);
    var flat := TrimEnd(t);
    WordsCollapse(text);
    WordsTrimStart(c);
    WordsTrimEnd(t);
    CollapseSingle(text);
    TrimStartIsEnd(c);
    hide Words, Collapse, TrimStart, TrimEnd;
    assert SingleSpaced(t);
    assert flat != "" ==> flat[0] == t[0];
  }

  lemma ClippedIsRecap(text: string)
    ensures IsRecap(ClipLine(text), text)
  {
    var flat := Trim(Collapse(text));
    Flattened(text);
    hide Collapse, Trim, Words;
    if |flat| > 200 {
      var cut := flat[..199];
      if IsSpace(flat[198]) {
        assert cut[..198] == flat[..198] && !IsSpace(flat[197]);
        assert TrimEnd(flat[..198]) == flat[..198];
      }
    }
    assert IsCut(ClipLine(text), flat);
  }

  /** The bracketed stamp and line number come off again. */
  lemma UnstampedIsBody(e: LogEntry)
    requires e.kind != Happened && (e.line == 0 ==> !StartsWith(e.who, "[line "))
    ensures Unstamped(FormatLogEntry(e)) == e.who + ": " + e.text
  {
    hide AfterLineTag, AfterBracket, Stamp;
    BracketGone(Stamp(e.t), e.t, LineTag(e.line) + Body(e));
    assert FormatLogEntry(e) == "[" + Stamp(e.t) + "] " + (LineTag(e.line) + Body(e));
    if e.line == 0 {
      NoTag(e.who, e.text);
      assert LineTag(e.line) + Body(e) == e.who + ": " + e.text;
    } else {
      TagThenBody(e.line, Body(e));
    }
  }

  lemma BracketGone(stamp: string, ms: int, rest: string)
    requires stamp == Stamp(ms)
    ensures AfterBracket("[" + stamp + "] " + rest) == Some(rest)
  {
    var m, s := StampShape(ms);
    hide Stamp, AfterClose;
    assert ']' !in stamp;
    AfterPrefix("[", stamp + "] " + rest);
    assert "[" + stamp + "] " + rest == "[" + (stamp + "] " + rest);
    ClosedAt(stamp, rest);
  }

  lemma {:induction false} ClosedAt(s: string, rest: string)
    requires ']' !in s
    ensures AfterClose(s + "] " + rest) == Some(rest)
  {
    if s == "" {
      AfterPrefix("] ", rest);
      assert s + "] " + rest == "] " + rest;
    } else {
      ClosedAt(s[1..], rest);
      assert (s + "] " + rest)[1..] == s[1..] + "] " + rest;
    }
  }

  /** The places in the log, from i on, of what somebody said. */
  ghost function SaidFrom(log: seq<LogEntry>, i: nat): set<nat> { set j | i <= j < |log| && log[j].kind != Happened }

  lemma {:induction false} SaidCounted(log: seq<LogEntry>, i: nat)
    requires i <= |log|
    ensures |Said(log[i..])| == |SaidFrom(log, i)|
    decreases |log| - i
  {
    if i < |log| {
      SaidCounted(log, i + 1);
      assert log[i..][1..] == log[i + 1..];
      assert SaidFrom(log, i) == SaidFrom(log, i + 1) + if log[i].kind != Happened then {i} else {};
    } else {
      assert SaidFrom(log, i) == {};
    }
  }

  lemma {:induction false} SaidIsEnd(log: seq<LogEntry>, i: nat)
    requires i <= |log|
    ensures |Said(log[i..])| <= |Said(log)| && Said(log)[|Said(log)| - |Said(log[i..])|..] == Said(log[i..])
  {
    if i > 0 {
      SaidIsEnd(log[1..], i - 1);
      assert log[1..][i - 1..] == log[i..];
    } else {
      assert log[0..] == log;
    }
  }

  lemma SaidAt(log: seq<LogEntry>, i: nat)
    requires i < |log| && log[i].kind != Happened
    ensures |SaidFrom(log, i + 1)| < |Said(log)| && Said(log)[|Said(log)| - 1 - |SaidFrom(log, i + 1)|] == log[i]
  {
    SaidCounted(log, i + 1);
    SaidIsEnd(log, i);
    assert log[i..][1..] == log[i + 1..];
    assert Said(log[i..])[0] == log[i];
  }

  lemma {:induction false} RecapsAt(lines: seq<string>, k: nat)
    requires k < |lines|
    ensures Recaps(lines)[k] == ClipLine(Unstamped(lines[k]))
  {
    if k > 0 { RecapsAt(lines[1..], k - 1); }
  }

  /** The last lines of a recap: there are four, or as many as things were said if that is
      fewer. What was said with n things said after it, n below four, is the n-th line from the
      end: speaker and text, without time and line number, white space collapsed and, past 200
      characters, cut. */
  lemma LastLinesMean(r: MissionReport)
    requires forall i :: 0 <= i < |r.log| && r.log[i].line == 0 ==> !StartsWith(r.log[i].who, "[line ")
    ensures var lines := EarlierCallFromReport(r).lastLines;
            && |lines| == Min(4, |SaidFrom(r.log, 0)|)
            && forall i :: 0 <= i < |r.log| && r.log[i].kind != Happened && |SaidFrom(r.log, i + 1)| < 4 ==>
                 var n := |SaidFrom(r.log, i + 1)|;
                 n < |lines| && IsRecap(lines[|lines| - 1 - n], r.log[i].who + ": " + r.log[i].text)
  {
    var said, lines := Said(r.log), EarlierCallFromReport(r).lastLines;
    SaidCounted(r.log, 0);
    assert r.log[0..] == r.log;
    hide Said, Recaps, FormatLog, CallSeconds, Summary, SaidFrom, IsRecap, StartsWith;
    forall i | 0 <= i < |r.log| && r.log[i].kind != Happened && |SaidFrom(r.log, i + 1)| < 4
      ensures var n := |SaidFrom(r.log, i + 1)|;
              n < |lines| && IsRecap(lines[|lines| - 1 - n], r.log[i].who + ": " + r.log[i].text)
    {
      LastLineIs(r, i, said, lines);
    }
  }

  lemma LastLineIs(r: MissionReport, i: nat, said: seq<LogEntry>, lines: seq<string>)
    requires said == Said(r.log) && lines == EarlierCallFromReport(r).lastLines
    requires i < |r.log| && r.log[i].kind != Happened && |SaidFrom(r.log, i + 1)| < 4
    requires r.log[i].line == 0 ==> !StartsWith(r.log[i].who, "[line ")
    ensures var n := |SaidFrom(r.log, i + 1)|;
            n < |lines| && IsRecap(lines[|lines| - 1 - n], r.log[i].who + ": " + r.log[i].text)
  {
    hide Said, Recaps, SaidFrom, IsRecap, FormatLogEntry, ClipLine, Unstamped, CallSeconds, Summary, StartsWith;
    SaidAt(r.log, i);
    var n := |SaidFrom(r.log, i + 1)|;
    LineFromEnd(said, n);
    EntryRecapped(said[|said| - 1 - n]);
  }

  lemma LineFromEnd(said: seq<LogEntry>, n: nat)
    requires n < |said| && n < 4
    ensures var lines := Recaps(FormatLog(LastFour(said)));
            n < |lines| && lines[|lines| - 1 - n] == ClipLine(Unstamped(FormatLogEntry(said[|said| - 1 - n])))
  {
    hide Recaps, FormatLogEntry, ClipLine, Unstamped;
    var four := LastFour(said);
    LastFourAt(said, n);
    RecapsAt(FormatLog(four), |four| - 1 - n);
  }

  lemma EntryRecapped(e: LogEntry)
    requires e.kind != Happened && (e.line == 0 ==> !StartsWith(e.who, "[line "))
    ensures IsRecap(ClipLine(Unstamped(FormatLogEntry(e))), e.who + ": " + e.text)
  {
    UnstampedIsBody(e);
    ClippedIsRecap(e.who + ": " + e.text);
  }

  lemma LastFourAt<T>(s: seq<T>, n: nat)
    requires n < |s| && n < 4
    ensures n < |LastFour(s)| && LastFour(s)[|LastFour(s)| - 1 - n] == s[|s| - 1 - n]
  {
  }
}
