/** The lines of one call mission (call.ts): who the voice model talks to, and whether the
    phone line agrees.

    A step is everything the mission does between two waits on the outside (a network reply,
    a timer, an event). `hold`, `resume` and `swap` wait for nothing, so they happen inside a
    step; dialling and hanging up wait for Twilio, and `tool` says what the one line tool under
    way is waiting for. Runs start once the first party is on the line and end when nobody is
    left or the lines are merged. */
module CallLines {
  import opened Wrappers
  import opened Twilio
  import opened PartyLines

  datatype Tool =
    | Idle
    | Placing(first: nat)                 // call_party: the first party is on hold
    | Waiting(first: nat, n: nat)         // call_party: waiting for line n to answer
    | GivingUp(first: nat, n: nat)        // call_party: hanging up line n
    | Dropping(n: nat)                    // drop_line: hanging up line n

  /** `ended`: nobody was left, and the mission is finishing. `dialFailed` (call_party's dial was
      refused) is history. */
  datatype Mission = Mission(link: Line, lines: seq<PartyLine>, active: nat, tool: Tool, ended: bool, dialFailed: bool)

  // ---- what the mission hears ----

  /** The line of a call: the first that has it, or 0. */
  function LineOf(lines: seq<PartyLine>, id: CallId): (n: nat)
    ensures n <= |lines| && (n > 0 ==> lines[n - 1].callId == id)
  {
    if lines == [] then 0
    else
      var n := LineOf(lines[..|lines| - 1], id);
      if n > 0 || lines[|lines| - 1].callId != id then n else |lines|
  }

  /** A call.state event. */
  function Heard(lines: seq<PartyLine>, call: LineCall): (r: seq<PartyLine>)
    ensures |r| == |lines|
  {
    var n := LineOf(lines, call.id);
    if n == 0 then lines else lines[n - 1 := lines[n - 1].(state := call.state)]
  }

  function HeardAll(lines: seq<PartyLine>, events: seq<Event>): (r: seq<PartyLine>)
    ensures |r| == |lines|
  {
    if events == [] then lines
    else Heard(HeardAll(lines, events[..|events| - 1]), events[|events| - 1].call)
  }

  /** The link did something that emitted only state events. */
  function Informed(m: Mission, link: Line): Mission
  {
    m.(link := link,
       lines := if |m.link.events| <= |link.events| then HeardAll(m.lines, link.events[|m.link.events|..]) else m.lines)
  }

  /** The line's `resume` command, its failure swallowed. */
  function TryResume(m: Mission): (r: Mission)
    requires Filed(m.link)
    ensures Filed(r.link) && |r.lines| == |m.lines|
  {
    var r := Resume(m.link);
    if r.None? then m else Informed(m, r.value)
  }

  /** Line n is over. */
  function EndLine(m: Mission, n: nat): (r: Mission)
    requires 1 <= n <= |m.lines|
    ensures |r.lines| == |m.lines|
  {
    m.(lines := m.lines[n - 1 := m.lines[n - 1].(state := Ended)])
  }

  /** A call.ended event: nobody is left, or the mission goes back to whoever is on hold if it
      was this party it talked to. */
  function OnLineEnded(m: Mission, n: nat): (r: Mission)
    requires 1 <= n <= |m.lines| && Filed(m.link)
    ensures Filed(r.link) && |r.lines| == |m.lines|
  {
    var m' := EndLine(m, n);
    var live := Live(m'.lines);
    if live == [] then m'.(ended := true)
    else if n == m.active then TryResume(m'.(active := live[0]))
    else m'
  }

  /** After a dialled party didn't answer: back to the first one. */
  function BackToFirst(m: Mission, first: nat, n: nat): Mission
    requires 1 <= n <= |m.lines| && Filed(m.link)
  {
    TryResume(EndLine(m, n).(active := first, tool := Idle))
  }

  /** After drop_line's hang-up was accepted. */
  function Dropped(m: Mission, n: nat): Mission
    requires 1 <= n <= |m.lines| && Filed(m.link)
  {
    var m' := EndLine(m, n).(tool := Idle);
    var live := Live(m'.lines);
    if live == [] then m'.(ended := true)
    else if n == m.active then TryResume(m').(active := live[0])
    else m'
  }

  // ---- the tools ----

  /** None: the tool reports an error and nothing has changed. */
  function CallParty(m: Mission): Option<Mission>
    requires Filed(m.link)
  {
    if |Live(m.lines)| > 1 then None
    else
      var h := Hold(m.link);
      if h.None? then None else Some(Informed(m, h.value).(tool := Placing(m.active)))
  }

  /** The dialled call exists: it gets a line of its own, now the active one. */
  function Placed(m: Mission, id: CallId): Mission
    requires m.tool.Placing?
  {
    var m' := Informed(m, Dialed(m.link, id));
    m'.(lines := m'.lines + [PartyLine(id, CallState.Dialing)],
        active := |m.lines| + 1,
        tool := Waiting(m.tool.first, |m.lines| + 1))
  }

  function SwitchLine(m: Mission, n: nat): Option<Mission>
    requires Filed(m.link)
  {
    if n !in Live(m.lines) || n == m.active then None
    else
      var anyActive := exists i :: 0 <= i < |m.lines| && m.lines[i].state == Active;
      var r := if anyActive then Swap(m.link) else Resume(m.link);
      if r.None? then None else Some(Informed(m, r.value).(active := n))
  }

  /** The first half of connect_lines: over to the other line, to tell them. */
  function ConnectLines(m: Mission): Option<Mission>
    requires Filed(m.link)
  {
    var live := Live(m.lines);
    if |live| != 2 then None
    else
      var r := Swap(m.link);
      if r.None? then None else Some(Informed(m, r.value).(active := if live[0] != m.active then live[0] else live[1]))
  }

  // ---- steps ----

  datatype MStep =
    | ToolCallParty
    | DialFails
    | DialSucceeds(id: CallId)
    | RingTimeout
    | ToolSwitchLine(n: nat)
    | ToolConnectLines
    | ToolDropLine(n: nat)
    | HangUpFails
    | HangUpDone
    | FromOutside(step: Step)

  /** What can reach the line while the mission runs besides its tools: Twilio's reports,
      marks and barge-ins, key presses, hang-ups by whatever ends the call, and a merge, as long
      as Twilio refuses it. */
  predicate Outside(step: Step)
  {
    !step.DialReply? && !step.IncomingCall? && !step.HoldCmd? && !step.ResumeCmd? && !step.SwapCmd?
    && (step.MergeAnswer? ==> !step.ok)
  }

  /** The mission hears what the link has done. */
  function Heed(m: Mission, link: Line): Mission
    requires Filed(link)
  {
    var was := |m.link.events|;
    if |link.events| == was + 1 && link.events[was].CallEnded? then
      var n := LineOf(m.lines, link.events[was].call.id);
      if n == 0 then m.(link := link) else PartyLeft(m, link, n)
    else
      var m' := Informed(m, link);
      if m.tool.Waiting? && 1 <= m.tool.n <= |m'.lines| && m'.lines[m.tool.n - 1].state == Active
      then m'.(tool := Idle) else m'
  }

  /** The end of a call also ends the wait for its answer. */
  function PartyLeft(m: Mission, link: Line, n: nat): Mission
    requires 1 <= n <= |m.lines| && Filed(link)
  {
    var m' := OnLineEnded(m.(link := link), n);
    if !m'.ended && m.tool.Waiting? && m.tool.n == n then BackToFirst(m', m.tool.first, n) else m'
  }

  /** The line whose hang-up a tool is waiting for. */
  function HangingUp(m: Mission): nat
  {
    match m.tool case GivingUp(_, n) => n case Dropping(n) => n case _ => 0
  }

  /** One tool runs at a time, and call ids are Twilio's. */
  ghost predicate MPossible(m: Mission, step: MStep)
  {
    !m.ended &&
    match step
    case ToolCallParty => m.tool.Idle?
    case DialFails => m.tool.Placing?
    case DialSucceeds(id) => m.tool.Placing? && id !in m.link.seen
    case RingTimeout => m.tool.Waiting? && 1 <= m.tool.n <= |m.lines|
    case ToolSwitchLine(_) => m.tool.Idle?
    case ToolConnectLines => m.tool.Idle?
    case ToolDropLine(_) => m.tool.Idle?
    case HangUpFails => m.tool.Dropping?
    case HangUpDone => 1 <= HangingUp(m) <= |m.lines|
    case FromOutside(s) => Outside(s) && Possible(m.link, s)
  }

  ghost predicate CanStep(m: Mission, step: MStep)
  {
    Filed(m.link) && MPossible(m, step) && (step.FromOutside? ==> Filed(Next(m.link, step.step)))
  }

  function Or(m: Mission, r: Option<Mission>): Mission { if r.None? then m else r.value }

  /** The steps that start or end a hang-up. */
  predicate HangsUp(step: MStep) { step.RingTimeout? || step.ToolDropLine? || step.HangUpFails? || step.HangUpDone? }

  function HangUpNext(m: Mission, step: MStep): Mission
    requires Filed(m.link) && HangsUp(step) && MPossible(m, step)
  {
    match step
    case RingTimeout =>
      m.(link := HangUp(m.link, m.lines[m.tool.n - 1].callId), tool := GivingUp(m.tool.first, m.tool.n))
    case ToolDropLine(n) =>
      if n !in Live(m.lines) then m
      else m.(link := HangUp(m.link, m.lines[n - 1].callId), tool := Dropping(n))
    case HangUpFails => m.(tool := Idle)
    case HangUpDone =>
      if m.tool.GivingUp? then BackToFirst(m, m.tool.first, m.tool.n) else Dropped(m, m.tool.n)
  }

  function ToolNext(m: Mission, step: MStep): Mission
    requires Filed(m.link) && !HangsUp(step) && !step.FromOutside? && MPossible(m, step)
  {
    match step
    case ToolCallParty => Or(m, CallParty(m))
    case DialFails => m.(tool := Idle, dialFailed := true)
    case DialSucceeds(id) => Placed(m, id)
    case ToolSwitchLine(n) => Or(m, SwitchLine(m, n))
    case ToolConnectLines => Or(m, ConnectLines(m))
  }

  function MNext(m: Mission, step: MStep): Mission
    requires CanStep(m, step)
  {
    if step.FromOutside? then Heed(m, Next(m.link, step.step))
    else if HangsUp(step) then HangUpNext(m, step)
    else ToolNext(m, step)
  }

  // ---- the mission itself ----

  lemma {:induction false} HeardNext(lines: seq<PartyLine>, events: seq<Event>, i: nat)
    requires i < |events|
    ensures HeardAll(lines, events[..i + 1]) == Heard(HeardAll(lines, events[..i]), events[i].call)
  {
    assert events[..i + 1][..i] == events[..i];
  }

  lemma {:induction false} LineOfFirst(lines: seq<PartyLine>, i: nat, id: CallId)
    requires i < |lines| && LineOf(lines[..i], id) == 0
    ensures lines[i].callId == id ==> LineOf(lines, id) == i + 1
    ensures lines[i].callId != id ==> LineOf(lines[..i + 1], id) == 0
    decreases |lines|
  {
    assert lines[..i + 1][..i] == lines[..i];
    if i + 1 < |lines| {
      if lines[i].callId == id {
        var n := |lines| - 1;
        assert lines[..n][..i] == lines[..i];
        LineOfFirst(lines[..n], i, id);
      }
    } else {
      assert lines[..i + 1] == lines;
    }
  }

  lemma EventsGrow(l: Line)
    requires Filed(l)
    ensures Hold(l).Some? ==> |l.events| <= |Hold(l).value.events|
    ensures Resume(l).Some? ==> |l.events| <= |Resume(l).value.events|
    ensures Swap(l).Some? ==> |l.events| <= |Swap(l).value.events|
  {
  }

  class CallMission {
    const link: TwilioLine
    var lines: seq<PartyLine>
    var active: nat
    var tool: Tool
    var ended: bool
    /** Whether a dial has failed. */
    ghost var dialFailed: bool

    ghost function State(): Mission
      reads this, link
    {
      Mission(link.State(), lines, active, tool, ended, dialFailed)
    }

    /** The first party is on line 1. */
    constructor (link: TwilioLine, id: CallId, state: CallState)
      ensures this.link == link && State() == Mission(link.State(), [PartyLine(id, state)], 1, Idle, false, false)
    {
      this.link, lines, active, tool := link, [PartyLine(id, state)], 1, Idle;
      ended, dialFailed := false, false;
    }

    method LiveLines() returns (live: seq<nat>)
      ensures live == Live(lines)
    {
      live := [];
      for i := 0 to |lines|
        invariant live == Live(lines[..i])
      {
        LiveNext(lines, i);
        if lines[i].state != Ended { live := live + [i + 1]; }
      }
      assert lines[..|lines|] == lines;
    }

    /** A call.state event. */
    method OnState(call: LineCall)
      modifies this`lines
      ensures lines == Heard(old(lines), call)
    {
      var n := LineByCall(call.id);
      if n > 0 { lines := lines[n - 1 := lines[n - 1].(state := call.state)]; }
    }

    method LineByCall(id: CallId) returns (n: nat)
      ensures n == LineOf(lines, id)
    {
      for i := 0 to |lines|
        invariant LineOf(lines[..i], id) == 0
      {
        LineOfFirst(lines, i, id);
        if lines[i].callId == id { return i + 1; }
      }
      assert lines[..|lines|] == lines;
      return 0;
    }

    /** The state events the link has emitted since. */
    method HearSince(was: nat)
      modifies this`lines
      ensures State() == old(State()).(lines := lines)
      ensures was <= |link.events| ==> lines == HeardAll(old(lines), link.events[was..])
    {
      ghost var before := lines;
      if was < |link.events| {
        ghost var events := link.events[was..];
        for i := was to |link.events|
          invariant lines == HeardAll(before, events[..i - was])
        {
          HeardNext(before, events, i - was);
          OnState(link.events[i].call);
        }
        assert events[..|events|] == events;
      }
    }

    method ResumeQuietly()
      requires Filed(link.State())
      modifies this, link
      ensures State() == TryResume(old(State()))
    {
      EventsGrow(link.State());
      var was := |link.events|;
      var ok := link.ResumeHeld();
      if ok { HearSince(was); }
    }

    /** A call.ended event. */
    method OnEnded(n: nat)
      requires 1 <= n <= |lines| && Filed(link.State())
      modifies this, link
      ensures State() == OnLineEnded(old(State()), n)
    {
      lines := lines[n - 1 := lines[n - 1].(state := Ended)];
      var live := LiveLines();
      if live == [] {
        ended := true;
      } else if n == active {
        active := live[0];
        ResumeQuietly();
      }
    }

    method StartCallParty() returns (ok: bool)
      requires Filed(link.State())
      modifies this, link
      ensures ok == CallParty(old(State())).Some?
      ensures State() == Or(old(State()), CallParty(old(State())))
    {
      var live := LiveLines();
      if |live| > 1 { return false; }
      EventsGrow(link.State());
      var was := |link.events|;
      ok := link.HoldActive();
      if ok {
        HearSince(was);
        tool := Placing(active);
      }
    }

    /** Twilio refuses to place the call, and the tool gives up. */
    method DialRefused()
      modifies this
      ensures State() == old(State()).(tool := Idle, dialFailed := true)
    {
      tool, dialFailed := Idle, true;
    }

    /** Twilio has placed the call. */
    method DialReplied(id: CallId)
      requires tool.Placing?
      modifies this, link
      ensures State() == Placed(old(State()), id)
    {
      var was := |link.events|;
      link.AddLeg(id, CallState.Dialing);
      HearSince(was);
      lines := lines + [PartyLine(id, CallState.Dialing)];
      active := |lines|;
      tool := Waiting(tool.first, |lines|);
    }

    method NotAnswered(first: nat, n: nat)
      requires 1 <= n <= |lines| && Filed(link.State())
      modifies this, link
      ensures State() == BackToFirst(old(State()), first, n)
    {
      lines := lines[n - 1 := lines[n - 1].(state := Ended)];
      active := first;
      tool := Idle;
      ResumeQuietly();
    }

    method SwitchTo(n: nat) returns (ok: bool)
      requires Filed(link.State())
      modifies this, link
      ensures ok == SwitchLine(old(State()), n).Some?
      ensures State() == Or(old(State()), SwitchLine(old(State()), n))
    {
      hide Swap, Resume, HeardAll, Live;
      var live := LiveLines();
      if n !in live || n == active { return false; }
      EventsGrow(link.State());
      var was := |link.events|;
      if exists i :: 0 <= i < |lines| && lines[i].state == CallState.Active {
        ok := link.SwapLegs();
      } else {
        ok := link.ResumeHeld();
      }
      if ok {
        HearSince(was);
        active := n;
      }
    }

    method StartConnect() returns (ok: bool)
      requires Filed(link.State())
      modifies this, link
      ensures ok == ConnectLines(old(State())).Some?
      ensures State() == Or(old(State()), ConnectLines(old(State())))
    {
      hide Swap, HeardAll, Live;
      var live := LiveLines();
      if |live| != 2 { return false; }
      EventsGrow(link.State());
      var was := |link.events|;
      ok := link.SwapLegs();
      if ok {
        HearSince(was);
        active := if live[0] != active then live[0] else live[1];
      }
    }

    /** drop_line, once the hang-up was accepted. */
    method FinishDrop(n: nat)
      requires 1 <= n <= |lines| && Filed(link.State())
      modifies this, link
      ensures State() == Dropped(old(State()), n)
    {
      lines := lines[n - 1 := lines[n - 1].(state := Ended)];
      tool := Idle;
      var live := LiveLines();
      if live == [] {
        ended := true;
      } else if n == active {
        ResumeQuietly();
        active := live[0];
      }
    }
  }
}
