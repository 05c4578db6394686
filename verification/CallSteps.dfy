/** What each step of a call mission does to its lines, its tool and whom it talks to (call.ts),
    told from what the phone line announces. */
module CallSteps {
  import opened Wrappers
  import opened Twilio
  import opened PartyLines
  import opened CallLines

  // ---- what is heard of a line ----

  /** The last of some events that is about a call. */
  ghost predicate IsLastOf(events: seq<Event>, id: CallId, k: int)
  {
    0 <= k < |events| && events[k].call.id == id && forall j :: k < j < |events| ==> events[j].call.id != id
  }

  lemma {:induction false} SameCalls(lines: seq<PartyLine>, events: seq<Event>, i: nat)
    requires i < |lines|
    ensures HeardAll(lines, events)[i].callId == lines[i].callId
    decreases |events|
  {
    if events != [] { SameCalls(lines, events[..|events| - 1], i); }
  }

  /** The line still is the first one with its call. */
  lemma SameLine(lines: seq<PartyLine>, events: seq<Event>, i: nat)
    requires i < |lines| && LineOf(lines, lines[i].callId) == i + 1
    ensures LineOf(HeardAll(lines, events), lines[i].callId) == i + 1
  {
    var all, id := HeardAll(lines, events), lines[i].callId;
    LineOfIs(lines, id, i + 1);
    SameCalls(lines, events, i);
    forall j | 0 <= j < i ensures all[j].callId != id { SameCalls(lines, events, j); }
    hide HeardAll;
    LineOfIs(all, id, i + 1);
  }

  lemma HeardLast(lines: seq<PartyLine>, events: seq<Event>, i: nat)
    requires i < |lines| && events != [] && LineOf(lines, lines[i].callId) == i + 1
    ensures var before, call := HeardAll(lines, events[..|events| - 1])[i], events[|events| - 1].call;
            HeardAll(lines, events)[i] == if lines[i].callId == call.id then before.(state := call.state) else before
  {
    var before, call := HeardAll(lines, events[..|events| - 1]), events[|events| - 1].call;
    SameLine(lines, events[..|events| - 1], i);
    SameCalls(lines, events[..|events| - 1], i);
    assert HeardAll(lines, events) == Heard(before, call);
    hide HeardAll, LineOf;
    if LineOf(before, call.id) == i + 1 { assert before[i].callId == call.id; }
  }

  lemma {:induction false} HeardNothing(lines: seq<PartyLine>, events: seq<Event>, i: nat)
    requires i < |lines| && LineOf(lines, lines[i].callId) == i + 1
    requires forall k :: 0 <= k < |events| ==> events[k].call.id != lines[i].callId
    ensures HeardAll(lines, events)[i] == lines[i]
    decreases |events|
  {
    if events != [] {
      HeardNothing(lines, events[..|events| - 1], i);
      HeardLast(lines, events, i);
    }
  }

  /** A line's state is what was last heard of its call; it stays what it was if nothing was. */
  lemma {:induction false} HeardMeans(lines: seq<PartyLine>, events: seq<Event>, i: nat, k: nat)
    requires i < |lines| && LineOf(lines, lines[i].callId) == i + 1 && IsLastOf(events, lines[i].callId, k)
    ensures HeardAll(lines, events)[i] == PartyLine(lines[i].callId, events[k].call.state)
    decreases |events|
  {
    var n := |events| - 1;
    HeardLast(lines, events, i);
    SameCalls(lines, events[..n], i);
    if k < n {
      assert events[n].call.id != lines[i].callId && IsLastOf(events[..n], lines[i].callId, k);
      HeardMeans(lines, events[..n], i, k);
    }
    hide HeardAll, LineOf;
  }

  /** The line of a call is the first one that has it. */
  lemma {:induction false} LineOfIs(lines: seq<PartyLine>, id: CallId, n: nat)
    ensures LineOf(lines, id) == n <==>
      if n == 0 then forall i :: 0 <= i < |lines| ==> lines[i].callId != id
      else n <= |lines| && lines[n - 1].callId == id && forall i :: 0 <= i < n - 1 ==> lines[i].callId != id
  {
    if lines != [] {
      var before := lines[..|lines| - 1];
      LineOfIs(before, id, n);
      LineOfIs(before, id, 0);
      assert forall i :: 0 <= i < |before| ==> before[i] == lines[i];
    }
  }

  // ---- whose end the mission hears ----

  /** The step brings the end of line n's call. */
  ghost predicate BringsEnd(m: Mission, step: MStep, n: nat)
    requires CanStep(m, step)
  {
    && step.FromOutside?
    && var events := Next(m.link, step.step).events;
       |events| == |m.link.events| + 1 && events[|m.link.events|].CallEnded?
       && LineOf(m.lines, events[|m.link.events|].call.id) == n
  }

  /** The step brings news of a call that is up, or none at all. */
  ghost predicate BringsNews(m: Mission, step: MStep)
    requires CanStep(m, step)
  {
    && step.FromOutside?
    && var events := Next(m.link, step.step).events;
       !(|events| == |m.link.events| + 1 && events[|m.link.events|].CallEnded?)
  }

  lemma TryResumeChanges(m: Mission)
    requires Filed(m.link)
    ensures var r := TryResume(m);
            && r.active == m.active && r.tool == m.tool && r.ended == m.ended && r.dialFailed == m.dialFailed
            && |r.lines| == |m.lines|
  {
    hide Resume;
  }

  /** The first line that is up, line n being over. */
  predicate IsFirstUp(lines: seq<PartyLine>, n: nat, k: nat)
  {
    && 1 <= k <= |lines| && k != n && lines[k - 1].state != Ended
    && forall i :: 0 <= i < k - 1 && i + 1 != n ==> lines[i].state == Ended
  }

  lemma FirstUp(m: Mission, n: nat)
    requires 1 <= n <= |m.lines|
    ensures var live := Live(EndLine(m, n).lines);
            if live == [] then OnlyOneUp(m.lines, n) else !OnlyOneUp(m.lines, n) && IsFirstUp(m.lines, n, live[0])
  {
    var over := EndLine(m, n).lines;
    var live := Live(over);
    LiveAscends(over);
    forall i | 0 <= i < |m.lines| && i + 1 != n ensures over[i] == m.lines[i] { }
    forall k ensures k in live <==> 1 <= k <= |over| && over[k - 1].state != Ended { if k >= 0 { LiveIs(over, k); } }
    if live == [] {
      forall i | 0 <= i < |m.lines| && i + 1 != n ensures m.lines[i].state == Ended { assert i + 1 !in live; }
    } else {
      assert live[0] in live;
      forall i | 0 <= i < live[0] - 1 && i + 1 != n ensures m.lines[i].state == Ended {
        assert forall j :: 0 <= j < |live| ==> live[0] <= live[j];
        assert i + 1 !in live;
      }
    }
  }

  lemma OnLineEndedMeans(m: Mission, n: nat)
    requires 1 <= n <= |m.lines| && Filed(m.link)
    ensures var r := OnLineEnded(m, n);
            && |r.lines| == |m.lines| && r.tool == m.tool && r.dialFailed == m.dialFailed
            && (r.ended <==> m.ended || OnlyOneUp(m.lines, n))
            && (if n == m.active && !OnlyOneUp(m.lines, n) then IsFirstUp(m.lines, n, r.active) else r.active == m.active)
  {
    FirstUp(m, n);
    hide Live, OnlyOneUp, IsFirstUp;
    var over := EndLine(m, n);
    var live := Live(over.lines);
    if live != [] { TryResumeChanges(over.(active := live[0])); }
    hide TryResume;
  }

  lemma DroppedMeans(m: Mission, n: nat)
    requires 1 <= n <= |m.lines| && Filed(m.link)
    ensures var r := Dropped(m, n);
            && r.tool == Idle && r.dialFailed == m.dialFailed && (r.ended <==> m.ended || OnlyOneUp(m.lines, n))
            && (if n == m.active && !OnlyOneUp(m.lines, n) then IsFirstUp(m.lines, n, r.active) else r.active == m.active)
  {
    FirstUp(m, n);
    hide Live, OnlyOneUp, IsFirstUp;
    TryResumeChanges(EndLine(m, n).(tool := Idle));
    hide TryResume;
  }

  // ---- the tool and the active line ----

  /** Which tool is under way after a step. A wait for an answer is over when the line is active,
      when its call has ended, or when the ringing has taken too long, which starts a hang-up. */
  ghost predicate ToolMoves(m: Mission, step: MStep, m': Mission)
    requires CanStep(m, step)
  {
    match step
    case ToolCallParty => m'.tool == m.tool || m'.tool == Placing(m.active)
    case DialFails => m'.tool == Idle
    case DialSucceeds(_) => m'.tool == Waiting(m.tool.first, |m.lines| + 1)
    case RingTimeout => m'.tool == GivingUp(m.tool.first, m.tool.n)
    case ToolSwitchLine(_) => m'.tool == Idle
    case ToolConnectLines => m'.tool == Idle
    case ToolDropLine(n) => m'.tool == if 1 <= n <= |m.lines| && m.lines[n - 1].state != Ended then Dropping(n) else Idle
    case HangUpFails => m'.tool == Idle
    case HangUpDone => m'.tool == Idle
    case FromOutside(_) =>
      if m.tool.Waiting? && 1 <= m.tool.n <= |m.lines|
         && (if BringsNews(m, step) then m.tool.n <= |m'.lines| && m'.lines[m.tool.n - 1].state == Active else BringsEnd(m, step, m.tool.n) && !m'.ended)
      then m'.tool == Idle else m'.tool == m.tool
  }

  /** Whom the mission talks to after a step: a new party once its call is placed, the first one
      again when it does not answer, and the first that is still up when the active one is gone. */
  ghost predicate ActiveMoves(m: Mission, step: MStep, m': Mission)
    requires CanStep(m, step)
  {
    match step
    case DialSucceeds(_) => m'.active == |m.lines| + 1
    case ToolSwitchLine(n) => m'.active in {m.active, n}
    case ToolConnectLines => true
    case HangUpDone =>
      if m.tool.GivingUp? then m'.active == m.tool.first
      else if m.tool.n == m.active && !OnlyOneUp(m.lines, m.tool.n) then IsFirstUp(m.lines, m.tool.n, m'.active)
      else m'.active == m.active
    case FromOutside(_) =>
      if !(m.active >= 1 && BringsEnd(m, step, m.active)) && !(m.tool.Waiting? && m.tool.n >= 1 && BringsEnd(m, step, m.tool.n)) then m'.active == m.active
      else if m'.ended then m'.active == m.active
      else if m.tool.Waiting? && m.tool.n >= 1 && BringsEnd(m, step, m.tool.n) then m'.active == m.tool.first
      else IsFirstUp(m.lines, m.active, m'.active)
    case _ => m'.active == m.active
  }

  lemma ToolStepMoves(m: Mission, step: MStep)
    requires CanStep(m, step) && !step.FromOutside? && !HangsUp(step)
    ensures var m' := MNext(m, step);
            ToolMoves(m, step, m') && ActiveMoves(m, step, m') && m'.ended == m.ended && (m'.dialFailed <==> m.dialFailed || step.DialFails?)
  {
    hide Hold, Resume, Swap, Live, Filed, NewLeg, HeardAll;
  }

  lemma HangUpStepMoves(m: Mission, step: MStep)
    requires CanStep(m, step) && HangsUp(step)
    ensures var m' := MNext(m, step);
            && ToolMoves(m, step, m') && ActiveMoves(m, step, m') && m'.dialFailed == m.dialFailed
            && (m'.ended <==> m.ended || (step.HangUpDone? && m.tool.Dropping? && OnlyOneUp(m.lines, m.tool.n)))
  {
    match step
    case RingTimeout =>
    case ToolDropLine(n) => LiveIs(m.lines, n);
    case HangUpFails =>
    case HangUpDone =>
      if m.tool.GivingUp? {
        TryResumeChanges(EndLine(m, m.tool.n).(active := m.tool.first, tool := Idle));
      } else {
        DroppedMeans(m, m.tool.n);
      }
    hide Filed, Dropped, TryResume, Live, OnlyOneUp, IsFirstUp, HangUp;
  }

  lemma HeedNewsMoves(m: Mission, step: MStep)
    requires CanStep(m, step) && BringsNews(m, step)
    ensures var m' := MNext(m, step);
            && ToolMoves(m, step, m') && ActiveMoves(m, step, m') && m'.dialFailed == m.dialFailed && m'.ended == m.ended
            && |m'.lines| == |m.lines|
  {
    hide Next, Filed, HeardAll, LineOf, Live, Possible;
  }

  lemma HeedEndMoves(m: Mission, step: MStep, n: nat)
    requires CanStep(m, step) && step.FromOutside? && BringsEnd(m, step, n)
    ensures var m' := MNext(m, step);
            && ToolMoves(m, step, m') && ActiveMoves(m, step, m') && m'.dialFailed == m.dialFailed
            && (m'.ended <==> m.ended || (n > 0 && OnlyOneUp(m.lines, n)))
  {
    var link := Next(m.link, step.step);
    if n > 0 {
      OnLineEndedMeans(m.(link := link), n);
      var r := OnLineEnded(m.(link := link), n);
      if !r.ended && m.tool.Waiting? && m.tool.n == n {
        TryResumeChanges(EndLine(r, n).(active := m.tool.first, tool := Idle));
      }
    }
    hide Next, Filed, LineOf, Live, OnLineEnded, TryResume, OnlyOneUp, IsFirstUp, Possible;
  }

  /** What every step of a mission does to its tool, to whom it talks to and to whether it is over:
      it ends with the last line that is up. */
  lemma EveryStepMoves(m: Mission, step: MStep)
    requires CanStep(m, step)
    ensures var m' := MNext(m, step);
            && ToolMoves(m, step, m') && ActiveMoves(m, step, m')
            && (m'.dialFailed <==> m.dialFailed || step.DialFails?)
            && (m'.ended <==> m.ended || (exists n :: 1 <= n <= |m.lines| && BringsEnd(m, step, n) && OnlyOneUp(m.lines, n))
                              || (step.HangUpDone? && m.tool.Dropping? && OnlyOneUp(m.lines, m.tool.n)))
  {
    if !step.FromOutside? {
      if HangsUp(step) { HangUpStepMoves(m, step); } else { ToolStepMoves(m, step); }
    } else if BringsNews(m, step) {
      HeedNewsMoves(m, step);
    } else {
      var events := Next(m.link, step.step).events;
      HeedEndMoves(m, step, LineOf(m.lines, events[|m.link.events|].call.id));
    }
    hide MNext, ToolMoves, ActiveMoves, OnlyOneUp, Next;
  }

  /** The lines hear all that the phone line announces, except that the end of a call is the
      end of its line, and a placed call's line is there from the moment it is placed. */
  lemma LinesHear(m: Mission, step: MStep)
    requires CanStep(m, step) && !step.HangUpDone? && (step.FromOutside? ==> BringsNews(m, step))
    requires |m.link.events| <= |MNext(m, step).link.events|
    ensures var m' := MNext(m, step);
            m'.lines == HeardAll(m.lines, m'.link.events[|m.link.events|..])
                        + if step.DialSucceeds? then [PartyLine(step.id, CallState.Dialing)] else []
  {
    if step.FromOutside? {
      hide Next, Filed, LineOf, Live, Possible;
    } else if HangsUp(step) {
      HangUpSaysNothing(m, step);
    } else {
      hide Hold, Resume, Swap, Live, Filed;
    }
  }

  lemma HangUpSaysNothing(m: Mission, step: MStep)
    requires CanStep(m, step) && HangsUp(step) && !step.HangUpDone?
    ensures var m' := MNext(m, step); m'.lines == m.lines && m'.link.events == m.link.events
    ensures HeardAll(m.lines, MNext(m, step).link.events[|m.link.events|..]) == m.lines
  {
    hide Live, Filed;
  }
}
