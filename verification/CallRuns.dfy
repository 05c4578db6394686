/** Runs of a call mission in which something comes too late, and what becomes of them. */
module CallRuns {
  import opened Wrappers
  import opened Twilio
  import opened PartyLines
  import opened CallLines
  import opened CallRow

  // ---- runs with such steps ----

  ghost predicate Party(l: Line, id: CallId, held: bool, state: CallState)
  {
    id in l.legs && l.legs[id].held == held && l.legs[id].call == LineCall(id, state, false)
  }

  /** Where a mission with two parties stands. */
  ghost predicate Stands(m: Mission, a: CallId, b: CallId, lines: seq<PartyLine>, active: nat, tool: Tool)
  {
    && Consistent(m.link) && m.link.order == [a, b] && a != b && m.lines == lines && m.active == active && m.tool == tool && !m.ended
  }

  lemma RunFrom(m: Mission, step: MStep, rest: seq<MStep>, end: Mission)
    requires CanStep(m, step) && IsMissionRun(MNext(m, step), rest, end)
    ensures IsMissionRun(m, [step] + rest, end)
    ensures InTime(m, step) && InTimeRun(MNext(m, step), rest) ==> InTimeRun(m, [step] + rest)
  {
    assert ([step] + rest)[0] == step && ([step] + rest)[1..] == rest;
  }

  /** The link sets one call's state, and the mission hears it. */
  lemma HearsState(m: Mission, l: Line, id: CallId, state: CallState)
    requires l.events == m.link.events && id in l.legs && l.legs[id].call.id == id
    requires l.legs[id].call.state != state && l.legs[id].call.state != Ended
    ensures var call := l.legs[id].call.(state := state);
            Informed(m, SetState(l, id, state)) == m.(link := SetCall(l, call), lines := Heard(m.lines, call))
  {
    var call := l.legs[id].call.(state := state);
    var link := SetCall(l, call);
    assert link.events[|m.link.events|..] == [StateChanged(call)];
    assert [StateChanged(call)][..0] == [];
    assert HeardAll(m.lines, [StateChanged(call)]) == Heard(m.lines, call);
  }

  lemma HoldIs(l: Line, t: CallId)
    requires Filed(l) && l.order != [] && l.order[|l.order| - 1] == t && Party(l, t, false, Active)
    ensures Hold(l) == Some(SetState(Park(l, t), t, Held))
  {
    hide SetState;
  }

  lemma Parked(l: Line, t: CallId) returns (l': Line)
    requires Party(l, t, false, Active)
    ensures l' == SetCall(Park(l, t), LineCall(t, Held, false)) && Party(l', t, true, Held)
    ensures l'.order == l.order && l'.seen == l.seen
    ensures forall id :: id != t && id in l.legs ==> id in l'.legs && l'.legs[id] == l.legs[id]
  {
    l' := SetCall(Park(l, t), LineCall(t, Held, false));
  }

  lemma ParkedIs(m: Mission, t: CallId, link: Line)
    requires Filed(m.link) && |Live(m.lines)| <= 1 && Party(m.link, t, false, Active)
    requires m.link.order != [] && m.link.order[|m.link.order| - 1] == t && link == SetCall(Park(m.link, t), LineCall(t, Held, false))
    ensures CallParty(m) == Some(m.(link := link, lines := Heard(m.lines, LineCall(t, Held, false)), tool := Placing(m.active)))
  {
    HoldIs(m.link, t);
    HearsState(m, Park(m.link, t), t, Held);
    hide Hold, Live, Informed, SetState, Heard, SetCall;
  }

  /** call_party holds the party it talks to. */
  lemma Parks(m: Mission, t: CallId) returns (m': Mission)
    requires Consistent(m.link) && !m.ended && m.tool.Idle? && |Live(m.lines)| <= 1
    requires m.link.order != [] && m.link.order[|m.link.order| - 1] == t && Party(m.link, t, false, Active)
    ensures CanStep(m, ToolCallParty) && m' == MNext(m, ToolCallParty) && Consistent(m'.link)
    ensures m' == m.(link := m'.link, lines := Heard(m.lines, LineCall(t, Held, false)), tool := Placing(m.active))
    ensures Party(m'.link, t, true, Held) && m'.link.order == m.link.order && m'.link.seen == m.link.seen
    ensures forall id :: id != t && id in m.link.legs ==> id in m'.link.legs && m'.link.legs[id] == m.link.legs[id]
  {
    hide Consistent, Live, CallParty, Heard, Party, Filed;
    MStepConsistent(m, ToolCallParty);
    var link := Parked(m.link, t);
    ParkedIs(m, t, link);
    m' := MNext(m, ToolCallParty);
  }

  lemma ConnectedShape(a: CallId)
    ensures var m := Connected(a, CallState.Dialing);
            && m.link.order == [a] && Party(m.link, a, false, Active) && m.link.seen == {a} && m.link.legs.Keys == {a}
            && m.tool.Idle? && m.active == 1 && m.lines == [PartyLine(a, Active)] && !m.ended
  {
  }

  lemma LiveOfOne(line: PartyLine)
    ensures |Live([line])| <= 1
  {
    assert Live([line][..0]) == [];
  }

  /** The first party is held. */
  lemma OneHolds(a: CallId) returns (m: Mission)
    ensures var m0 := Connected(a, CallState.Dialing);
            CanStep(m0, ToolCallParty) && m == MNext(m0, ToolCallParty)
    ensures Consistent(m.link) && m.link.order == [a] && m.link.seen == {a} && Party(m.link, a, true, Held)
    ensures m.lines == [PartyLine(a, Held)] && m.active == 1 && m.tool == Placing(1) && !m.ended
  {
    var m0 := Connected(a, CallState.Dialing);
    hide Connected, Live, Consistent, MNext, InTouch, Party, Heard, CanStep, Agrees;
    ConnectedConsistent(a);
    ConnectedShape(a);
    LiveOfOne(PartyLine(a, Active));
    m := Parks(m0, a);
    HeardAlone(a);
  }

  lemma ConnectedConsistent(a: CallId)
    ensures Consistent(Connected(a, CallState.Dialing).link)
  {
    hide Consistent, Connected, InTouch;
    ConnectedAgrees(a, CallState.Dialing);
  }

  lemma HeardAlone(a: CallId)
    ensures Heard([PartyLine(a, Active)], LineCall(a, Held, false)) == [PartyLine(a, Held)]
  {
  }

  /** A second one's phone rings. */
  lemma TwoRing(m: Mission, a: CallId, b: CallId) returns (m': Mission)
    requires Consistent(m.link) && m.link.order == [a] && m.link.seen == {a} && Party(m.link, a, true, Held) && a != b
    requires m.lines == [PartyLine(a, Held)] && m.active == 1 && m.tool == Placing(1) && !m.ended
    ensures CanStep(m, DialSucceeds(b)) && m' == MNext(m, DialSucceeds(b))
    ensures Stands(m', a, b, [PartyLine(a, Held), PartyLine(b, CallState.Dialing)], 2, Waiting(1, 2))
    ensures Party(m'.link, a, true, Held) && Party(m'.link, b, false, CallState.Dialing)
  {
    hide Consistent, HeardAll, LegsAgree;
    MStepConsistent(m, DialSucceeds(b));
    m' := MNext(m, DialSucceeds(b));
    assert b !in m.link.legs by { BooksSeen(m.link); }
    StrangerUnheard(m.lines, Dialed(m.link, b).events[|m.link.events|..], b);
  }

  lemma BooksSeen(l: Line)
    requires Consistent(l)
    ensures l.legs.Keys <= l.seen
  {
  }

  function Answers(b: CallId): MStep { FromOutside(StatusCallback(b, Progress(Active))) }

  /** The party that is being called answers. */
  lemma TwoTalk(m: Mission, a: CallId, b: CallId) returns (m': Mission)
    requires Stands(m, a, b, [PartyLine(a, Held), PartyLine(b, CallState.Dialing)], 2, Waiting(1, 2))
    requires Party(m.link, a, true, Held) && Party(m.link, b, false, CallState.Dialing)
    ensures CanStep(m, Answers(b)) && m' == MNext(m, Answers(b)) && InTime(m, Answers(b))
    ensures Stands(m', a, b, [PartyLine(a, Held), PartyLine(b, Active)], 2, Idle)
    ensures Party(m'.link, a, true, Held) && Party(m'.link, b, false, Active)
  {
    hide Consistent, PartyLeft, HeardAll, Informed, Filed;
    MStepConsistent(m, Answers(b));
    var call := LineCall(b, Active, false);
    AnswerIs(m.link, b, call);
    HearsOne(m, call);
    assert Heard(m.lines, call) == [PartyLine(a, Held), PartyLine(b, Active)];
    hide Next, Heard;
    m' := MNext(m, Answers(b));
  }

  lemma AnswerIs(l: Line, b: CallId, call: LineCall)
    requires Filed(l) && Party(l, b, false, CallState.Dialing) && call == LineCall(b, Active, false)
    ensures Next(l, StatusCallback(b, Progress(Active))) == SetCall(l, call) && Party(SetCall(l, call), b, false, Active)
    ensures SetCall(l, call).order == l.order && forall id :: id != b && id in l.legs ==> SetCall(l, call).legs[id] == l.legs[id]
    ensures |SetCall(l, call).events| == |l.events| + 1 && !SetCall(l, call).events[|l.events|].CallEnded?
    ensures SetCall(l, call).legs.Keys == l.legs.Keys
  {
  }

  lemma LiveOfTwo(x: PartyLine, y: PartyLine)
    ensures Live([x, y]) == (if x.state == Ended then [] else [1]) + (if y.state == Ended then [] else [2])
  {
    assert [x, y][..1] == [x] && [x][..0] == [];
    assert Live([x]) == if x.state == Ended then [] else [1];
  }

  /** One of the two is dropped. */
  lemma DropStarts(m: Mission, a: CallId, b: CallId, n: nat) returns (m': Mission)
    requires Stands(m, a, b, [PartyLine(a, Held), PartyLine(b, Active)], 2, Idle) && 1 <= n <= 2
    requires Party(m.link, a, true, Held) && Party(m.link, b, false, Active)
    ensures CanStep(m, ToolDropLine(n)) && m' == MNext(m, ToolDropLine(n))
    ensures Stands(m', a, b, [PartyLine(a, Held), PartyLine(b, Active)], 2, Dropping(n))
    ensures Party(m'.link, a, true, Held) && Party(m'.link, b, false, Active)
  {
    hide Consistent, Live, Filed;
    LiveOfTwo(PartyLine(a, Held), PartyLine(b, Active));
    MStepConsistent(m, ToolDropLine(n));
    m' := MNext(m, ToolDropLine(n));
  }

  /** Twilio accepts the hang-up before it reports the end. */
  lemma DropDone(m: Mission, a: CallId, b: CallId, n: nat) returns (m': Mission)
    requires Stands(m, a, b, [PartyLine(a, Held), PartyLine(b, Active)], 2, Dropping(n)) && 1 <= n <= 2
    requires Party(m.link, a, true, Held) && Party(m.link, b, false, Active)
    ensures CanStep(m, HangUpDone) && m' == MNext(m, HangUpDone) && (InTime(m, HangUpDone) <==> n == 1)
    ensures var lines := if n == 1 then [PartyLine(a, Ended), PartyLine(b, Active)] else [PartyLine(a, Held), PartyLine(b, Ended)];
            Stands(m', a, b, lines, if n == 1 then 2 else 1, Idle)
    ensures m'.link == m.link
  {
    hide Consistent, Live, Filed, Resume;
    LiveOfTwo(PartyLine(a, Ended), PartyLine(b, Active));
    LiveOfTwo(PartyLine(a, Held), PartyLine(b, Ended));
    MStepConsistent(m, HangUpDone);
    NoResume(m.link, b);
    assert EndLine(m, n).lines == if n == 1 then [PartyLine(a, Ended), PartyLine(b, Active)] else [PartyLine(a, Held), PartyLine(b, Ended)];
    m' := MNext(m, HangUpDone);
  }

  lemma NoResume(l: Line, b: CallId)
    requires Filed(l) && l.order != [] && l.order[|l.order| - 1] == b && Party(l, b, false, Active)
    ensures Resume(l).None?
  {
  }

  /** It can come too soon: the first party is held, another is called and answers, and is
      dropped; Twilio accepts the hang-up before it reports the end. The party hung up on stays
      off hold, and the mission takes itself to be with the first. */
  lemma TheEndCanComeLate(a: CallId, b: CallId) returns (steps: seq<MStep>, m: Mission)
    requires a != b
    ensures IsMissionRun(Connected(a, CallState.Dialing), steps + [HangUpDone], m)
    ensures InTimeRun(Connected(a, CallState.Dialing), steps) && !m.ended && !NoWrongParty(m)
  {
    var m0, ring, drop := Connected(a, CallState.Dialing), DialSucceeds(b), ToolDropLine(2);
    hide Connected, CanStep, MNext, NoWrongParty, Consistent, InTime, IsMissionRun, InTimeRun, Party;
    var m1 := OneHolds(a);
    var m2 := TwoRing(m1, a, b);
    var m3 := TwoTalk(m2, a, b);
    var m4 := DropStarts(m3, a, b, 2);
    m := DropDone(m4, a, b, 2);
    StandsWrong(m, a, b);
    CommandInTime(m0, ToolCallParty);
    CommandInTime(m1, ring);
    CommandInTime(m3, drop);
    steps := FiveRun(m0, m1, m2, m3, m4, m, ToolCallParty, ring, Answers(b), drop, HangUpDone);
  }

  lemma CommandInTime(m: Mission, step: MStep)
    requires !step.HangUpDone? && !step.FromOutside?
    ensures InTime(m, step)
  {
  }

  lemma StandsWrong(m: Mission, a: CallId, b: CallId)
    requires Stands(m, a, b, [PartyLine(a, Held), PartyLine(b, Ended)], 1, Idle) && Party(m.link, b, false, Active)
    ensures !NoWrongParty(m) && !m.ended
  {
    hide Consistent;
    HearsTheDropped(m, b);
  }

  lemma FiveRun(m0: Mission, m1: Mission, m2: Mission, m3: Mission, m4: Mission, m5: Mission,
                s0: MStep, s1: MStep, s2: MStep, s3: MStep, s4: MStep) returns (steps: seq<MStep>)
    requires CanStep(m0, s0) && m1 == MNext(m0, s0) && CanStep(m1, s1) && m2 == MNext(m1, s1)
    requires CanStep(m2, s2) && m3 == MNext(m2, s2) && CanStep(m3, s3) && m4 == MNext(m3, s3)
    requires CanStep(m4, s4) && m5 == MNext(m4, s4)
    requires InTime(m0, s0) && InTime(m1, s1) && InTime(m2, s2) && InTime(m3, s3)
    ensures IsMissionRun(m0, steps + [s4], m5) && InTimeRun(m0, steps)
    ensures InTime(m4, s4) ==> InTimeRun(m0, steps + [s4])
  {
    steps := [s0] + ([s1] + ([s2] + ([s3] + [])));
    assert IsMissionRun(m5, [], m5) && InTimeRun(m5, []) && IsMissionRun(m4, [], m4) && InTimeRun(m4, []);
    hide IsMissionRun, InTimeRun, CanStep, MNext, InTime;
    RunFrom(m4, s4, [], m5);
    RunFrom(m3, s3, [s4] + [], m5);
    RunFrom(m2, s2, [s3] + ([s4] + []), m5);
    RunFrom(m1, s1, [s2] + ([s3] + ([s4] + [])), m5);
    RunFrom(m0, s0, [s1] + ([s2] + ([s3] + ([s4] + []))), m5);
    RunFrom(m3, s3, [], m4);
    RunFrom(m2, s2, [s3] + [], m4);
    RunFrom(m1, s1, [s2] + ([s3] + []), m4);
    RunFrom(m0, s0, [s1] + ([s2] + ([s3] + [])), m4);
    LastOfFive(s0, s1, s2, s3, s4);
  }

  lemma LastOfFive(s0: MStep, s1: MStep, s2: MStep, s3: MStep, s4: MStep)
    ensures [s0] + ([s1] + ([s2] + ([s3] + []))) + [s4] == [s0] + ([s1] + ([s2] + ([s3] + ([s4] + []))))
  {
  }

  lemma {:induction false} RunOn(m0: Mission, x: seq<MStep>, m: Mission, y: seq<MStep>, end: Mission)
    requires IsMissionRun(m0, x, m) && IsMissionRun(m, y, end)
    ensures IsMissionRun(m0, x + y, end)
    decreases |x|
  {
    hide CanStep, MNext;
    if x == [] {
      assert x + y == y;
    } else {
      RunOn(MNext(m0, x[0]), x[1..], m, y, end);
      assert (x + y)[0] == x[0] && (x + y)[1..] == x[1..] + y;
    }
  }

  lemma {:induction false} InTimeOn(m0: Mission, x: seq<MStep>, m: Mission, y: seq<MStep>)
    requires IsMissionRun(m0, x, m) && InTimeRun(m0, x) && InTimeRun(m, y)
    ensures InTimeRun(m0, x + y)
    decreases |x|
  {
    hide CanStep, MNext, InTime;
    if x == [] {
      assert x + y == y;
    } else {
      InTimeOn(MNext(m0, x[0]), x[1..], m, y);
      assert (x + y)[0] == x[0] && (x + y)[1..] == x[1..] + y;
    }
  }

  lemma TwoRun(m0: Mission, m1: Mission, m2: Mission, s0: MStep, s1: MStep)
    requires CanStep(m0, s0) && m1 == MNext(m0, s0) && CanStep(m1, s1) && m2 == MNext(m1, s1)
    ensures IsMissionRun(m0, [s0, s1], m2)
    ensures InTime(m0, s0) && InTime(m1, s1) ==> InTimeRun(m0, [s0, s1])
  {
    assert IsMissionRun(m2, [], m2) && InTimeRun(m2, []);
    hide IsMissionRun, InTimeRun, CanStep, MNext, InTime;
    RunFrom(m1, s1, [], m2);
    RunFrom(m0, s0, [s1] + [], m2);
    assert [s0] + ([s1] + []) == [s0, s1];
  }

  /** The first party dropped while the second is up. */
  lemma FirstDropped(a: CallId, b: CallId) returns (steps: seq<MStep>, m: Mission)
    requires a != b
    ensures IsMissionRun(Connected(a, CallState.Dialing), steps, m) && InTimeRun(Connected(a, CallState.Dialing), steps)
    ensures Stands(m, a, b, [PartyLine(a, Ended), PartyLine(b, Active)], 2, Idle)
    ensures Party(m.link, a, true, Held) && Party(m.link, b, false, Active)
  {
    var m0, ring, drop := Connected(a, CallState.Dialing), DialSucceeds(b), ToolDropLine(1);
    hide Connected, CanStep, MNext, NoWrongParty, Consistent, InTime, IsMissionRun, InTimeRun, Party;
    var m1 := OneHolds(a);
    var m2 := TwoRing(m1, a, b);
    var m3 := TwoTalk(m2, a, b);
    var m4 := DropStarts(m3, a, b, 1);
    m := DropDone(m4, a, b, 1);
    CommandInTime(m0, ToolCallParty);
    CommandInTime(m1, ring);
    CommandInTime(m3, drop);
    steps := FiveRun(m0, m1, m2, m3, m4, m, ToolCallParty, ring, Answers(b), drop, HangUpDone);
    steps := steps + [HangUpDone];
  }

  /** The mission calls another party, and Twilio refuses to dial: the party it talks to stays
      on hold. */
  lemma DialRefused(m: Mission, a: CallId, b: CallId) returns (m1: Mission, m2: Mission)
    requires Stands(m, a, b, [PartyLine(a, Ended), PartyLine(b, Active)], 2, Idle)
    requires Party(m.link, a, true, Held) && Party(m.link, b, false, Active)
    ensures CanStep(m, ToolCallParty) && m1 == MNext(m, ToolCallParty) && CanStep(m1, DialFails) && m2 == MNext(m1, DialFails)
    ensures Stands(m2, a, b, [PartyLine(a, Ended), PartyLine(b, Held)], 2, Idle)
    ensures Party(m2.link, a, true, Held) && Party(m2.link, b, true, Held)
  {
    LiveOfTwo(PartyLine(a, Ended), PartyLine(b, Active));
    hide Live, Consistent, Filed, CallParty;
    m1 := Parks(m, b);
    assert m1.lines == [PartyLine(a, Ended), PartyLine(b, Held)];
    MStepConsistent(m1, DialFails);
    m2 := MNext(m1, DialFails);
  }

  /** A late callback: the call rings. */
  function Rings(a: CallId): MStep { FromOutside(StatusCallback(a, Progress(Alerting))) }

  lemma RingIs(l: Line, a: CallId, call: LineCall)
    requires Filed(l) && Party(l, a, true, Held) && call == LineCall(a, Alerting, false)
    ensures Next(l, StatusCallback(a, Progress(Alerting))) == SetCall(l, call) && Party(SetCall(l, call), a, true, Alerting)
    ensures SetCall(l, call).order == l.order && forall id :: id != a && id in l.legs ==> SetCall(l, call).legs[id] == l.legs[id]
    ensures SetCall(l, call).legs.Keys == l.legs.Keys
  {
  }

  lemma RingsAgain(m: Mission, a: CallId, b: CallId) returns (m': Mission)
    requires Stands(m, a, b, [PartyLine(a, Ended), PartyLine(b, Held)], 2, Idle)
    requires Party(m.link, a, true, Held) && Party(m.link, b, true, Held)
    ensures CanStep(m, Rings(a)) && m' == MNext(m, Rings(a))
    ensures Stands(m', a, b, [PartyLine(a, Alerting), PartyLine(b, Held)], 2, Idle)
    ensures Party(m'.link, a, true, Alerting) && Party(m'.link, b, true, Held)
  {
    hide Consistent, PartyLeft, HeardAll, Informed, Filed;
    MStepConsistent(m, Rings(a));
    var call := LineCall(a, Alerting, false);
    RingIs(m.link, a, call);
    HeedsState(m, call);
    assert m.lines[..1] == [PartyLine(a, Ended)] && LineOf([PartyLine(a, Ended)], a) == 1;
    assert Heard(m.lines, call) == [PartyLine(a, Alerting), PartyLine(b, Held)];
    hide Next, Heard, Heed;
    m' := MNext(m, Rings(a));
  }

  /** The mission turns to the line of the dropped party, and takes the other one off hold. */
  lemma SwitchesWrong(m: Mission, a: CallId, b: CallId) returns (m': Mission)
    requires Stands(m, a, b, [PartyLine(a, Alerting), PartyLine(b, Held)], 2, Idle)
    requires Party(m.link, a, true, Alerting) && Party(m.link, b, true, Held)
    ensures CanStep(m, ToolSwitchLine(1)) && m' == MNext(m, ToolSwitchLine(1)) && !m'.ended && !NoWrongParty(m')
  {
    hide Consistent, Live, Resume, Swap, Informed, NoWrongParty, Filed, Party, SwitchLine;
    MStepConsistent(m, ToolSwitchLine(1));
    var link := LastTakenOff(m.link, a, b);
    SwitchIs(m, a, b, link);
    m' := MNext(m, ToolSwitchLine(1));
    InformedHas(m, link);
    HearsTheDropped(m', b);
  }

  lemma InformedHas(m: Mission, link: Line)
    ensures var m' := Informed(m, link);
            m' == m.(link := link, lines := m'.lines) && SameCalls(m.lines, m'.lines)
  {
    if |m.link.events| <= |link.events| { SameCallsHeard(m.lines, link.events[|m.link.events|..]); }
  }

  lemma {:induction false} SameCallsHeard(lines: seq<PartyLine>, events: seq<Event>)
    ensures SameCalls(lines, HeardAll(lines, events))
  {
    if events != [] { SameCallsHeard(lines, events[..|events| - 1]); }
  }

  lemma SwitchIs(m: Mission, a: CallId, b: CallId, link: Line)
    requires m.lines == [PartyLine(a, Alerting), PartyLine(b, Held)] && m.active == 2 && Filed(m.link) && Resume(m.link) == Some(link)
    ensures SwitchLine(m, 1) == Some(Informed(m, link).(active := 1))
  {
    hide Live, Resume, Swap, Informed, Filed;
    LiveOfTwo(PartyLine(a, Alerting), PartyLine(b, Held));
  }

  lemma LastTakenOff(l: Line, a: CallId, b: CallId) returns (l': Line)
    requires Filed(l) && l.order == [a, b] && Party(l, a, true, Alerting) && Party(l, b, true, Held)
    ensures Resume(l) == Some(l') && b in l'.legs && !l'.legs[b].held
  {
    assert [a, b][..1] == [a] && [a][..0] == [];
    assert ActiveLeg(l.legs, [a]).None?;
    l' := SetState(SetHeld(l, b, false), b, Active);
  }

  /** Why the callbacks must come in order: the first party is held, another is called and
      answers, and the first one is dropped. A third is called, but Twilio refuses to dial. Now
      the first call is reported as ringing, late, and its line counts as up again. Switching to
      it takes the second party off hold, and the mission takes itself to be with the first. */
  lemma ALateRingingMisleads(a: CallId, b: CallId) returns (steps: seq<MStep>, m: Mission)
    requires a != b
    ensures IsMissionRun(Connected(a, CallState.Dialing), steps + [Rings(a), ToolSwitchLine(1)], m)
    ensures InTimeRun(Connected(a, CallState.Dialing), steps) && !m.ended && !NoWrongParty(m)
  {
    var m0 := Connected(a, CallState.Dialing);
    hide Connected, CanStep, MNext, NoWrongParty, Consistent, InTime, IsMissionRun, InTimeRun, Party, Stands;
    var first, m1 := FirstDropped(a, b);
    var m2, m3 := DialRefused(m1, a, b);
    CommandInTime(m1, ToolCallParty);
    CommandInTime(m2, DialFails);
    TwoRun(m1, m2, m3, ToolCallParty, DialFails);
    steps := first + [ToolCallParty, DialFails];
    RunOn(m0, first, m1, [ToolCallParty, DialFails], m3);
    InTimeOn(m0, first, m1, [ToolCallParty, DialFails]);
    var m4 := RingsAgain(m3, a, b);
    m := SwitchesWrong(m4, a, b);
    TwoRun(m3, m4, m, Rings(a), ToolSwitchLine(1));
    RunOn(m0, steps, m3, [Rings(a), ToolSwitchLine(1)], m);
  }

  lemma FailsNow(m: Mission)
    requires CanStep(m, DialFails)
    ensures MNext(m, DialFails) == m.(tool := Idle, dialFailed := true)
  {
  }

  /** A dial that fails leaves the only party on hold: the shortest such run. */
  lemma AFailedDialLeavesHold(a: CallId) returns (m: Mission)
    ensures IsMissionRun(Connected(a, CallState.Dialing), [ToolCallParty, DialFails], m)
    ensures InTimeRun(Connected(a, CallState.Dialing), [ToolCallParty, DialFails])
    ensures Agrees(m) && !m.ended && m.tool.Idle? && m.dialFailed && Party(m.link, a, true, Held)
  {
    var m0 := Connected(a, CallState.Dialing);
    ConnectedAgrees(a, CallState.Dialing);
    hide Connected, NoWrongParty, Consistent, InTouch, Party, IsMissionRun, InTimeRun, InTime, CanStep, ToolNext, Heed, HangUpNext;
    var m1 := OneHolds(a);
    MStepConsistent(m1, DialFails);
    m := MNext(m1, DialFails);
    FailsNow(m1);
    CommandInTime(m0, ToolCallParty);
    CommandInTime(m1, DialFails);
    TwoRun(m0, m1, m, ToolCallParty, DialFails);
    RunAgrees(m0, [ToolCallParty, DialFails], m);
  }
}
