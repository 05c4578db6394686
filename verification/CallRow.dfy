/** Why a call mission and its phone line stay in agreement, step by step and over every run
    (call.ts, twilio.ts). */
module CallRow {
  import opened Wrappers
  import opened Twilio
  import opened PartyLines
  import opened CallLines

  // ---- the two machines agree ----

  /** Which legs there are, and which of them are on hold. */
  function Holds(legs: map<CallId, Leg>): map<CallId, bool> { map id | id in legs :: legs[id].held }

  /** The call of the line the mission talks to. */
  function Talking(m: Mission): CallId
    requires 1 <= m.active <= |m.lines|
  {
    m.lines[m.active - 1].callId
  }

  /** The call's line is not over. */
  ghost predicate IsUp(lines: seq<PartyLine>, id: CallId)
  {
    LineOf(lines, id) > 0 && lines[LineOf(lines, id) - 1].state != Ended
  }

  /** The legs in the phone line's order: first those the mission has dropped, on hold; then the
      other party that is up, if there is one, on hold; last the one the mission talks to. That
      one is on hold only if no other is up. */
  ghost predicate InRow(order: seq<CallId>, holds: map<CallId, bool>, lines: seq<PartyLine>, talking: CallId)
  {
    var n := |order| - 1;
    && n >= 0 && order[n] == talking && talking in holds && IsUp(lines, talking)
    && (forall i :: 0 <= i < n ==> order[i] in holds && holds[order[i]])
    && (forall i :: 0 <= i < n - 1 ==> !IsUp(lines, order[i]))
    && (holds[talking] && n > 0 ==> !IsUp(lines, order[n - 1]))
  }

  ghost predicate LineKnown(line: PartyLine, holds: map<CallId, bool>, seen: set<CallId>)
  {
    line.callId in seen && (line.callId !in holds ==> line.state == Ended)
  }

  /** No line before or after has the same call. */
  ghost predicate OwnCall(lines: seq<PartyLine>, i: nat)
    requires i < |lines|
  {
    LineOf(lines, lines[i].callId) == i + 1
  }

  ghost predicate HasLine(lines: seq<PartyLine>, id: CallId) { LineOf(lines, id) > 0 }

  /** The phone line's legs are lines of the mission, among them all that are not over. A line
      the mission has dropped is over before its leg is gone. */
  ghost predicate LinesKnown(lines: seq<PartyLine>, holds: map<CallId, bool>, seen: set<CallId>)
  {
    && (forall i {:trigger LineKnown(lines[i], holds, seen)} :: 0 <= i < |lines| ==> LineKnown(lines[i], holds, seen))
    && (forall i {:trigger OwnCall(lines, i)} :: 0 <= i < |lines| ==> OwnCall(lines, i))
    && forall id {:trigger HasLine(lines, id)} :: id in holds ==> HasLine(lines, id)
  }

  ghost predicate UpAmong(lines: seq<PartyLine>, i: nat, j: nat)
  {
    forall k :: 0 <= k < |lines| && lines[k].state != Ended ==> k + 1 == i || k + 1 == j
  }

  /** What is up while a tool waits, and which line the mission talks to. */
  ghost predicate ToolKnown(tool: Tool, lines: seq<PartyLine>, active: nat, legs: set<CallId>)
  {
    match tool
    case Idle => true
    case Placing(first) => first == active
    case Waiting(first, n) =>
      1 <= first < n == active <= |lines| && UpAmong(lines, first, n) && lines[n - 1].state != Active
    case GivingUp(first, n) =>
      1 <= first < n <= |lines| && UpAmong(lines, first, n) && (lines[n - 1].callId in legs ==> active == n)
    case Dropping(n) => 1 <= n <= |lines|
  }

  /** Who the mission talks to is on hold while call_party dials, and for good if that fails. */
  predicate HoldKnown(held: bool, tool: Tool, dialFailed: bool)
  {
    (held <==> tool.Placing? || dialFailed) && (dialFailed ==> tool.Idle? || tool.Dropping?)
  }

  ghost predicate Known(m: Mission)
  {
    1 <= m.active <= |m.lines| && LinesKnown(m.lines, Holds(m.link.legs), m.link.seen)
  }

  /** The mission knows its lines, the legs are in the row it takes them to be in, and it knows
      where its line tool stands. */
  ghost predicate InTouch(m: Mission)
  {
    && Known(m)
    && InRow(m.link.order, Holds(m.link.legs), m.lines, Talking(m))
    && ToolKnown(m.tool, m.lines, m.active, Holds(m.link.legs).Keys)
    && HoldKnown(Holds(m.link.legs)[Talking(m)], m.tool, m.dialFailed)
  }

  ghost predicate Agrees(m: Mission) { Consistent(m.link) && (m.ended || InTouch(m)) }

  /** What the caller hears about: no party but the one on the mission's active line can get
      the voice model's audio or be heard by it, and every other party is on hold or gone. */
  ghost predicate NoWrongParty(m: Mission)
  {
    && 1 <= m.active <= |m.lines|
    && (ActiveLeg(m.link.legs, m.link.order).Some? ==> ActiveLeg(m.link.legs, m.link.order).value == Talking(m))
    && (forall id :: id in m.link.legs && !m.link.legs[id].held ==> id == Talking(m))
    && forall i :: 0 <= i < |m.lines| && i != m.active - 1 ==>
         m.lines[i].callId in m.link.legs ==> m.link.legs[m.lines[i].callId].held
  }

  lemma InTouchIsSafe(m: Mission)
    requires InTouch(m) && OrderAgrees(m.link.order, m.link.legs.Keys)
    ensures NoWrongParty(m)
  {
    var holds, order := Holds(m.link.legs), m.link.order;
    forall id | id in m.link.legs && !m.link.legs[id].held ensures id == Talking(m) {
      assert id in holds && !holds[id];
      assert id in order;
      var i :| 0 <= i < |order| && order[i] == id;
    }
    forall i | 0 <= i < |m.lines| && i != m.active - 1 ensures m.lines[i].callId != Talking(m) {
      DistinctCalls(m.lines, i + 1, m.active);
    }
  }

  lemma DistinctCalls(lines: seq<PartyLine>, i: nat, j: nat)
    requires forall i :: 0 <= i < |lines| ==> OwnCall(lines, i)
    requires 1 <= i <= |lines| && 1 <= j <= |lines| && i != j
    ensures lines[i - 1].callId != lines[j - 1].callId
  {
    assert OwnCall(lines, i - 1) && OwnCall(lines, j - 1);
  }

  // ---- steps that come in time ----

  /** Whether a reported state is news. */
  predicate IsNews(l: Line, id: CallId, state: CallState)
  {
    id in l.legs && state != l.legs[id].call.state && l.legs[id].call.state != Ended && !(state == Active && l.legs[id].held)
  }

  /** A status callback that tells of a call the mission has dropped as if it were still being
      set up: its line is taken to be up again. */
  predicate Revives(m: Mission, step: Step)
  {
    && step.StatusCallback? && step.status.Progress? && IsNews(m.link, step.id, step.status.state)
    && LineOf(m.lines, step.id) > 0 && m.lines[LineOf(m.lines, step.id) - 1].state == Ended
  }

  /** It does no harm if that call is the next in the row, and the mission talks to one that is
      off hold and is not calling another. */
  predicate Harmless(m: Mission, id: CallId)
  {
    var n := |m.link.order| - 1;
    && n > 0 && m.link.order[n - 1] == id
    && m.link.order[n] in m.link.legs && !m.link.legs[m.link.order[n]].held
    && match m.tool
       case Waiting(first, _) => LineOf(m.lines, id) == first
       case GivingUp(first, _) => LineOf(m.lines, id) == first
       case _ => true
  }

  /** The tool goes on to `resume` with the call it hung up still there: the call it gives up,
      or the one it talks to and drops while another is up. */
  predicate TooSoon(m: Mission)
  {
    match m.tool
    case GivingUp(_, n) => 1 <= n <= |m.lines| && m.lines[n - 1].callId in m.link.legs
    case Dropping(n) => n == m.active && 1 <= n <= |m.lines| && Live(EndLine(m, n).lines) != []
    case _ => false
  }

  predicate InTime(m: Mission, step: MStep)
  {
    match step
    case HangUpDone => !TooSoon(m)
    case FromOutside(s) => Revives(m, s) ==> Harmless(m, s.id)
    case _ => true
  }

  // ---- the events the mission hears ----

  ghost predicate StatesOf(events: seq<Event>, ids: set<CallId>)
  {
    forall k :: 0 <= k < |events| ==> events[k].call.state != Ended && events[k].call.id in ids
  }

  ghost predicate SameCalls(lines: seq<PartyLine>, lines': seq<PartyLine>)
  {
    |lines| == |lines'| && forall i :: 0 <= i < |lines| ==> lines'[i].callId == lines[i].callId
  }

  /** The same calls, and the same of them over. */
  ghost predicate SameUp(lines: seq<PartyLine>, lines': seq<PartyLine>)
  {
    SameCalls(lines, lines') && forall i :: 0 <= i < |lines| ==> (lines'[i].state == Ended <==> lines[i].state == Ended)
  }

  ghost predicate AllUp(lines: seq<PartyLine>, ids: set<CallId>)
  {
    forall i :: 0 <= i < |lines| && lines[i].callId in ids ==> lines[i].state != Ended
  }

  /** Hearing states of calls that are up moves no line to or from "ended". */
  lemma {:induction false} HeardAllKeeps(lines: seq<PartyLine>, events: seq<Event>, ids: set<CallId>)
    requires StatesOf(events, ids) && AllUp(lines, ids)
    ensures SameUp(lines, HeardAll(lines, events))
  {
    if events != [] {
      var n := |events| - 1;
      HeardAllKeeps(lines, events[..n], ids);
      assert events[n].call.id in ids;
    }
  }

  lemma {:induction false} LineOfByCall(lines: seq<PartyLine>, lines': seq<PartyLine>, id: CallId)
    requires SameCalls(lines, lines')
    ensures LineOf(lines', id) == LineOf(lines, id)
  {
    if lines != [] { LineOfByCall(lines[..|lines| - 1], lines'[..|lines| - 1], id); }
  }

  lemma UpByCall(lines: seq<PartyLine>, lines': seq<PartyLine>, id: CallId)
    requires SameUp(lines, lines')
    ensures IsUp(lines', id) == IsUp(lines, id)
  {
    LineOfByCall(lines, lines', id);
  }

  /** With line n over, its call is not up, and the others are as they were. */
  lemma UpButOne(lines: seq<PartyLine>, n: nat, id: CallId)
    requires 1 <= n <= |lines| && forall i :: 0 <= i < |lines| ==> OwnCall(lines, i)
    ensures IsUp(lines[n - 1 := lines[n - 1].(state := Ended)], id) <==> IsUp(lines, id) && id != lines[n - 1].callId
  {
    LineOfByCall(lines, lines[n - 1 := lines[n - 1].(state := Ended)], id);
    assert OwnCall(lines, n - 1);
  }

  lemma KnownByCall(lines: seq<PartyLine>, lines': seq<PartyLine>, holds: map<CallId, bool>, holds': map<CallId, bool>,
                    seen: set<CallId>)
    requires LinesKnown(lines, holds, seen) && SameCalls(lines, lines') && holds'.Keys <= holds.Keys
    requires forall i :: 0 <= i < |lines'| ==> LineKnown(lines'[i], holds', seen)
    ensures LinesKnown(lines', holds', seen)
  {
    forall i | 0 <= i < |lines'| ensures OwnCall(lines', i) {
      assert OwnCall(lines, i);
      LineOfByCall(lines, lines', lines[i].callId);
    }
    forall id | id in holds' ensures HasLine(lines', id) {
      assert HasLine(lines, id);
      LineOfByCall(lines, lines', id);
    }
  }

  lemma KnownAlike(lines: seq<PartyLine>, lines': seq<PartyLine>, holds: map<CallId, bool>, holds': map<CallId, bool>,
                   seen: set<CallId>)
    requires LinesKnown(lines, holds, seen) && SameUp(lines, lines') && holds'.Keys == holds.Keys
    ensures LinesKnown(lines', holds', seen)
  {
    forall i | 0 <= i < |lines'| ensures LineKnown(lines'[i], holds', seen) { assert LineKnown(lines[i], holds, seen); }
    KnownByCall(lines, lines', holds, holds', seen);
  }

  /** A call the mission has a line for is known to the phone line while it is up. */
  lemma UpHasLeg(lines: seq<PartyLine>, holds: map<CallId, bool>, seen: set<CallId>, n: nat)
    requires LinesKnown(lines, holds, seen) && 1 <= n <= |lines| && lines[n - 1].state != Ended
    ensures lines[n - 1].callId in holds && IsUp(lines, lines[n - 1].callId)
  {
    assert LineKnown(lines[n - 1], holds, seen) && OwnCall(lines, n - 1);
  }

  // ---- what the link's commands do to the legs ----

  /** Only who is on hold changed, and the link reported nothing but states of some calls. */
  ghost predicate Reheld(l: Line, l': Line, ids: set<CallId>)
  {
    && Holds(l'.legs).Keys == Holds(l.legs).Keys && l'.seen == l.seen
    && l.events <= l'.events && StatesOf(l'.events[|l.events|..], ids)
  }

  lemma SetStateEffect(l: Line, id: CallId, state: CallState)
    requires Filed(l) && id in l.legs && state != Ended
    ensures Reheld(l, SetState(l, id, state), {id}) && Filed(SetState(l, id, state))
    ensures Holds(SetState(l, id, state).legs) == Holds(l.legs) && SetState(l, id, state).order == l.order
    ensures SetState(l, id, state).legs.Keys == l.legs.Keys
  {
  }

  lemma ReheldTwice(l: Line, l': Line, l'': Line, ids: set<CallId>)
    requires Reheld(l, l', ids) && Reheld(l', l'', ids)
    ensures Reheld(l, l'', ids)
  {
    assert l''.events[|l.events|..] == l'.events[|l.events|..] + l''.events[|l'.events|..];
  }

  lemma ReheldMore(l: Line, l': Line, ids: set<CallId>, more: set<CallId>)
    requires Reheld(l, l', ids) && ids <= more
    ensures Reheld(l, l', more)
  {
  }

  /** One leg's hold changes, and nothing is reported. */
  lemma OneReheld(l: Line, l': Line, id: CallId, leg: Leg, ids: set<CallId>)
    requires Filed(l) && id in l.legs && leg.call == l.legs[id].call
    requires l'.legs == l.legs[id := leg] && l'.events == l.events && l'.seen == l.seen
    ensures Filed(l') && Holds(l'.legs) == Holds(l.legs)[id := leg.held] && Reheld(l, l', ids)
  {
  }

  lemma HoldEffect(l: Line, now: CallId)
    requires Filed(l) && Hold(l).Some? && ActiveLeg(l.legs, l.order) == Some(now)
    ensures now in l.legs && Reheld(l, Hold(l).value, {now}) && Hold(l).value.order == l.order
    ensures Holds(Hold(l).value.legs) == Holds(l.legs)[now := true]
  {
    var parked := Park(l, now);
    OneReheld(l, parked, now, parked.legs[now], {now});
    SetStateEffect(parked, now, Held);
    ReheldTwice(l, parked, Hold(l).value, {now});
  }

  lemma ResumeEffect(l: Line, h: CallId)
    requires Filed(l) && Resume(l).Some? && HeldLeg(l.legs, l.order) == Some(h)
    ensures h in l.legs && Reheld(l, Resume(l).value, {h}) && Resume(l).value.order == l.order
    ensures Holds(Resume(l).value.legs) == Holds(l.legs)[h := false]
  {
    var l1 := SetHeld(l, h, false);
    OneReheld(l, l1, h, l1.legs[h], {h});
    SetStateEffect(l1, h, Active);
    ReheldTwice(l, l1, Resume(l).value, {h});
  }

  lemma Exchanged(l: Line, now: CallId, h: CallId, order: seq<CallId>)
    requires Filed(l) && now in l.legs && h in l.legs && now != h
    ensures var l1 := SetHeld(Park(l, now), h, false).(order := order);
            Filed(l1) && Holds(l1.legs) == Holds(l.legs)[now := true][h := false] && Reheld(l, l1, {now, h})
  {
    var l0 := Park(l, now);
    OneReheld(l, l0, now, l0.legs[now], {now, h});
    var l1 := SetHeld(l0, h, false).(order := order);
    OneReheld(l0, l1, h, l1.legs[h], {now, h});
    ReheldTwice(l, l0, l1, {now, h});
  }

  lemma SwapEffect(l: Line, now: CallId, h: CallId)
    requires Filed(l) && Swap(l).Some? && ActiveLeg(l.legs, l.order) == Some(now) && HeldLeg(l.legs, l.order) == Some(h)
    ensures now in l.legs && h in l.legs && Reheld(l, Swap(l).value, {now, h})
    ensures Holds(Swap(l).value.legs) == Holds(l.legs)[now := true][h := false]
    ensures Swap(l).value.order == Without(l.order, h) + [h]
  {
    var l1 := SetHeld(Park(l, now), h, false).(order := Without(l.order, h) + [h]);
    Exchanged(l, now, h, l1.order);
    SetStateEffect(l1, now, Held);
    var l2 := SetState(l1, now, Held);
    SetStateEffect(l2, h, Active);
    ReheldMore(l1, l2, {now}, {now, h});
    ReheldMore(l2, Swap(l).value, {h}, {now, h});
    ReheldTwice(l1, l2, Swap(l).value, {now, h});
    ReheldTwice(l, l1, Swap(l).value, {now, h});
  }

  /** `resume` is refused exactly when some leg is off hold, or there is none. */
  lemma ResumeRefused(l: Line)
    requires LegsAgree(l.legs, l.calls) && OrderAgrees(l.order, l.legs.Keys) && Filed(l)
    ensures Resume(l).Some? <==> l.legs != map[] && forall id :: id in l.legs ==> l.legs[id].held
  {
    forall id | id in l.legs
      ensures !l.legs[id].held ==> ActiveLeg(l.legs, l.order).Some?
      ensures l.legs[id].held ==> HeldLeg(l.legs, l.order).Some?
    {
      assert LegOk(l.legs[id], id, l.calls);
      InOrder(l.legs, l.order, id);
    }
    if l.legs != map[] {
      var id :| id in l.legs;
      assert l.legs[id].held || !l.legs[id].held;
    }
  }

  lemma {:induction false} InOrder(legs: map<CallId, Leg>, order: seq<CallId>, id: CallId)
    requires id in order
    ensures OnLine(legs, id) ==> ActiveLeg(legs, order).Some?
    ensures OnHold(legs, id) ==> HeldLeg(legs, order).Some?
  {
    if order[|order| - 1] != id { InOrder(legs, order[..|order| - 1], id); }
  }

  // ---- the row ----

  lemma {:induction false} NoneOnLine(legs: map<CallId, Leg>, order: seq<CallId>)
    requires forall i :: 0 <= i < |order| ==> !OnLine(legs, order[i])
    ensures ActiveLeg(legs, order).None?
  {
    if order != [] { NoneOnLine(legs, order[..|order| - 1]); }
  }

  ghost predicate AllHeld(order: seq<CallId>, holds: map<CallId, bool>)
  {
    forall i :: 0 <= i < |order| ==> order[i] in holds && holds[order[i]]
  }

  /** Of legs that are all on hold, the newest is the one a `resume` takes off. */
  lemma LastHeld(l: Line)
    requires AllHeld(l.order, Holds(l.legs)) && l.order != [] && Filed(l)
    ensures ActiveLeg(l.legs, l.order).None? && HeldLeg(l.legs, l.order) == Some(l.order[|l.order| - 1]) && Resume(l).Some?
  {
    forall i | 0 <= i < |l.order| ensures !OnLine(l.legs, l.order[i]) && l.order[i] in l.legs && l.legs[l.order[i]].held {
      assert l.order[i] in Holds(l.legs);
    }
    NoneOnLine(l.legs, l.order);
  }

  /** Which leg the phone line takes to be active, and which to be held. */
  lemma RowLegs(l: Line, lines: seq<PartyLine>, t: CallId)
    requires InRow(l.order, Holds(l.legs), lines, t) && LegsAgree(l.legs, l.calls)
    ensures ActiveLeg(l.legs, l.order) == if Holds(l.legs)[t] then None else Some(t)
    ensures !Holds(l.legs)[t] && |l.order| > 1 ==> HeldLeg(l.legs, l.order) == Some(l.order[|l.order| - 2])
    ensures !Holds(l.legs)[t] && |l.order| == 1 ==> HeldLeg(l.legs, l.order) == None
  {
    var n := |l.order| - 1;
    assert t in Holds(l.legs) && LegOk(l.legs[t], t, l.calls);
    forall i | 0 <= i < n ensures l.order[i] in l.legs && l.legs[l.order[i]].held { assert l.order[i] in Holds(l.legs); }
    if Holds(l.legs)[t] {
      NoneOnLine(l.legs, l.order);
    } else if n > 0 {
      assert l.order[..n][|l.order[..n]| - 1] == l.order[n - 1];
    } else {
      assert l.order[..n] == [];
    }
  }

  /** Besides the one the mission talks to, only the next in the row can be up. */
  lemma OtherUp(order: seq<CallId>, holds: map<CallId, bool>, lines: seq<PartyLine>, t: CallId, id: CallId)
    requires InRow(order, holds, lines, t) && OrderAgrees(order, holds.Keys) && id in holds && IsUp(lines, id) && id != t
    ensures |order| > 1 && order[|order| - 2] == id && !holds[t] && holds[id]
  {
    var i :| 0 <= i < |order| && order[i] == id;
  }

  lemma RowByUp(order: seq<CallId>, holds: map<CallId, bool>, lines: seq<PartyLine>, lines': seq<PartyLine>, t: CallId)
    requires InRow(order, holds, lines, t) && SameUp(lines, lines')
    ensures InRow(order, holds, lines', t)
  {
    forall id ensures IsUp(lines', id) == IsUp(lines, id) { UpByCall(lines, lines', id); }
  }

  /** The one it talks to is put on hold while no other is up. */
  lemma RowHeld(order: seq<CallId>, holds: map<CallId, bool>, lines: seq<PartyLine>, t: CallId)
    requires InRow(order, holds, lines, t) && OrderAgrees(order, holds.Keys)
    requires forall id :: id in holds && IsUp(lines, id) ==> id == t
    ensures InRow(order, holds[t := true], lines, t)
  {
    if |order| > 1 { assert order[|order| - 2] in holds; }
  }

  /** A new call comes last. */
  lemma RowGrows(order: seq<CallId>, holds: map<CallId, bool>, lines: seq<PartyLine>, t: CallId, line: PartyLine)
    requires InRow(order, holds, lines, t) && holds[t] && line.callId !in holds && line.state != Ended
    requires forall i :: 0 <= i < |lines| ==> lines[i].callId != line.callId
    ensures InRow(order + [line.callId], holds[line.callId := false], lines + [line], line.callId)
  {
    var all, order' := lines + [line], order + [line.callId];
    assert all[..|lines|] == lines;
    forall i | 0 <= i < |order| - 1 ensures IsUp(all, order'[i]) == IsUp(lines, order[i]) { }
  }

  /** The two at the end change places. */
  lemma RowSwapped(order: seq<CallId>, holds: map<CallId, bool>, lines: seq<PartyLine>, t: CallId, h: CallId)
    requires InRow(order, holds, lines, t) && OrderAgrees(order, holds.Keys)
    requires |order| > 1 && order[|order| - 2] == h && IsUp(lines, h)
    ensures InRow(Without(order, h) + [h], holds[t := true][h := false], lines, h)
  {
    var n := |order| - 1;
    WithoutAt(order, n - 1);
    hide Without, IsUp;
    assert order[n..] == [t];
    var order' := Without(order, h) + [h];
    assert order' == order[..n - 1] + [t, h];
    forall i | 0 <= i < n - 1 ensures order'[i] == order[i] && order[i] != t && order[i] != h { }
  }

  lemma {:induction false} WithoutNone(order: seq<CallId>, id: CallId)
    requires id !in order
    ensures Without(order, id) == order
  {
    if order != [] {
      var init, last := order[..|order| - 1], order[|order| - 1];
      assert last in order && order == init + [last];
      assert Without(order, id) == Without(init, id) + [last];
      hide Without;
      WithoutNone(init, id);
    }
  }

  lemma {:induction false} WithoutAt(order: seq<CallId>, i: nat)
    requires i < |order| && forall i, j :: 0 <= i < j < |order| ==> order[i] != order[j]
    ensures Without(order, order[i]) == order[..i] + order[i + 1..]
  {
    var n := |order| - 1;
    if i == n {
      WithoutNone(order[..n], order[n]);
      assert order[..i] + order[i + 1..] == order[..n] + [];
    } else {
      WithoutAt(order[..n], i);
      assert order[..n][..i] + order[..n][i + 1..] + [order[n]] == order[..i] + order[i + 1..];
    }
  }

  ghost predicate LeavesOut(order: seq<CallId>, order': seq<CallId>, i: nat)
    requires i < |order|
  {
    && |order'| == |order| - 1
    && forall j {:trigger order'[j]} :: 0 <= j < |order'| ==> order'[j] == (if j < i then order[j] else order[j + 1]) != order[i]
  }

  lemma LeftOut(order: seq<CallId>, a: seq<CallId>, b: seq<CallId>, i: nat, j: nat)
    requires i < |order| && a == order[..i] && b == order[i + 1..] && order[i] !in a && order[i] !in b && j < |order| - 1
    ensures (a + b)[j] == (if j < i then order[j] else order[j + 1]) != order[i]
  {
    if j < i { assert a[j] in a; } else { assert b[j - i] in b; }
  }

  lemma WithoutLeavesOut(order: seq<CallId>, i: nat)
    requires i < |order| && order[i] !in order[..i] && order[i] !in order[i + 1..]
    requires Without(order, order[i]) == order[..i] + order[i + 1..]
    ensures LeavesOut(order, Without(order, order[i]), i)
  {
    hide Without;
    var a, b, order' := order[..i], order[i + 1..], Without(order, order[i]);
    forall j {:trigger order'[j]} | 0 <= j < |order| - 1
      ensures order'[j] == (if j < i then order[j] else order[j + 1]) != order[i]
    {
      LeftOut(order, a, b, i, j);
    }
  }

  lemma OnceIn(order: seq<CallId>, i: nat)
    requires i < |order| && forall i, j :: 0 <= i < j < |order| ==> order[i] != order[j]
    ensures order[i] !in order[..i] && order[i] !in order[i + 1..]
  {
  }

  lemma RowLeftOut(order: seq<CallId>, order': seq<CallId>, i: nat, holds: map<CallId, bool>, lines: seq<PartyLine>,
                   lines': seq<PartyLine>, t: CallId)
    requires InRow(order, holds, lines, t) && i < |order| && order[i] != t && LeavesOut(order, order', i)
    requires forall x :: IsUp(lines', x) <==> IsUp(lines, x) && x != order[i]
    ensures InRow(order', holds - {order[i]}, lines', t)
  {
    hide IsUp;
  }

  /** Another one leaves the row. */
  lemma RowLost(order: seq<CallId>, holds: map<CallId, bool>, lines: seq<PartyLine>, lines': seq<PartyLine>, t: CallId, id: CallId)
    requires InRow(order, holds, lines, t) && OrderAgrees(order, holds.Keys) && id in holds && id != t
    requires forall x :: IsUp(lines', x) <==> IsUp(lines, x) && x != id
    ensures InRow(Without(order, id), holds - {id}, lines', t)
  {
    hide InRow, IsUp, Without;
    var i :| 0 <= i < |order| && order[i] == id;
    OnceIn(order, i);
    WithoutAt(order, i);
    WithoutLeavesOut(order, i);
    RowLeftOut(order, Without(order, id), i, holds, lines, lines', t);
  }

  /** The one it talked to leaves: the rest are all on hold, and only the last of them can be up. */
  lemma RowLostLast(order: seq<CallId>, holds: map<CallId, bool>, lines: seq<PartyLine>, t: CallId)
    requires InRow(order, holds, lines, t) && OrderAgrees(order, holds.Keys)
    ensures Without(order, t) == order[..|order| - 1] && AllHeld(order[..|order| - 1], holds - {t})
  {
    WithoutAt(order, |order| - 1);
    forall i | 0 <= i < |order| - 1 ensures order[i] in holds - {t} { assert order[i] != t; }
  }

  lemma RowTurns(order: seq<CallId>, holds: map<CallId, bool>, lines: seq<PartyLine>, lines': seq<PartyLine>, t: CallId, k: CallId)
    requires InRow(order, holds, lines, t) && OrderAgrees(order, holds.Keys)
    requires forall x :: IsUp(lines', x) <==> IsUp(lines, x) && x != t
    requires k in holds && IsUp(lines', k)
    ensures |order| > 1 && order[|order| - 2] == k
    ensures InRow(order[..|order| - 1], (holds - {t})[k := false], lines', k)
  {
    OtherUp(order, holds, lines, t, k);
    RowLostLast(order, holds, lines, t);
  }

  /** What InTouch says, with everything at hand. */
  lemma InTouchIff(m: Mission, holds: map<CallId, bool>, t: CallId)
    requires Known(m) && holds == Holds(m.link.legs) && t == Talking(m) && t in holds
    ensures InTouch(m) <==>
      InRow(m.link.order, holds, m.lines, t) && ToolKnown(m.tool, m.lines, m.active, holds.Keys)
      && HoldKnown(holds[t], m.tool, m.dialFailed)
  {
    hide LinesKnown, Holds, ToolKnown, HoldKnown;
  }

  /** What the lemmas about the row need of the phone line's books. */
  ghost predicate Booked(l: Line)
  {
    Filed(l) && LegsAgree(l.legs, l.calls) && OrderAgrees(l.order, Holds(l.legs).Keys)
  }

  lemma ConsistentIsBooked(l: Line)
    requires Consistent(l)
    ensures Booked(l)
  {
    ConsistentIsFiled(l);
    assert Holds(l.legs).Keys == l.legs.Keys;
  }

  lemma UpAll(lines: seq<PartyLine>, ids: set<CallId>)
    requires forall i :: 0 <= i < |lines| ==> OwnCall(lines, i)
    requires forall id :: id in ids ==> IsUp(lines, id)
    ensures AllUp(lines, ids)
  {
    forall i | 0 <= i < |lines| && lines[i].callId in ids ensures lines[i].state != Ended { assert OwnCall(lines, i); }
  }

  /** The mission keeps its lines when the link's legs only change who is on hold, and the link
      reports nothing but states of calls that are up. */
  lemma InformedKeeps(m: Mission, link: Line, ids: set<CallId>)
    requires LinesKnown(m.lines, Holds(m.link.legs), m.link.seen) && Reheld(m.link, link, ids)
    requires forall id :: id in ids ==> IsUp(m.lines, id)
    ensures SameUp(m.lines, Informed(m, link).lines)
    ensures LinesKnown(Informed(m, link).lines, Holds(link.legs), link.seen)
  {
    UpAll(m.lines, ids);
    HeardAllKeeps(m.lines, link.events[|m.link.events|..], ids);
    KnownAlike(m.lines, Informed(m, link).lines, Holds(m.link.legs), Holds(link.legs), m.link.seen);
  }

  // ---- lines that are up ----

  lemma FirstLive(lines: seq<PartyLine>)
    requires Live(lines) != []
    ensures 1 <= Live(lines)[0] <= |lines| && lines[Live(lines)[0] - 1].state != Ended
  {
    hide Live;
    assert Live(lines)[0] in Live(lines);
    LiveIs(lines, Live(lines)[0]);
  }

  lemma LoneLive(lines: seq<PartyLine>, i: nat, j: nat)
    requires |Live(lines)| <= 1 && 1 <= i <= |lines| && 1 <= j <= |lines|
    requires lines[i - 1].state != Ended && lines[j - 1].state != Ended
    ensures i == j
  {
    hide Live;
    LiveIs(lines, i);
    LiveIs(lines, j);
  }

  /** A line that is up and not the active one is next in the row. */
  lemma OtherLine(m: Mission, n: nat)
    requires InTouch(m) && Booked(m.link) && 1 <= n <= |m.lines| && n != m.active && m.lines[n - 1].state != Ended
    ensures |m.link.order| > 1 && m.link.order[|m.link.order| - 2] == m.lines[n - 1].callId != Talking(m)
    ensures IsUp(m.lines, m.lines[n - 1].callId) && !Holds(m.link.legs)[Talking(m)]
  {
    UpHasLeg(m.lines, Holds(m.link.legs), m.link.seen, n);
    DistinctCalls(m.lines, n, m.active);
    hide IsUp, LinesKnown, ToolKnown;
    OtherUp(m.link.order, Holds(m.link.legs), m.lines, Talking(m), m.lines[n - 1].callId);
  }

  lemma ActiveIsUp(m: Mission)
    requires InTouch(m)
    ensures m.lines[m.active - 1].state != Ended
  {
    assert OwnCall(m.lines, m.active - 1);
  }

  /** With the active party off hold, `resume` is refused. */
  lemma ResumeIsRefused(m: Mission)
    requires InTouch(m) && Booked(m.link) && !Holds(m.link.legs)[Talking(m)]
    ensures Resume(m.link).None?
  {
    RowLegs(m.link, m.lines, Talking(m));
  }

  // ---- each tool keeps the machines in agreement ----

  /** The mission talks to line n, and the link has said what it did. */
  lemma TurnsTo(m: Mission, link: Line, ids: set<CallId>, n: nat, tool: Tool)
    requires Known(m) && 1 <= n <= |m.lines| && (tool.Idle? || tool == Placing(n))
    requires Reheld(m.link, link, ids) && forall id :: id in ids ==> IsUp(m.lines, id)
    requires InRow(link.order, Holds(link.legs), m.lines, m.lines[n - 1].callId)
    requires HoldKnown(Holds(link.legs)[m.lines[n - 1].callId], tool, m.dialFailed)
    ensures InTouch(Informed(m, link).(active := n, tool := tool))
  {
    hide IsUp, InRow, LinesKnown, Reheld;
    InformedKeeps(m, link, ids);
    RowByUp(link.order, Holds(link.legs), m.lines, Informed(m, link).lines, m.lines[n - 1].callId);
  }

  lemma CallPartyIs(m: Mission)
    requires Filed(m.link) && CallParty(m).Some?
    ensures Hold(m.link).Some? && |Live(m.lines)| <= 1
    ensures CallParty(m).value == Informed(m, Hold(m.link).value).(active := m.active, tool := Placing(m.active))
  {
    hide Hold, Live, HeardAll;
  }

  lemma CallPartyKeeps(m: Mission)
    requires InTouch(m) && Booked(m.link) && m.tool.Idle? && CallParty(m).Some?
    ensures InTouch(CallParty(m).value)
  {
    var holds, t := Holds(m.link.legs), Talking(m);
    CallPartyIs(m);
    AloneUp(m);
    OffHoldIfHeld(m);
    hide Hold, IsUp, LinesKnown, Reheld, Live, InRow, Holds, ToolKnown, Filed, LegsAgree, OrderAgrees, CallParty, Informed;
    HoldEffect(m.link, t);
    RowHeld(m.link.order, holds, m.lines, t);
    TurnsTo(m, Hold(m.link).value, {t}, m.active, Placing(m.active));
  }

  /** `hold` is accepted only while the active party is off hold. */
  lemma OffHoldIfHeld(m: Mission)
    requires InTouch(m) && Booked(m.link) && Hold(m.link).Some?
    ensures ActiveLeg(m.link.legs, m.link.order) == Some(Talking(m)) && !Holds(m.link.legs)[Talking(m)]
  {
    RowLegs(m.link, m.lines, Talking(m));
  }

  lemma AloneUp(m: Mission)
    requires InTouch(m) && |Live(m.lines)| <= 1
    ensures forall id :: id in Holds(m.link.legs) && IsUp(m.lines, id) ==> id == Talking(m)
  {
    ActiveIsUp(m);
    forall id | id in Holds(m.link.legs) && IsUp(m.lines, id) ensures id == Talking(m) {
      LoneLive(m.lines, LineOf(m.lines, id), m.active);
    }
  }

  lemma NoLegYet(lines: seq<PartyLine>, holds: map<CallId, bool>, seen: set<CallId>, id: CallId)
    requires LinesKnown(lines, holds, seen) && id !in seen
    ensures id !in holds && forall i :: 0 <= i < |lines| ==> lines[i].callId != id
  {
    assert id in holds ==> HasLine(lines, id);
    if id in holds { assert LineKnown(lines[LineOf(lines, id) - 1], holds, seen); }
    forall i | 0 <= i < |lines| ensures lines[i].callId != id { assert LineKnown(lines[i], holds, seen); }
  }

  /** Events of a call that has no line pass the mission by. */
  lemma StrangerUnheard(lines: seq<PartyLine>, events: seq<Event>, id: CallId)
    requires |events| == 1 && events[0].call.id == id && forall i :: 0 <= i < |lines| ==> lines[i].callId != id
    ensures HeardAll(lines, events) == lines
  {
    assert HeardAll(lines, events[..0]) == lines;
  }

  /** The other lines hear nothing of the dialled call. */
  lemma PlacedLines(m: Mission, id: CallId)
    requires Known(m) && m.tool.Placing? && id !in m.link.seen
    ensures var n := |m.lines| + 1;
            Placed(m, id) == m.(link := Dialed(m.link, id), lines := m.lines + [PartyLine(id, CallState.Dialing)],
                                active := n, tool := Waiting(m.tool.first, n))
    ensures Holds(Dialed(m.link, id).legs) == Holds(m.link.legs)[id := false]
    ensures Dialed(m.link, id).order == m.link.order + [id] && Dialed(m.link, id).seen == m.link.seen + {id}
  {
    NoLegYet(m.lines, Holds(m.link.legs), m.link.seen, id);
    StrangerUnheard(m.lines, Dialed(m.link, id).events[|m.link.events|..], id);
    assert id !in m.link.legs;
  }

  lemma NewLineKnown(lines: seq<PartyLine>, holds: map<CallId, bool>, line: PartyLine, seen: set<CallId>)
    requires LinesKnown(lines, holds, seen) && line.callId !in seen
    ensures LinesKnown(lines + [line], holds[line.callId := false], seen + {line.callId})
  {
    var all, id := lines + [line], line.callId;
    assert all[..|lines|] == lines;
    NoLegYet(lines, holds, seen, id);
    forall i | 0 <= i < |all| ensures LineKnown(all[i], holds[id := false], seen + {id}) && OwnCall(all, i) {
      if i < |lines| { assert LineKnown(lines[i], holds, seen) && OwnCall(lines, i); }
    }
    forall x | x in holds[id := false] ensures HasLine(all, x) { assert x != id ==> HasLine(lines, x); }
  }

  /** With the active party on hold, no other line is up. */
  lemma OnlyActiveUp(m: Mission)
    requires InTouch(m) && Booked(m.link) && Holds(m.link.legs)[Talking(m)]
    ensures forall k :: 0 <= k < |m.lines| && m.lines[k].state != Ended ==> k + 1 == m.active
  {
    forall k | 0 <= k < |m.lines| && m.lines[k].state != Ended ensures k + 1 == m.active {
      if k + 1 != m.active { OtherLine(m, k + 1); }
    }
  }

  lemma PlacedKeeps(m: Mission, id: CallId)
    requires InTouch(m) && Booked(m.link) && m.tool.Placing? && id !in m.link.seen
    ensures InTouch(Placed(m, id))
  {
    hide Placed, Dialed, LinesKnown, IsUp, InRow, Booked;
    var holds, line := Holds(m.link.legs), PartyLine(id, CallState.Dialing);
    OnlyActiveUp(m);
    PlacedLines(m, id);
    PlacedRow(m, id);
    NewLineKnown(m.lines, holds, line, m.link.seen);
    assert id !in holds by { NoLegYet(m.lines, holds, m.link.seen, id); }
  }

  lemma PlacedRow(m: Mission, id: CallId)
    requires InTouch(m) && Booked(m.link) && m.tool.Placing? && id !in m.link.seen
    ensures InRow(m.link.order + [id], Holds(m.link.legs)[id := false], m.lines + [PartyLine(id, CallState.Dialing)], id)
  {
    NoLegYet(m.lines, Holds(m.link.legs), m.link.seen, id);
    hide LinesKnown, IsUp, InRow;
    RowGrows(m.link.order, Holds(m.link.legs), m.lines, Talking(m), PartyLine(id, CallState.Dialing));
  }

  /** A swap with line n up and not active takes that line off hold. */
  lemma SwapsTo(m: Mission, n: nat)
    requires InTouch(m) && Booked(m.link) && m.tool.Idle? && 1 <= n <= |m.lines| && n != m.active
    requires m.lines[n - 1].state != Ended && Swap(m.link).Some?
    ensures InTouch(Informed(m, Swap(m.link).value).(active := n))
  {
    var t, h := Talking(m), m.lines[n - 1].callId;
    OtherLine(m, n);
    RowLegs(m.link, m.lines, t);
    SwapEffect(m.link, t, h);
    hide Swap, LinesKnown, IsUp, Without, Reheld;
    RowSwapped(m.link.order, Holds(m.link.legs), m.lines, t, h);
    TurnsTo(m, Swap(m.link).value, {t, h}, n, Idle);
  }

  lemma SwitchLineKeeps(m: Mission, n: nat)
    requires InTouch(m) && Booked(m.link) && m.tool.Idle? && SwitchLine(m, n).Some?
    ensures InTouch(SwitchLine(m, n).value)
  {
    LiveIs(m.lines, n);
    OtherLine(m, n);
    ResumeIsRefused(m);
    hide InTouch, Resume, Swap, Live;
    SwapsTo(m, n);
  }

  lemma ConnectLinesKeeps(m: Mission)
    requires InTouch(m) && Booked(m.link) && m.tool.Idle? && ConnectLines(m).Some?
    ensures InTouch(ConnectLines(m).value)
  {
    var live := Live(m.lines);
    LiveAscends(m.lines);
    var n := if live[0] != m.active then live[0] else live[1];
    assert n in live && live[0] < live[1];
    LiveIs(m.lines, n);
    hide InTouch, Swap, Live;
    SwapsTo(m, n);
  }

  lemma HangUpInTouch(m: Mission, id: CallId, tool: Tool)
    requires InTouch(m) && ToolKnown(tool, m.lines, m.active, Holds(m.link.legs).Keys)
    requires HoldKnown(Holds(m.link.legs)[Talking(m)], tool, m.dialFailed)
    ensures InTouch(m.(link := HangUp(m.link, id), tool := tool))
  {
    assert Holds(HangUp(m.link, id).legs) == Holds(m.link.legs);
  }

  // ---- the replies to hang-ups ----

  /** A line that is over: its leg may still be up. */
  lemma MarkedOver(lines: seq<PartyLine>, holds: map<CallId, bool>, seen: set<CallId>, n: nat)
    requires LinesKnown(lines, holds, seen) && 1 <= n <= |lines|
    ensures LinesKnown(lines[n - 1 := lines[n - 1].(state := Ended)], holds, seen)
  {
    var lines' := lines[n - 1 := lines[n - 1].(state := Ended)];
    forall i | 0 <= i < |lines'| ensures LineKnown(lines'[i], holds, seen) { assert LineKnown(lines[i], holds, seen); }
    KnownByCall(lines, lines', holds, holds, seen);
  }

  lemma NotInTouch(m: Mission, last: CallId)
    requires m.link.order != [] && m.link.order[|m.link.order| - 1] == last
    requires 1 <= m.active <= |m.lines| && Talking(m) != last
    ensures !InTouch(m)
  {
  }

  /** Back to the first party, in agreement exactly if the call given up is gone. */
  lemma GivenUpKeepsIff(m: Mission)
    requires InTouch(m) && Booked(m.link) && m.tool.GivingUp?
    ensures InTouch(BackToFirst(m, m.tool.first, m.tool.n)) <==> m.lines[m.tool.n - 1].callId !in m.link.legs
  {
    var first, n := m.tool.first, m.tool.n;
    var m' := EndLine(m, n).(active := first, tool := Idle);
    ResumeIsRefused(m);
    assert BackToFirst(m, first, n) == m';
    ActiveIsUp(m);
    hide InRow, Resume;
    if m.lines[n - 1].callId in m.link.legs {
      DistinctCalls(m.lines, first, n);
      LastIsTalking(m);
      NotInTouch(m', Talking(m));
    } else {
      assert LineKnown(m.lines[n - 1], Holds(m.link.legs), m.link.seen);
      assert m'.lines == m.lines;
    }
  }

  lemma LastIsTalking(m: Mission)
    requires InTouch(m)
    ensures m.link.order != [] && m.link.order[|m.link.order| - 1] == Talking(m) && Talking(m) in m.link.legs
  {
    assert Talking(m) in Holds(m.link.legs);
  }

  lemma DroppedKeepsIff(m: Mission)
    requires InTouch(m) && Booked(m.link) && m.tool.Dropping?
    ensures Dropped(m, m.tool.n).ended || (InTouch(Dropped(m, m.tool.n)) <==> !TooSoon(m))
  {
    var n := m.tool.n;
    if n == m.active { DroppedTooSoon(m); } else { OtherDropped(m); }
  }

  lemma RowOver(order: seq<CallId>, holds: map<CallId, bool>, lines: seq<PartyLine>, lines': seq<PartyLine>, t: CallId, id: CallId)
    requires InRow(order, holds, lines, t) && id != t
    requires forall x :: IsUp(lines', x) <==> IsUp(lines, x) && x != id
    ensures InRow(order, holds, lines', t)
  {
    hide IsUp;
  }

  lemma OtherDropped(m: Mission)
    requires InTouch(m) && Booked(m.link) && m.tool.Dropping? && m.tool.n != m.active
    ensures Dropped(m, m.tool.n).ended || InTouch(Dropped(m, m.tool.n))
  {
    var m' := EndLine(m, m.tool.n).(tool := Idle);
    assert Dropped(m, m.tool.n) == m' || Dropped(m, m.tool.n).ended;
    OtherDroppedRow(m, m.tool.n);
    RowHasTalking(m);
    hide InRow, LinesKnown, Booked, Live, Holds, Dropped;
    InTouchIff(m', Holds(m.link.legs), Talking(m));
  }

  lemma OtherDroppedRow(m: Mission, n: nat)
    requires InTouch(m) && 1 <= n <= |m.lines| && n != m.active
    ensures LinesKnown(EndLine(m, n).lines, Holds(m.link.legs), m.link.seen)
    ensures InRow(m.link.order, Holds(m.link.legs), EndLine(m, n).lines, Talking(m))
  {
    DistinctCalls(m.lines, n, m.active);
    MarkedOver(m.lines, Holds(m.link.legs), m.link.seen, n);
    forall id ensures IsUp(EndLine(m, n).lines, id) <==> IsUp(m.lines, id) && id != m.lines[n - 1].callId { UpButOne(m.lines, n, id); }
    hide IsUp, LinesKnown, InRow, Holds, ToolKnown, LineOf;
    RowOver(m.link.order, Holds(m.link.legs), m.lines, EndLine(m, n).lines, Talking(m), m.lines[n - 1].callId);
  }

  lemma RowHasTalking(m: Mission)
    requires InTouch(m)
    ensures Talking(m) in Holds(m.link.legs)
  {
  }

  lemma DroppedTooSoon(m: Mission)
    requires InTouch(m) && Booked(m.link) && m.tool.Dropping? && m.tool.n == m.active
    ensures Dropped(m, m.tool.n).ended || (TooSoon(m) && !InTouch(Dropped(m, m.tool.n)))
  {
    var n := m.tool.n;
    var m' := EndLine(m, n).(tool := Idle);
    if Live(m'.lines) != [] {
      var k := Live(m'.lines)[0];
      FirstLive(m'.lines);
      OtherLine(m, k);
      ResumeIsRefused(m);
      LastIsTalking(m);
      hide InTouch, Live, Resume;
      NotInTouch(Dropped(m, n), Talking(m));
    }
  }

  // ---- what happens outside the tools ----

  /** One call ended, and that was reported. */
  ghost predicate EndsCall(l: Line, l': Line, id: CallId)
  {
    && id in Holds(l.legs) && Holds(l'.legs) == Holds(l.legs) - {id} && l'.seen == l.seen
    && l'.order == Without(l.order, id)
    && |l'.events| == |l.events| + 1 && l'.events[|l.events|].CallEnded? && l'.events[|l.events|].call.id == id
  }

  lemma EndEffect(l: Line, id: CallId, reason: Reason)
    requires LegsAgree(l.legs, l.calls) && id in l.legs
    ensures EndsCall(l, End(l, id, reason), id)
  {
    assert LegOk(l.legs[id], id, l.calls);
    hide Without;
  }

  /** Nobody's hold changed and nothing but states of some calls was reported. */
  ghost predicate OnlyNews(l: Line, l': Line, ids: set<CallId>)
  {
    && Reheld(l, l', ids) && Holds(l'.legs) == Holds(l.legs) && l'.order == l.order
    && (|l'.events| == |l.events| + 1 ==> !l'.events[|l.events|].CallEnded?)
  }

  lemma SetStateNews(l: Line, id: CallId, state: CallState)
    requires Filed(l) && id in l.legs && state != Ended
    ensures OnlyNews(l, SetState(l, id, state), {id})
  {
    SetStateEffect(l, id, state);
  }

  lemma StreamStartNews(l: Line, ws: nat, id: CallId)
    requires Filed(l)
    ensures OnlyNews(l, StreamStart(l, ws, id), if id in l.legs && !l.legs[id].held then {id} else {})
  {
    if id in l.legs {
      var l1 := l.(streams := l.streams[ws := id], legs := l.legs[id := l.legs[id].(ws := Some(ws), redirecting := false)]);
      assert Filed(l1) && Holds(l1.legs) == Holds(l.legs);
      SetStateNews(l1, id, Active);
    }
  }

  /** Calls whose lines say they are up. */
  ghost predicate AreUp(lines: seq<PartyLine>, ids: set<CallId>) { forall id :: id in ids ==> IsUp(lines, id) }

  lemma StatusEffect(m: Mission, id: CallId, status: Status) returns (ids: set<CallId>)
    requires InTouch(m) && Booked(m.link) && status != Progress(Ended) && !Revives(m, StatusCallback(id, status))
    ensures AreUp(m.lines, ids)
    ensures OnlyNews(m.link, OnStatus(m.link, id, status), ids) || EndsCall(m.link, OnStatus(m.link, id, status), id)
  {
    ids := {};
    if id in m.link.legs {
      assert id in Holds(m.link.legs) && HasLine(m.lines, id);
      match status
      case Over(reason) => EndEffect(m.link, id, reason);
      case Progress(state) =>
        SetStateNews(m.link, id, state);
        if IsNews(m.link, id, state) { ids := {id}; }
      case Unknown =>
    }
  }

  lemma StreamStartEffect(m: Mission, ws: nat, id: CallId) returns (ids: set<CallId>)
    requires InTouch(m) && Booked(m.link)
    ensures AreUp(m.lines, ids) && OnlyNews(m.link, StreamStart(m.link, ws, id), ids)
  {
    StreamStartNews(m.link, ws, id);
    ids := if id in m.link.legs && !m.link.legs[id].held then {id} else {};
    if ids != {} {
      assert id in Holds(m.link.legs) && id in m.link.order;
      var i :| 0 <= i < |m.link.order| && m.link.order[i] == id;
    }
  }

  /** Whatever happens outside the tools either ends one call, or changes nobody's hold and
      reports at most states of calls that are up, unless it revives one. */
  lemma OutsideEffect(m: Mission, step: Step) returns (ended: Option<CallId>, ids: set<CallId>)
    requires InTouch(m) && Booked(m.link) && Outside(step) && Possible(m.link, step) && !Revives(m, step)
    ensures AreUp(m.lines, ids)
    ensures if ended.Some? then EndsCall(m.link, Next(m.link, step), ended.value) else OnlyNews(m.link, Next(m.link, step), ids)
  {
    hide InTouch, LegsAgree, OrderAgrees, OnlyNews, EndsCall, IsUp, StreamStart, OnStatus, Revives;
    ended, ids := None, {};
    match step
    case StatusCallback(id, status) =>
      ids := StatusEffect(m, id, status);
      if !OnlyNews(m.link, OnStatus(m.link, id, status), ids) { ended := Some(id); }
    case StreamStarts(ws, id) => ids := StreamStartEffect(m, ws, id);
    case StreamStops(ws) => ended := StreamStopEffect(m.link, ws);
    case _ => SilentStep(m.link, step);
  }

  lemma StreamStopEffect(l: Line, ws: nat) returns (ended: Option<CallId>)
    requires LegsAgree(l.legs, l.calls)
    ensures if ended.Some? then EndsCall(l, StreamStop(l, ws), ended.value) else OnlyNews(l, StreamStop(l, ws), {})
  {
    ended := None;
    if StreamStop(l, ws) != l {
      EndEffect(l, l.streams[ws], Remote);
      ended := Some(l.streams[ws]);
    }
  }

  predicate Loud(step: Step) { step.StatusCallback? || step.StreamStarts? || step.StreamStops? }

  /** The rest report nothing. */
  lemma SilentStep(l: Line, step: Step)
    requires Filed(l) && Outside(step) && Possible(l, step) && !Loud(step)
    ensures OnlyNews(l, Next(l, step), {})
  {
    SilentLegs(l, step);
    NothingHeard(l, Next(l, step));
  }

  predicate Touches(step: Step) { step.KeyPressCmd? || step.MarkCmd? || step.ClearCmd? || step.MergeCmd? }

  lemma SilentLegs(l: Line, step: Step)
    requires Filed(l) && Outside(step) && Possible(l, step) && !Loud(step)
    ensures QuietChange(l, Next(l, step))
  {
    if Touches(step) { SilentCommand(l, step); } else { SilentReport(l, step); }
  }

  /** Nothing was said and nobody's hold changed. */
  ghost predicate QuietChange(l: Line, l': Line)
  {
    && l'.events == l.events && l'.seen == l.seen && l'.order == l.order && l'.legs.Keys == l.legs.Keys
    && forall id :: id in l.legs ==> l'.legs[id].held == l.legs[id].held
  }

  /** One leg, its hold as it was. */
  lemma OneLegChanged(l: Line, l': Line, id: CallId, leg: Leg)
    requires id in l.legs && leg.held == l.legs[id].held && l'.order == l.order
    requires l'.legs == l.legs[id := leg] && l'.events == l.events && l'.seen == l.seen
    ensures QuietChange(l, l')
  {
  }

  lemma SilentCommand(l: Line, step: Step)
    requires Filed(l) && Touches(step)
    ensures QuietChange(l, Next(l, step))
  {
    var l', now := Next(l, step), ActiveLeg(l.legs, l.order);
    if l' != l {
      var id := if step.MergeCmd? then l.order[0] else now.value;
      OneLegChanged(l, l', id, l'.legs[id]);
    }
  }

  lemma SilentReport(l: Line, step: Step)
    requires Filed(l) && Outside(step) && Possible(l, step) && !Touches(step) && !Loud(step)
    ensures QuietChange(l, Next(l, step))
  {
    var l' := Next(l, step);
    if step.HangUpSent? || step.RedirectRefused? {
      if step.id in l.legs { OneLegChanged(l, l', step.id, l'.legs[step.id]); }
    } else if step.MergeAnswer? {
      var id := l.merging[0];
      if id in l.legs { OneLegChanged(l, l', id, l'.legs[id]); }
    } else if l' != l {
      var id := l.streams[step.ws];
      OneLegChanged(l, l', id, l'.legs[id]);
    }
  }

  lemma NothingHeard(l: Line, l': Line)
    requires QuietChange(l, l')
    ensures OnlyNews(l, l', {})
  {
    assert Holds(l'.legs) == Holds(l.legs);
  }

  // ---- a party leaves ----

  /** A line's leg is gone, and now the mission has heard. */
  lemma LineGone(lines: seq<PartyLine>, holds: map<CallId, bool>, seen: set<CallId>, n: nat)
    requires LinesKnown(lines, holds, seen) && 1 <= n <= |lines|
    ensures LinesKnown(lines[n - 1 := lines[n - 1].(state := Ended)], holds - {lines[n - 1].callId}, seen)
    ensures forall id :: IsUp(lines[n - 1 := lines[n - 1].(state := Ended)], id) <==> IsUp(lines, id) && id != lines[n - 1].callId
  {
    var lines', holds' := lines[n - 1 := lines[n - 1].(state := Ended)], holds - {lines[n - 1].callId};
    forall i | 0 <= i < |lines'| ensures LineKnown(lines'[i], holds', seen) {
      assert LineKnown(lines[i], holds, seen);
      if i != n - 1 { DistinctCalls(lines, i + 1, n); }
    }
    KnownByCall(lines, lines', holds, holds', seen);
    forall id ensures IsUp(lines', id) <==> IsUp(lines, id) && id != lines[n - 1].callId { UpButOne(lines, n, id); }
  }

  /** Another party than the active one leaves. */
  lemma OtherLeft(m: Mission, link: Line, n: nat)
    requires InTouch(m) && Booked(m.link) && Filed(link) && 1 <= n <= |m.lines| && n != m.active
    requires EndsCall(m.link, link, m.lines[n - 1].callId)
    ensures PartyLeft(m, link, n).ended || InTouch(PartyLeft(m, link, n))
  {
    hide PartyLeft, LinesKnown, InRow, Booked, EndsCall, ToolKnown, Holds, Filed;
    OtherLeftIs(m, link, n);
    OtherLeftRow(m, link, n);
    OtherLeftTool(m.tool, m.lines, m.active, Holds(m.link.legs).Keys, n);
  }

  lemma OtherLeftIs(m: Mission, link: Line, n: nat)
    requires InTouch(m) && Filed(link) && 1 <= n <= |m.lines| && n != m.active
    ensures PartyLeft(m, link, n).ended || PartyLeft(m, link, n) == EndLine(m.(link := link), n)
  {
    hide InRow, LinesKnown, Live;
  }

  lemma OtherLeftRow(m: Mission, link: Line, n: nat)
    requires InTouch(m) && Booked(m.link) && 1 <= n <= |m.lines| && n != m.active
    requires EndsCall(m.link, link, m.lines[n - 1].callId)
    ensures var lines := EndLine(m, n).lines;
            && LinesKnown(lines, Holds(link.legs), link.seen) && InRow(link.order, Holds(link.legs), lines, Talking(m))
            && Talking(m) in Holds(link.legs) && Holds(link.legs)[Talking(m)] == Holds(m.link.legs)[Talking(m)]
            && Holds(link.legs).Keys == Holds(m.link.legs).Keys - {m.lines[n - 1].callId}
  {
    var holds, id := Holds(m.link.legs), m.lines[n - 1].callId;
    DistinctCalls(m.lines, n, m.active);
    LineGone(m.lines, holds, m.link.seen, n);
    RowHasTalking(m);
    hide IsUp, LinesKnown, Without, InRow, InTouch, OrderAgrees, LegsAgree, Filed;
    RowLost(m.link.order, holds, m.lines, EndLine(m, n).lines, Talking(m), id);
  }

  lemma OtherLeftTool(tool: Tool, lines: seq<PartyLine>, active: nat, legs: set<CallId>, n: nat)
    requires ToolKnown(tool, lines, active, legs) && 1 <= n <= |lines| && n != active
    ensures ToolKnown(tool, lines[n - 1 := lines[n - 1].(state := Ended)], active, legs - {lines[n - 1].callId})
  {
  }

  /** The active party leaves, and the mission goes back to the one on hold. */
  lemma TalkingLeft(m: Mission, link: Line) returns (m': Mission, k: nat)
    requires InTouch(m) && !m.ended && Booked(m.link) && Filed(link) && EndsCall(m.link, link, Talking(m))
    requires Live(EndLine(m.(link := link), m.active).lines) != []
    ensures m' == OnLineEnded(m.(link := link), m.active) && m'.tool == m.tool && !m'.ended && m'.dialFailed == m.dialFailed
    ensures 1 <= k <= |m.lines| && k != m.active && m.lines[k - 1].state != Ended && m'.active == k
    ensures Known(m') && SameUp(EndLine(m, m.active).lines, m'.lines) && !Holds(m.link.legs)[Talking(m)]
    ensures InRow(m'.link.order, Holds(m'.link.legs), m'.lines, Talking(m')) && !Holds(m'.link.legs)[Talking(m')]
    ensures Holds(m'.link.legs).Keys == Holds(m.link.legs).Keys - {Talking(m)}
  {
    k := FirstOther(m);
    hide Live, OnLineEnded, TryResume, InRow, LinesKnown, IsUp, Booked, EndsCall, SameUp, Holds, AllHeld, InTouch, Known;
    OtherLine(m, k);
    TalkingLeftRow(m, link, k);
    m' := OnLineEnded(m.(link := link), m.active);
    EndedIs(m.(link := link), k);
    BackWith(EndLine(m.(link := link), m.active), k, m.lines[k - 1].callId);
  }

  lemma FirstOther(m: Mission) returns (k: nat)
    requires 1 <= m.active <= |m.lines| && Live(EndLine(m, m.active).lines) != []
    ensures 1 <= k <= |m.lines| && k != m.active && m.lines[k - 1].state != Ended && k == Live(EndLine(m, m.active).lines)[0]
  {
    k := Live(EndLine(m, m.active).lines)[0];
    FirstLive(EndLine(m, m.active).lines);
  }

  lemma EndedIs(m: Mission, k: nat)
    requires 1 <= m.active <= |m.lines| && Filed(m.link)
    requires Live(EndLine(m, m.active).lines) != [] && k == Live(EndLine(m, m.active).lines)[0]
    ensures OnLineEnded(m, m.active) == TryResume(EndLine(m, m.active).(active := k))
  {
    hide TryResume;
  }

  lemma BackWith(over: Mission, k: nat, id: CallId)
    requires 1 <= k <= |over.lines| && over.lines[k - 1].callId == id && IsUp(over.lines, id) && Filed(over.link)
    requires LinesKnown(over.lines, Holds(over.link.legs), over.link.seen) && AllHeld(over.link.order, Holds(over.link.legs))
    requires over.link.order != [] && over.link.order[|over.link.order| - 1] == id
    requires InRow(over.link.order, Holds(over.link.legs)[id := false], over.lines, id)
    ensures var m' := TryResume(over.(active := k));
            && m' == over.(active := k, link := m'.link, lines := m'.lines) && Known(m') && SameUp(over.lines, m'.lines)
            && Talking(m') == id && InRow(m'.link.order, Holds(m'.link.legs), m'.lines, id) && !Holds(m'.link.legs)[id]
            && Holds(m'.link.legs).Keys == Holds(over.link.legs).Keys
  {
    hide TryResume, InRow, LinesKnown, IsUp, SameUp, Holds, AllHeld, Filed;
    GoesBack(over.(active := k), id);
  }

  /** What the row is without the active party. */
  lemma TalkingLeftRow(m: Mission, link: Line, k: nat)
    requires InTouch(m) && Booked(m.link) && EndsCall(m.link, link, Talking(m))
    requires 1 <= k <= |m.lines| && k != m.active && m.lines[k - 1].state != Ended
    ensures var lines, holds, id := EndLine(m, m.active).lines, Holds(link.legs), m.lines[k - 1].callId;
            && LinesKnown(lines, holds, link.seen) && AllHeld(link.order, holds) && IsUp(lines, id)
            && link.order != [] && link.order[|link.order| - 1] == id && InRow(link.order, holds[id := false], lines, id)
            && holds.Keys == Holds(m.link.legs).Keys - {Talking(m)}
  {
    hide IsUp, LinesKnown, InRow, Without, AllHeld, Holds, HoldKnown, ToolKnown, LegsAgree, OrderAgrees, Filed;
    OtherLine(m, k);
    UpHasLegIn(m, k);
    LineGone(m.lines, Holds(m.link.legs), m.link.seen, m.active);
    RowWithoutLast(m.link.order, Holds(m.link.legs), m.lines, EndLine(m, m.active).lines, Talking(m), m.lines[k - 1].callId);
  }

  lemma RowWithoutLast(order: seq<CallId>, holds: map<CallId, bool>, lines: seq<PartyLine>, lines': seq<PartyLine>, t: CallId, id: CallId)
    requires InRow(order, holds, lines, t) && OrderAgrees(order, holds.Keys) && id in holds && IsUp(lines', id)
    requires forall x :: IsUp(lines', x) <==> IsUp(lines, x) && x != t
    ensures var order', holds' := Without(order, t), holds - {t};
            && AllHeld(order', holds') && order' != [] && order'[|order'| - 1] == id && InRow(order', holds'[id := false], lines', id)
            && holds'.Keys == holds.Keys - {t}
  {
    hide IsUp, InRow, Without, OrderAgrees, AllHeld;
    RowLostLast(order, holds, lines, t);
    RowTurns(order, holds, lines, lines', t, id);
    LastButOne(order);
  }

  lemma LastButOne(order: seq<CallId>)
    requires |order| > 1
    ensures order[..|order| - 1] != [] && order[..|order| - 1][|order[..|order| - 1]| - 1] == order[|order| - 2]
  {
  }

  lemma ResumesLast(l: Line, id: CallId)
    requires Filed(l) && AllHeld(l.order, Holds(l.legs)) && l.order != [] && l.order[|l.order| - 1] == id
    ensures Resume(l).Some? && Reheld(l, Resume(l).value, {id}) && Resume(l).value.order == l.order
    ensures Holds(Resume(l).value.legs) == Holds(l.legs)[id := false] && id in Holds(l.legs)
  {
    LastHeld(l);
    hide Resume, Reheld;
    ResumeEffect(l, id);
  }

  /** `resume` takes the last in the row off hold. */
  lemma GoesBack(m: Mission, id: CallId)
    requires Known(m) && Filed(m.link) && id == Talking(m) && IsUp(m.lines, id) && AllHeld(m.link.order, Holds(m.link.legs))
    requires m.link.order != [] && m.link.order[|m.link.order| - 1] == id
    requires InRow(m.link.order, Holds(m.link.legs)[id := false], m.lines, id)
    ensures var m' := TryResume(m);
            && m' == m.(link := m'.link, lines := m'.lines) && Known(m') && SameUp(m.lines, m'.lines) && Talking(m') == id
            && InRow(m'.link.order, Holds(m'.link.legs), m'.lines, id) && !Holds(m'.link.legs)[id]
            && Holds(m'.link.legs).Keys == Holds(m.link.legs).Keys
  {
    var holds := Holds(m.link.legs);
    hide Resume, IsUp, LinesKnown, Reheld, InRow, Holds, AllHeld, SameUp, Filed;
    ResumesLast(m.link, id);
    var link := Resume(m.link).value;
    InformedKeeps(m, link, {id});
    RowByUp(m.link.order, holds[id := false], m.lines, Informed(m, link).lines, id);
    SameAt(m.lines, Informed(m, link).lines, m.active);
  }

  lemma SameAt(lines: seq<PartyLine>, lines': seq<PartyLine>, n: nat)
    requires SameUp(lines, lines') && 1 <= n <= |lines|
    ensures |lines'| == |lines| && lines'[n - 1].callId == lines[n - 1].callId
  {
  }

  /** A party leaves: nobody is left, or the mission stays in agreement. */
  lemma PartyLeftKeeps(m: Mission, link: Line, n: nat)
    requires InTouch(m) && !m.ended && Booked(m.link) && Consistent(link) && Filed(link) && 1 <= n <= |m.lines|
    requires EndsCall(m.link, link, m.lines[n - 1].callId)
    ensures PartyLeft(m, link, n).ended || InTouch(PartyLeft(m, link, n))
  {
    if n != m.active {
      OtherLeft(m, link, n);
    } else if Live(EndLine(m.(link := link), n).lines) != [] {
      hide EndsCall, Live, OnLineEnded, InRow, LinesKnown, Booked, Consistent;
      var m', k := TalkingLeft(m, link);
      OnLineEndedConsistent(m.(link := link), n);
      TalkingLeftTool(m, m', k);
    }
  }

  /** Where that leaves the tool under way. */
  lemma TalkingLeftTool(m: Mission, m': Mission, k: nat)
    requires InTouch(m) && 1 <= k <= |m.lines| && k != m.active && m.lines[k - 1].state != Ended
    requires m'.tool == m.tool && m'.active == k && m'.dialFailed == m.dialFailed && Consistent(m'.link) && Filed(m'.link)
    requires Known(m') && SameUp(EndLine(m, m.active).lines, m'.lines) && !Holds(m.link.legs)[Talking(m)]
    requires InRow(m'.link.order, Holds(m'.link.legs), m'.lines, Talking(m')) && !Holds(m'.link.legs)[Talking(m')]
    requires Holds(m'.link.legs).Keys == Holds(m.link.legs).Keys - {Talking(m)}
    ensures InTouch(if m.tool.Waiting? && m.tool.n == m.active then BackToFirst(m', m.tool.first, m.active) else m')
  {
    hide InRow, LinesKnown, Consistent;
    if m.tool.Waiting? {
      BackAlready(m', m.active);
    } else if m.tool.GivingUp? {
      UpHasLegIn(m, k);
    }
  }

  lemma UpHasLegIn(m: Mission, k: nat)
    requires Known(m) && 1 <= k <= |m.lines| && m.lines[k - 1].state != Ended
    ensures m.lines[k - 1].callId in Holds(m.link.legs)
  {
    UpHasLeg(m.lines, Holds(m.link.legs), m.link.seen, k);
  }

  /** Going back to the party it is with changes nothing. */
  lemma BackAlready(m: Mission, n: nat)
    requires Known(m) && Consistent(m.link) && Filed(m.link) && 1 <= n <= |m.lines| && m.lines[n - 1].state == Ended
    requires InRow(m.link.order, Holds(m.link.legs), m.lines, Talking(m)) && !Holds(m.link.legs)[Talking(m)]
    ensures BackToFirst(m, m.active, n) == m.(tool := Idle)
  {
    RowLegs(m.link, m.lines, Talking(m));
    assert EndLine(m, n).lines == m.lines;
  }

  // ---- the mission hears of it ----

  /** News of calls that are up; the answer waited for ends the wait. */
  lemma NewsKeeps(m: Mission, link: Line, ids: set<CallId>)
    requires InTouch(m) && OnlyNews(m.link, link, ids) && AreUp(m.lines, ids) && Filed(link)
    ensures InTouch(Heed(m, link))
  {
    hide LinesKnown, InRow, IsUp, Reheld, Heed, AreUp, Informed, Filed, SameUp, InTouch, ToolKnown;
    var m' := Informed(m, link);
    HeedsNews(m, link, ids);
    NewsHeard(m, link, ids);
    NewsTool(m, m'.lines);
    StillInTouch(m, m', m.tool);
    if m.tool.Waiting? { StillInTouch(m, m'.(tool := Idle), Idle); }
  }

  lemma NewsHeard(m: Mission, link: Line, ids: set<CallId>)
    requires InTouch(m) && OnlyNews(m.link, link, ids) && AreUp(m.lines, ids)
    ensures SameUp(m.lines, Informed(m, link).lines) && LinesKnown(Informed(m, link).lines, Holds(link.legs), link.seen)
    ensures Holds(link.legs) == Holds(m.link.legs) && link.order == m.link.order
  {
    hide LinesKnown, InRow, IsUp, Reheld, Informed, SameUp;
    InformedKeeps(m, link, ids);
  }

  /** Lines that have heard of states, or a tool that has stopped waiting, touch nothing else. */
  lemma StillInTouch(m: Mission, m': Mission, tool: Tool)
    requires InTouch(m) && m'.active == m.active && m'.dialFailed == m.dialFailed && m'.tool == tool
    requires Holds(m'.link.legs) == Holds(m.link.legs) && m'.link.order == m.link.order
    requires SameUp(m.lines, m'.lines) && LinesKnown(m'.lines, Holds(m'.link.legs), m'.link.seen)
    requires tool == m.tool || (m.tool.Waiting? && tool.Idle?)
    ensures ToolKnown(tool, m'.lines, m.active, Holds(m.link.legs).Keys) ==> InTouch(m')
  {
    var holds, t := Holds(m.link.legs), Talking(m);
    RowHasTalking(m);
    SameAt(m.lines, m'.lines, m.active);
    hide LinesKnown, InRow, IsUp, SameUp, Holds, ToolKnown;
    RowByUp(m.link.order, holds, m.lines, m'.lines, t);
  }

  lemma HeedsNews(m: Mission, link: Line, ids: set<CallId>)
    requires OnlyNews(m.link, link, ids) && Filed(link)
    ensures var m' := Informed(m, link);
            && Informed(m, link) == m.(link := link, lines := m'.lines)
            && Heed(m, link) == if m.tool.Waiting? && 1 <= m.tool.n <= |m'.lines| && m'.lines[m.tool.n - 1].state == Active
                                then m'.(tool := Idle) else m'
  {
    hide PartyLeft, HeardAll, StatesOf;
  }

  lemma NewsTool(m: Mission, lines': seq<PartyLine>)
    requires InTouch(m) && SameUp(m.lines, lines')
    ensures ToolKnown(Idle, lines', m.active, Holds(m.link.legs).Keys)
    ensures m.tool.Waiting? ==> 1 <= m.tool.n <= |lines'|
    ensures !(m.tool.Waiting? && lines'[m.tool.n - 1].state == Active) ==>
              ToolKnown(m.tool, lines', m.active, Holds(m.link.legs).Keys)
  {
    hide InRow, LinesKnown;
  }

  lemma HeedKeeps(m: Mission, link: Line, ended: Option<CallId>, ids: set<CallId>)
    requires InTouch(m) && !m.ended && Booked(m.link) && Filed(link) && Consistent(link) && AreUp(m.lines, ids)
    requires if ended.Some? then EndsCall(m.link, link, ended.value) else OnlyNews(m.link, link, ids)
    ensures Heed(m, link).ended || InTouch(Heed(m, link))
  {
    if ended.Some? {
      assert HasLine(m.lines, ended.value);
      hide Informed, PartyLeft, InTouch, Consistent, Booked;
      PartyLeftKeeps(m, link, LineOf(m.lines, ended.value));
    } else {
      NewsKeeps(m, link, ids);
    }
  }

  /** A call's line is up again: the row is still in order exactly if the call is next in it and
      the one the mission talks to is off hold. */
  lemma RowRevived(order: seq<CallId>, holds: map<CallId, bool>, lines: seq<PartyLine>, lines': seq<PartyLine>, t: CallId, id: CallId)
    requires InRow(order, holds, lines, t) && OrderAgrees(order, holds.Keys) && id in holds && !IsUp(lines, id)
    requires forall x :: IsUp(lines', x) <==> IsUp(lines, x) || x == id
    ensures InRow(order, holds, lines', t) <==> |order| > 1 && order[|order| - 2] == id && !holds[t]
  {
    hide IsUp;
    var i :| 0 <= i < |order| && order[i] == id;
  }

  lemma HeardUp(lines: seq<PartyLine>, call: LineCall, id: CallId)
    requires call.state != Ended && HasLine(lines, call.id) && forall i :: 0 <= i < |lines| ==> OwnCall(lines, i)
    ensures IsUp(Heard(lines, call), id) <==> IsUp(lines, id) || id == call.id
  {
    LineOfByCall(lines, Heard(lines, call), id);
    if id != call.id && LineOf(lines, id) > 0 { assert lines[LineOf(lines, id) - 1].callId == id; }
  }

  lemma HeardKnown(lines: seq<PartyLine>, call: LineCall, holds: map<CallId, bool>, seen: set<CallId>)
    requires LinesKnown(lines, holds, seen) && call.id in holds
    ensures LinesKnown(Heard(lines, call), holds, seen)
  {
    var lines' := Heard(lines, call);
    forall i | 0 <= i < |lines'| ensures LineKnown(lines'[i], holds, seen) { assert LineKnown(lines[i], holds, seen); }
    KnownByCall(lines, lines', holds, holds, seen);
  }

  lemma HeedsState(m: Mission, call: LineCall)
    requires call.id in m.link.legs && Filed(m.link) && (m.tool.Waiting? ==> 1 <= m.tool.n <= |m.lines|)
    requires m.tool.Waiting? ==> m.lines[m.tool.n - 1].callId != call.id && m.lines[m.tool.n - 1].state != Active
    ensures Heed(m, SetCall(m.link, call)) == m.(link := SetCall(m.link, call), lines := Heard(m.lines, call))
  {
    HearsOne(m, call);
  }

  lemma HearsOne(m: Mission, call: LineCall)
    requires call.id in m.link.legs
    ensures Informed(m, SetCall(m.link, call)) == m.(link := SetCall(m.link, call), lines := Heard(m.lines, call))
  {
    var link := SetCall(m.link, call);
    assert link.events[|m.link.events|..] == [StateChanged(call)];
    assert [StateChanged(call)][..0] == [];
    assert HeardAll(m.lines, [StateChanged(call)]) == Heard(m.lines, call);
  }

  lemma UpAmongRevived(lines: seq<PartyLine>, call: LineCall, i: nat, j: nat)
    requires forall k :: 0 <= k < |lines| ==> OwnCall(lines, k)
    requires UpAmong(lines, i, j) && LineOf(lines, call.id) > 0 && call.state != Ended
    ensures UpAmong(Heard(lines, call), i, j) <==> LineOf(lines, call.id) == i || LineOf(lines, call.id) == j
  {
    var k := LineOf(lines, call.id) - 1;
    assert Heard(lines, call)[k].state != Ended;
    forall x | 0 <= x < |lines| && x != k ensures Heard(lines, call)[x] == lines[x] { assert OwnCall(lines, x); }
  }

  /** A call that was dropped is told of again: no harm exactly under the condition above. */
  lemma RevivedKeepsIff(m: Mission, id: CallId, state: CallState)
    requires InTouch(m) && Booked(m.link) && Revives(m, StatusCallback(id, Progress(state))) && state != Ended
    ensures InTouch(Heed(m, OnStatus(m.link, id, Progress(state)))) <==> Harmless(m, id)
  {
    var call := m.link.legs[id].call.(state := state);
    assert OnStatus(m.link, id, Progress(state)) == SetCall(m.link, call) && call.id == id;
    RevivedNotActive(m, id);
    HeedsState(m, call);
    RevivedInTouchIff(m, call);
  }

  lemma RevivedNotActive(m: Mission, id: CallId)
    requires InTouch(m) && LineOf(m.lines, id) > 0 && m.lines[LineOf(m.lines, id) - 1].state == Ended
    ensures LineOf(m.lines, id) != m.active && id != Talking(m)
  {
    ActiveIsUp(m);
    assert OwnCall(m.lines, m.active - 1);
  }

  lemma RevivedInTouchIff(m: Mission, call: LineCall)
    requires InTouch(m) && Booked(m.link) && call.id in m.link.legs && call.state != Ended
    requires LineOf(m.lines, call.id) > 0 && m.lines[LineOf(m.lines, call.id) - 1].state == Ended
    ensures InTouch(m.(link := SetCall(m.link, call), lines := Heard(m.lines, call))) <==> Harmless(m, call.id)
  {
    hide Heard, LineOf, InTouch, InRow, LinesKnown, ToolKnown, Booked, Harmless;
    var m' := m.(link := SetCall(m.link, call), lines := Heard(m.lines, call));
    assert Holds(SetCall(m.link, call).legs) == Holds(m.link.legs) && call.id in Holds(m.link.legs);
    RevivedTool(m, call);
    RevivedRowIff(m, call);
    HeardOther(m.lines, call, 0);
    hide Holds;
    RevivedSum(m, m', call.id);
  }

  lemma RevivedSum(m: Mission, m': Mission, id: CallId)
    requires InTouch(m) && m'.active == m.active && m'.dialFailed == m.dialFailed && m'.tool == m.tool && SameCalls(m.lines, m'.lines)
    requires Holds(m'.link.legs) == Holds(m.link.legs) && m'.link.order == m.link.order
    requires LinesKnown(m'.lines, Holds(m'.link.legs), m'.link.seen)
    requires InRow(m.link.order, Holds(m.link.legs), m'.lines, Talking(m)) <==>
               |m.link.order| > 1 && m.link.order[|m.link.order| - 2] == id && !Holds(m.link.legs)[Talking(m)]
    requires ToolKnown(m.tool, m'.lines, m.active, Holds(m.link.legs).Keys) <==>
      match m.tool
      case Waiting(first, _) => LineOf(m.lines, id) == first
      case GivingUp(first, _) => LineOf(m.lines, id) == first
      case _ => true
    ensures InTouch(m') <==> Harmless(m, id)
  {
    LastIsTalking(m);
    assert Holds(m.link.legs)[Talking(m)] == m.link.legs[Talking(m)].held;
    hide LinesKnown, IsUp, ToolKnown, Holds, LineOf;
    InTouchIff(m', Holds(m.link.legs), Talking(m));
  }

  lemma RevivedRowIff(m: Mission, call: LineCall)
    requires InTouch(m) && Booked(m.link) && call.id in Holds(m.link.legs) && call.state != Ended
    requires LineOf(m.lines, call.id) > 0 && m.lines[LineOf(m.lines, call.id) - 1].state == Ended
    ensures var order, holds, lines' := m.link.order, Holds(m.link.legs), Heard(m.lines, call);
            && LinesKnown(lines', holds, m.link.seen)
            && (InRow(order, holds, lines', Talking(m)) <==>
                  |order| > 1 && order[|order| - 2] == call.id && !holds[Talking(m)])
  {
    var lines' := Heard(m.lines, call);
    HeardKnown(m.lines, call, Holds(m.link.legs), m.link.seen);
    assert !IsUp(m.lines, call.id) && HasLine(m.lines, call.id);
    assert forall k :: 0 <= k < |m.lines| ==> OwnCall(m.lines, k);
    hide OwnCall, LineKnown;
    HeardUpAll(m.lines, call);
    hide IsUp, LinesKnown, InRow, Heard, OrderAgrees, LegsAgree, Filed, Holds, LineOf, ToolKnown;
    RowRevived(m.link.order, Holds(m.link.legs), m.lines, lines', Talking(m), call.id);
  }

  lemma HeardUpAll(lines: seq<PartyLine>, call: LineCall)
    requires call.state != Ended && HasLine(lines, call.id) && forall i :: 0 <= i < |lines| ==> OwnCall(lines, i)
    ensures forall x :: IsUp(Heard(lines, call), x) <==> IsUp(lines, x) || x == call.id
  {
    forall x ensures IsUp(Heard(lines, call), x) <==> IsUp(lines, x) || x == call.id { HeardUp(lines, call, x); }
  }

  lemma RevivedTool(m: Mission, call: LineCall)
    requires InTouch(m) && call.id in Holds(m.link.legs) && call.state != Ended
    requires LineOf(m.lines, call.id) > 0 && m.lines[LineOf(m.lines, call.id) - 1].state == Ended
    ensures ToolKnown(m.tool, Heard(m.lines, call), m.active, Holds(m.link.legs).Keys) <==>
      match m.tool
      case Waiting(first, _) => LineOf(m.lines, call.id) == first
      case GivingUp(first, _) => LineOf(m.lines, call.id) == first
      case _ => true
  {
    RevivedNotActive(m, call.id);
    if m.tool.GivingUp? { GivingUpIsActive(m, call.id); }
    assert forall k :: 0 <= k < |m.lines| ==> OwnCall(m.lines, k);
    assert ToolKnown(m.tool, m.lines, m.active, Holds(m.link.legs).Keys);
    hide InRow, LinesKnown, OwnCall, LineOf, InTouch, Known, ToolKnown, Holds;
    RevivedToolIff(m.tool, m.lines, m.active, Holds(m.link.legs).Keys, call);
  }

  lemma RevivedToolIff(tool: Tool, lines: seq<PartyLine>, active: nat, legs: set<CallId>, call: LineCall)
    requires ToolKnown(tool, lines, active, legs) && forall k :: 0 <= k < |lines| ==> OwnCall(lines, k)
    requires LineOf(lines, call.id) > 0 && LineOf(lines, call.id) != active && call.state != Ended
    requires tool.GivingUp? ==> LineOf(lines, call.id) != tool.n
    ensures ToolKnown(tool, Heard(lines, call), active, legs) <==>
      match tool
      case Waiting(first, _) => LineOf(lines, call.id) == first
      case GivingUp(first, _) => LineOf(lines, call.id) == first
      case _ => true
  {
    hide OwnCall, LineOf, Heard, UpAmong;
    match tool
    case Waiting(first, n) => RevivedWaiting(lines, active, legs, call, first, n);
    case GivingUp(first, n) => RevivedGivingUp(lines, active, legs, call, first, n);
    case _ => HeardOther(lines, call, 0);
  }

  lemma HeardOther(lines: seq<PartyLine>, call: LineCall, n: nat)
    ensures SameCalls(lines, Heard(lines, call))
    ensures 1 <= n <= |lines| && LineOf(lines, call.id) != n ==> Heard(lines, call)[n - 1] == lines[n - 1]
  {
    hide LineOf;
    var k := LineOf(lines, call.id);
    if k > 0 { CallKept(lines, k - 1, call.state); }
  }

  lemma CallKept(lines: seq<PartyLine>, i: nat, state: CallState)
    requires i < |lines|
    ensures SameCalls(lines, lines[i := lines[i].(state := state)])
  {
  }

  lemma RevivedWaiting(lines: seq<PartyLine>, active: nat, legs: set<CallId>, call: LineCall, first: nat, n: nat)
    requires ToolKnown(Waiting(first, n), lines, active, legs) && forall k :: 0 <= k < |lines| ==> OwnCall(lines, k)
    requires LineOf(lines, call.id) > 0 && LineOf(lines, call.id) != active && call.state != Ended
    ensures ToolKnown(Waiting(first, n), Heard(lines, call), active, legs) <==> LineOf(lines, call.id) == first
  {
    hide UpAmong, OwnCall, LineOf, Heard;
    HeardOther(lines, call, n);
    UpAmongRevived(lines, call, first, n);
  }

  lemma RevivedGivingUp(lines: seq<PartyLine>, active: nat, legs: set<CallId>, call: LineCall, first: nat, n: nat)
    requires ToolKnown(GivingUp(first, n), lines, active, legs) && forall k :: 0 <= k < |lines| ==> OwnCall(lines, k)
    requires LineOf(lines, call.id) > 0 && LineOf(lines, call.id) != n && call.state != Ended
    ensures ToolKnown(GivingUp(first, n), Heard(lines, call), active, legs) <==> LineOf(lines, call.id) == first
  {
    hide UpAmong, OwnCall, LineOf, Heard;
    HeardOther(lines, call, n);
    UpAmongRevived(lines, call, first, n);
  }

  lemma GivingUpIsActive(m: Mission, id: CallId)
    requires InTouch(m) && m.tool.GivingUp? && id in Holds(m.link.legs) && LineOf(m.lines, id) != m.active
    ensures LineOf(m.lines, id) != m.tool.n
  {
    hide InRow, LinesKnown;
  }

  // ---- the line's own books ----

  lemma OnLineEndedConsistent(m: Mission, n: nat)
    requires 1 <= n <= |m.lines| && Consistent(m.link)
    ensures Filed(m.link) && Consistent(OnLineEnded(m, n).link)
  {
    ResumeKeeps(m.link);
  }

  lemma PartyLeftConsistent(m: Mission, link: Line, n: nat)
    requires 1 <= n <= |m.lines| && Consistent(link)
    ensures Filed(link) && Consistent(PartyLeft(m, link, n).link)
  {
    OnLineEndedConsistent(m.(link := link), n);
    ResumeKeeps(OnLineEnded(m.(link := link), n).link);
  }

  lemma HeedConsistent(m: Mission, link: Line)
    requires Consistent(link)
    ensures Filed(link) && Consistent(Heed(m, link).link)
  {
    ConsistentIsFiled(link);
    if |link.events| == |m.link.events| + 1 {
      var n := LineOf(m.lines, link.events[|m.link.events|].call.id);
      if n > 0 { PartyLeftConsistent(m, link, n); }
    }
  }

  /** A tool's step does at most one thing to the link. */
  lemma ToolLink(m: Mission, step: MStep)
    requires Filed(m.link) && MPossible(m, step) && !step.FromOutside? && !HangsUp(step)
    ensures var l := ToolNext(m, step).link;
            || l == m.link || Hold(m.link) == Some(l) || Swap(m.link) == Some(l) || Resume(m.link) == Some(l)
            || (step.DialSucceeds? && l == Dialed(m.link, step.id))
  {
  }

  lemma ToolLinkKeeps(m: Mission, step: MStep)
    requires Consistent(m.link) && MPossible(m, step) && !step.FromOutside? && !HangsUp(step) && Filed(m.link)
    ensures Consistent(ToolNext(m, step).link)
  {
    ToolLink(m, step);
    HoldKeeps(m.link);
    SwapKeeps(m.link);
    ResumeKeeps(m.link);
    if step.DialSucceeds? { NewLegKeeps(m.link, step.id, CallState.Dialing); }
  }

  /** A hang-up's start or end does no more to the link than ask for it or try to resume. */
  lemma HangUpLink(m: Mission, step: MStep) returns (id: CallId)
    requires Filed(m.link) && MPossible(m, step) && HangsUp(step)
    ensures var l := HangUpNext(m, step).link; l == m.link || l == HangUp(m.link, id) || Resume(m.link) == Some(l)
  {
    id := "";
    if step.RingTimeout? {
      id := m.lines[m.tool.n - 1].callId;
    } else if step.ToolDropLine? && step.n in Live(m.lines) {
      id := m.lines[step.n - 1].callId;
    }
  }

  lemma HangUpLinkKeeps(m: Mission, step: MStep)
    requires Consistent(m.link) && MPossible(m, step) && HangsUp(step) && Filed(m.link)
    ensures Consistent(HangUpNext(m, step).link)
  {
    var id := HangUpLink(m, step);
    HangUpKeeps(m.link, id);
    ResumeKeeps(m.link);
  }

  /** The books are kept whatever comes, in time or not. */
  lemma MStepConsistent(m: Mission, step: MStep)
    requires Consistent(m.link) && MPossible(m, step)
    ensures CanStep(m, step) && Consistent(MNext(m, step).link)
  {
    ConsistentIsFiled(m.link);
    if step.FromOutside? {
      StepKeepsIff(m.link, step.step);
      HeedConsistent(m, Next(m.link, step.step));
    } else if HangsUp(step) {
      HangUpLinkKeeps(m, step);
    } else {
      ToolLinkKeeps(m, step);
    }
  }

  // ---- every step ----

  lemma ToolInTouch(m: Mission, step: MStep)
    requires InTouch(m) && Booked(m.link) && MPossible(m, step) && !step.FromOutside? && !HangsUp(step)
    ensures InTouch(ToolNext(m, step))
  {
    hide InRow, LinesKnown, LegsAgree, OrderAgrees;
    match step
    case ToolCallParty => if CallParty(m).Some? { CallPartyKeeps(m); }
    case DialFails =>
    case DialSucceeds(id) => PlacedKeeps(m, id);
    case ToolSwitchLine(n) => if SwitchLine(m, n).Some? { SwitchLineKeeps(m, n); }
    case ToolConnectLines => if ConnectLines(m).Some? { ConnectLinesKeeps(m); }
  }

  lemma HangUpToolKeepsIff(m: Mission, step: MStep)
    requires InTouch(m) && Booked(m.link) && MPossible(m, step) && HangsUp(step)
    ensures HangUpNext(m, step).ended || (InTouch(HangUpNext(m, step)) <==> InTime(m, step))
  {
    hide Booked, InRow, LinesKnown, Live;
    match step
    case RingTimeout => HangUpInTouch(m, m.lines[m.tool.n - 1].callId, GivingUp(m.tool.first, m.tool.n));
    case ToolDropLine(n) =>
      LiveIs(m.lines, n);
      if n in Live(m.lines) { HangUpInTouch(m, m.lines[n - 1].callId, Dropping(n)); }
    case HangUpFails =>
    case HangUpDone => HungUpKeepsIff(m);
  }

  lemma HungUpKeepsIff(m: Mission)
    requires InTouch(m) && Booked(m.link) && MPossible(m, HangUpDone)
    ensures HangUpNext(m, HangUpDone).ended || (InTouch(HangUpNext(m, HangUpDone)) <==> InTime(m, HangUpDone))
  {
    hide Booked, InTouch, Live;
    if m.tool.GivingUp? {
      GivenUpKeepsIff(m);
      GivingUpBounds(m);
    } else {
      DroppedKeepsIff(m);
    }
  }

  lemma GivingUpBounds(m: Mission)
    requires InTouch(m) && m.tool.GivingUp? && Booked(m.link)
    ensures 1 <= m.tool.n <= |m.lines| && !BackToFirst(m, m.tool.first, m.tool.n).ended <==> !m.ended
  {
  }

  lemma RevivesKeepsIff(m: Mission, step: Step)
    requires InTouch(m) && Booked(m.link) && Possible(m.link, step) && Revives(m, step) && Filed(m.link) && Filed(Next(m.link, step))
    ensures step.StatusCallback? && (InTouch(Heed(m, Next(m.link, step))) <==> Harmless(m, step.id))
  {
    hide InTouch, Booked, Heed, Harmless, OnStatus, Filed;
    RevivedKeepsIff(m, step.id, step.status.state);
  }

  lemma OutsideKeepsIff(m: Mission, step: Step)
    requires InTouch(m) && !m.ended && Consistent(m.link) && Outside(step) && Possible(m.link, step)
    ensures Filed(m.link) && Filed(Next(m.link, step))
    ensures Heed(m, Next(m.link, step)).ended || (InTouch(Heed(m, Next(m.link, step))) <==> InTime(m, FromOutside(step)))
  {
    ConsistentIsBooked(m.link);
    StepKeepsIff(m.link, step);
    ConsistentIsFiled(Next(m.link, step));
    hide Consistent, InTouch, Booked, Heed, Harmless, Revives, Next, Filed;
    if Revives(m, step) {
      RevivesKeepsIff(m, step);
    } else {
      var ended, ids := OutsideEffect(m, step);
      HeedKeeps(m, Next(m.link, step), ended, ids);
    }
  }

  /** A step of a tool, a reply or an event from outside keeps mission and phone line in agreement
      exactly if it comes in time. */
  lemma MStepKeepsIff(m: Mission, step: MStep)
    requires Agrees(m) && MPossible(m, step)
    ensures CanStep(m, step)
    ensures MNext(m, step).ended || InTime(m, step) <==> Agrees(MNext(m, step))
  {
    MStepConsistent(m, step);
    ConsistentIsBooked(m.link);
    hide Consistent, InTouch, Booked, InTime, Heed, HangUpNext, ToolNext;
    if step.FromOutside? {
      OutsideKeepsIff(m, step.step);
    } else if HangsUp(step) {
      HangUpToolKeepsIff(m, step);
    } else {
      ToolInTouch(m, step);
      ToolsInTime(m, step);
    }
  }

  lemma ToolsInTime(m: Mission, step: MStep)
    requires !step.FromOutside? && !HangsUp(step)
    ensures InTime(m, step)
  {
  }

  // ---- every run ----

  ghost predicate IsMissionRun(m: Mission, steps: seq<MStep>, end: Mission)
    decreases |steps|
  {
    if steps == [] then end == m
    else CanStep(m, steps[0]) && IsMissionRun(MNext(m, steps[0]), steps[1..], end)
  }

  /** A run in which every step comes in time. */
  ghost predicate InTimeRun(m: Mission, steps: seq<MStep>)
    decreases |steps|
  {
    steps != [] ==> CanStep(m, steps[0]) && InTime(m, steps[0]) && InTimeRun(MNext(m, steps[0]), steps[1..])
  }

  /** The first party is on the line. */
  function Connected(id: CallId, state: CallState): Mission
  {
    Mission(SetState(NewLeg(Twilio.INIT, id, state), id, Active), [PartyLine(id, Active)], 1, Idle, false, false)
  }

  lemma ConnectedAgrees(id: CallId, state: CallState)
    requires state == CallState.Dialing || state == Incoming
    ensures Agrees(Connected(id, state))
  {
    InitConsistent();
    NewLegKeeps(Twilio.INIT, id, state);
    SetStateKeeps(NewLeg(Twilio.INIT, id, state), id, Active);
    ConnectedInTouch(id, state);
  }

  lemma ConnectedInTouch(id: CallId, state: CallState)
    requires state == CallState.Dialing || state == Incoming
    ensures InTouch(Connected(id, state))
  {
    var m := Connected(id, state);
    assert Holds(m.link.legs) == map[id := false] && m.link.order == [id];
    assert LineKnown(m.lines[0], Holds(m.link.legs), m.link.seen);
    assert OwnCall(m.lines, 0) && HasLine(m.lines, id);
  }

  lemma {:induction false} RunAgrees(m: Mission, steps: seq<MStep>, end: Mission)
    requires Agrees(m) && IsMissionRun(m, steps, end) && InTimeRun(m, steps)
    ensures Agrees(end)
    decreases |steps|
  {
    if steps != [] {
      hide Agrees, InTime;
      MStepKeepsIff(m, steps[0]);
      RunAgrees(MNext(m, steps[0]), steps[1..], end);
    }
  }

  /** In every run in time, whoever hangs up whenever, until nobody is left: the voice model's
      audio goes to and comes from nobody but the party on the mission's active line. */
  lemma NoWrongPartyEver(id: CallId, state: CallState, steps: seq<MStep>, m: Mission)
    requires state == CallState.Dialing || state == Incoming
    requires IsMissionRun(Connected(id, state), steps, m) && InTimeRun(Connected(id, state), steps)
    ensures m.ended || NoWrongParty(m)
  {
    hide InTouch, Consistent, NoWrongParty, Connected, IsMissionRun, InTimeRun;
    ConnectedAgrees(id, state);
    RunAgrees(Connected(id, state), steps, m);
    if !m.ended {
      AgreesIsSafe(m);
    }
  }

  lemma AgreesIsSafe(m: Mission)
    requires Agrees(m) && !m.ended
    ensures NoWrongParty(m)
  {
    hide InTouch, NoWrongParty, LegsAgree, EventsAgree, MarksAgree, OrderAgrees;
    InTouchIsSafe(m);
  }

  ghost predicate NobodyUp(lines: seq<PartyLine>) { forall i :: 0 <= i < |lines| ==> lines[i].state == Ended }

  lemma NoneLive(lines: seq<PartyLine>)
    ensures Live(lines) == [] <==> NobodyUp(lines)
  {
    if Live(lines) == [] {
      forall i | 0 <= i < |lines| ensures lines[i].state == Ended { LiveIs(lines, i + 1); }
    } else {
      FirstLive(lines);
    }
  }

  /** A step ends the mission only when it leaves nobody up. */
  lemma EndsNext(m: Mission, step: MStep)
    requires CanStep(m, step)
    ensures MNext(m, step).ended ==> NobodyUp(MNext(m, step).lines)
  {
    hide Hold, Swap, Dialed, HangUp, Live, Next, Filed;
    if step.FromOutside? {
      var link := Next(m.link, step.step);
      var n := if |link.events| == |m.link.events| + 1 then LineOf(m.lines, link.events[|m.link.events|].call.id) else 0;
      if n > 0 { NoneLive(EndLine(m.(link := link), n).lines); }
    } else if step.HangUpDone? && m.tool.Dropping? {
      NoneLive(EndLine(m, m.tool.n).lines);
    }
  }

  lemma {:induction false} RunEnds(m: Mission, steps: seq<MStep>, end: Mission)
    requires IsMissionRun(m, steps, end) && (m.ended ==> NobodyUp(m.lines))
    ensures end.ended ==> NobodyUp(end.lines)
    decreases |steps|
  {
    if steps != [] {
      hide CanStep, MNext, NobodyUp;
      EndsNext(m, steps[0]);
      RunEnds(MNext(m, steps[0]), steps[1..], end);
    }
  }

  /** The mission is over only when nobody is left, in every run, in time or not; and in a run in
      time it is over as soon as nobody is. */
  lemma EndsWhenNobodyIsLeft(id: CallId, state: CallState, steps: seq<MStep>, m: Mission)
    requires state == CallState.Dialing || state == Incoming
    requires IsMissionRun(Connected(id, state), steps, m)
    ensures m.ended ==> NobodyUp(m.lines)
    ensures InTimeRun(Connected(id, state), steps) && NobodyUp(m.lines) ==> m.ended
  {
    RunEnds(Connected(id, state), steps, m);
    if InTimeRun(Connected(id, state), steps) && !m.ended {
      hide IsMissionRun, InTimeRun;
      ConnectedAgrees(id, state);
      RunAgrees(Connected(id, state), steps, m);
      ActiveIsUp(m);
    }
  }

  /** When the tools are accepted, in agreement: call_party exactly if no other line is up and no
      dial has failed; switch_line exactly for a line that is up and not active, if some line is
      known to be active; connect_lines exactly if another line is up. */
  lemma ToolsAccepted(m: Mission, n: nat)
    requires Agrees(m) && !m.ended && m.tool.Idle?
    ensures Filed(m.link)
    ensures CallParty(m).Some? <==> !m.dialFailed && OnlyOneUp(m.lines, m.active)
    ensures SwitchLine(m, n).Some? <==>
              1 <= n <= |m.lines| && n != m.active && m.lines[n - 1].state != Ended
              && exists i :: 0 <= i < |m.lines| && m.lines[i].state == Active
    ensures ConnectLines(m).Some? <==> !OnlyOneUp(m.lines, m.active)
  {
    ConsistentIsBooked(m.link);
    CallPartyAccepted(m);
    SwitchAccepted(m, n);
    ConnectAccepted(m);
  }

  lemma CallPartyAccepted(m: Mission)
    requires InTouch(m) && Booked(m.link) && m.tool.Idle?
    ensures CallParty(m).Some? <==> !m.dialFailed && OnlyOneUp(m.lines, m.active)
  {
    RowLegs(m.link, m.lines, Talking(m));
    ActiveIsUp(m);
    LiveCount(m.lines, m.active);
    hide InRow, LinesKnown, Live, LegsAgree, OrderAgrees, OnlyOneUp;
  }

  lemma LiveCount(lines: seq<PartyLine>, n: nat)
    requires 1 <= n <= |lines| && lines[n - 1].state != Ended
    ensures |Live(lines)| <= 1 <==> OnlyOneUp(lines, n)
  {
    LiveIs(lines, n);
    if |Live(lines)| <= 1 {
      forall i | 0 <= i < |lines| && i + 1 != n ensures lines[i].state == Ended { LiveIs(lines, i + 1); }
    } else {
      LiveAscends(lines);
      var k := if Live(lines)[0] == n then Live(lines)[1] else Live(lines)[0];
      assert Live(lines)[0] < Live(lines)[1] && k in Live(lines);
      LiveIs(lines, k);
      assert lines[k - 1].state != Ended;
    }
  }

  lemma SwitchAccepted(m: Mission, n: nat)
    requires InTouch(m) && Booked(m.link) && m.tool.Idle?
    ensures SwitchLine(m, n).Some? <==>
              1 <= n <= |m.lines| && n != m.active && m.lines[n - 1].state != Ended
              && exists i :: 0 <= i < |m.lines| && m.lines[i].state == Active
  {
    LiveIs(m.lines, n);
    if n in Live(m.lines) && n != m.active {
      OtherLine(m, n);
      ResumeIsRefused(m);
      SwapIsAccepted(m);
    }
    hide InRow, LinesKnown, Live, LegsAgree, OrderAgrees, Swap, Resume;
  }

  lemma SwapIsAccepted(m: Mission)
    requires InTouch(m) && Booked(m.link) && |m.link.order| > 1 && !Holds(m.link.legs)[Talking(m)]
    ensures Swap(m.link).Some?
  {
    RowLegs(m.link, m.lines, Talking(m));
  }

  lemma ConnectAccepted(m: Mission)
    requires InTouch(m) && Booked(m.link) && m.tool.Idle?
    ensures ConnectLines(m).Some? <==> !OnlyOneUp(m.lines, m.active)
  {
    ActiveIsUp(m);
    LiveCount(m.lines, m.active);
    FewLive(m);
    if i :| 0 <= i < |m.lines| && i + 1 != m.active && m.lines[i].state != Ended {
      OtherLine(m, i + 1);
      SwapIsAccepted(m);
    }
    hide InRow, LinesKnown, Live, LegsAgree, OrderAgrees, Swap;
  }

  /** No more than two lines are up. */
  lemma FewLive(m: Mission)
    requires InTouch(m) && Booked(m.link)
    ensures |Live(m.lines)| <= 2
  {
    if |Live(m.lines)| > 2 {
      var live := Live(m.lines);
      LiveAscends(m.lines);
      assert live[0] < live[1] < live[2] && live[0] in live && live[1] in live && live[2] in live;
      LiveIs(m.lines, live[0]);
      LiveIs(m.lines, live[1]);
      LiveIs(m.lines, live[2]);
      var i := if live[0] == m.active then live[1] else live[0];
      var j := if live[2] == m.active then live[1] else live[2];
      OtherLine(m, i);
      OtherLine(m, j);
      DistinctCalls(m.lines, i, j);
    }
  }

  /** A status callback about a call on hold that says nothing but that it is in progress is in
      time: a call on hold has been answered, so callbacks that come in order are. */
  lemma InOrderIsInTime(m: Mission, id: CallId, state: CallState)
    requires Agrees(m) && !m.ended
    requires id in m.link.legs && m.link.legs[id].held ==> state == Active
    ensures InTime(m, FromOutside(StatusCallback(id, Progress(state))))
  {
    if Revives(m, StatusCallback(id, Progress(state))) {
      RevivedNotActive(m, id);
      OthersAreHeld(m, id);
    }
  }

  lemma OthersAreHeld(m: Mission, id: CallId)
    requires InTouch(m) && OrderAgrees(m.link.order, m.link.legs.Keys) && id in m.link.legs && id != Talking(m)
    ensures m.link.legs[id].held
  {
    assert id in m.link.order;
    var i :| 0 <= i < |m.link.order| && m.link.order[i] == id;
    assert id in Holds(m.link.legs);
  }

  // ---- the party that is heard ----

  /** `dialFailed` says whether call_party's dial has failed. */
  lemma {:induction false} FailedIff(m: Mission, steps: seq<MStep>, end: Mission)
    requires IsMissionRun(m, steps, end)
    ensures end.dialFailed <==> m.dialFailed || DialFails in steps
    decreases |steps|
  {
    if steps != [] {
      FailedNext(m, steps[0]);
      FailedIff(MNext(m, steps[0]), steps[1..], end);
      assert steps == [steps[0]] + steps[1..];
    }
  }

  lemma FailedNext(m: Mission, step: MStep)
    requires CanStep(m, step)
    ensures MNext(m, step).dialFailed <==> m.dialFailed || step.DialFails?
  {
    hide Hold, Resume, Swap, Dialed, HangUp, HeardAll, Live, Next;
  }

  /** In every run in time, until nobody is left: the party on the active line is up, and the
      voice model is heard by it, except while call_party dials, and for good once a dial has
      failed: nothing takes that party off hold again. */
  lemma HeardUnlessDialFailed(id: CallId, state: CallState, steps: seq<MStep>, m: Mission)
    requires state == CallState.Dialing || state == Incoming
    requires IsMissionRun(Connected(id, state), steps, m) && InTimeRun(Connected(id, state), steps)
    ensures m.ended ||
            (&& 1 <= m.active <= |m.lines| && Talking(m) in m.link.legs
             && (m.link.legs[Talking(m)].held <==> m.tool.Placing? || DialFails in steps))
  {
    ConnectedAgrees(id, state);
    RunAgrees(Connected(id, state), steps, m);
    FailedIff(Connected(id, state), steps, m);
    if !m.ended { TalkingHeld(m); }
  }

  lemma TalkingHeld(m: Mission)
    requires InTouch(m)
    ensures Talking(m) in m.link.legs && (m.link.legs[Talking(m)].held <==> m.tool.Placing? || m.dialFailed)
  {
    LastIsTalking(m);
    assert Holds(m.link.legs)[Talking(m)] == m.link.legs[Talking(m)].held;
    hide InRow, LinesKnown, ToolKnown;
  }

  /** After a failed dial no tool but drop_line does anything. */
  lemma NothingTakesItOff(m: Mission, n: nat)
    requires Agrees(m) && !m.ended && m.dialFailed
    ensures Filed(m.link) && CallParty(m).None? && ConnectLines(m).None? && SwitchLine(m, n).None?
  {
    ConsistentIsBooked(m.link);
    RowLegs(m.link, m.lines, Talking(m));
    OnlyActiveUp(m);
    LiveIs(m.lines, n);
    hide InRow, LinesKnown, Consistent, ToolKnown, OrderAgrees, LegsAgree;
  }

  // ---- replies that come too soon ----

  /** Why a hung-up call's end must come before the reply to the hang-up: the reply leaves no
      wrong party off hold exactly if the mission is not still with that call while it has
      another to go back to. Otherwise `resume` is refused, and the audio keeps going to the
      party that was hung up on. */
  lemma HangUpNeedsTheEnd(m: Mission)
    requires Agrees(m) && MPossible(m, HangUpDone)
    ensures CanStep(m, HangUpDone)
    ensures MNext(m, HangUpDone).ended || (NoWrongParty(MNext(m, HangUpDone)) <==> !TooSoon(m))
  {
    hide Consistent, InTouch, NoWrongParty, HangUpNext, TooSoon;
    MStepKeepsIff(m, HangUpDone);
    var m' := MNext(m, HangUpDone);
    if !m'.ended {
      if TooSoon(m) { SoonIsWrong(m); } else { AgreesIsSafe(m'); }
    }
  }

  lemma SoonIsWrong(m: Mission)
    requires Agrees(m) && MPossible(m, HangUpDone) && CanStep(m, HangUpDone) && TooSoon(m) && !MNext(m, HangUpDone).ended
    ensures !NoWrongParty(MNext(m, HangUpDone))
  {
    var t := Talking(m);
    ConsistentIsBooked(m.link);
    LastIsTalking(m);
    assert Holds(m.link.legs)[t] == m.link.legs[t].held;
    hide Consistent, NoWrongParty, InRow, LinesKnown, Booked;
    if m.tool.GivingUp? {
      SoonGivingUp(m);
    } else {
      SoonDropping(m);
    }
    HearsTheDropped(MNext(m, HangUpDone), t);
  }

  lemma SoonGivingUp(m: Mission)
    requires InTouch(m) && Booked(m.link) && m.tool.GivingUp? && TooSoon(m)
    ensures var m' := BackToFirst(m, m.tool.first, m.tool.n);
            m'.link == m.link && 1 <= m'.active <= |m'.lines| && Talking(m') != Talking(m) && !Holds(m.link.legs)[Talking(m)]
  {
    assert m.lines[m.tool.n - 1].callId in Holds(m.link.legs);
    ResumeIsRefused(m);
    DistinctCalls(m.lines, m.tool.first, m.tool.n);
  }

  lemma SoonDropping(m: Mission)
    requires InTouch(m) && Booked(m.link) && m.tool.Dropping? && TooSoon(m)
    ensures var m' := Dropped(m, m.tool.n);
            m'.link == m.link && 1 <= m'.active <= |m'.lines| && Talking(m') != Talking(m) && !Holds(m.link.legs)[Talking(m)]
  {
    var k := FirstOther(m);
    OtherLine(m, k);
    ResumeIsRefused(m);
    hide Live, InRow, LinesKnown;
  }

  lemma HearsTheDropped(m: Mission, id: CallId)
    requires 1 <= m.active <= |m.lines| && Talking(m) != id && id in m.link.legs && !m.link.legs[id].held
    ensures !NoWrongParty(m)
  {
  }
}
