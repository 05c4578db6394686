/** A phone line on Twilio (twilio.ts): the legs of its calls, which of them gets the audio,
    and the marks and events the rest of the plugin waits on.

    `Line` is the line's state; the functions are its commands and the events it gets, and
    the class at the end is the line itself. A merge waits for one reply per leg, so it is
    several operations: MergeBegin, then a MergeReply for each leg. */
module Twilio {
  import opened Wrappers

  type CallId = string

  datatype CallState = Dialing | Alerting | Incoming | Active | Held | Ended

  datatype LineCall = LineCall(id: CallId, state: CallState, conference: bool)

  datatype Reason = Local | Remote | Busy | NoAnswer | Failed | Canceled

  datatype Event =
    | Ringing(call: LineCall)
    | StateChanged(call: LineCall)
    | CallEnded(call: LineCall, reason: Reason)

  /** A status callback's CallStatus. */
  datatype Status = Progress(state: CallState) | Over(reason: Reason) | Unknown

  /** `ws` is the leg's media stream, once Twilio has opened it. */
  datatype Leg = Leg(call: LineCall, ws: Option<nat>, held: bool, hungUp: bool, redirecting: bool, marks: set<nat>)

  /** `legs` and `order` are the source's insertion-ordered map. `merging` are the legs a merge
      still has to redirect, the awaited one first; `streams` is the leg each socket announced.
      `seen` (every call ever), `events`, `owner` (the leg each mark was put on) and `resolved`
      (the marks that were played or cleared) are history. */
  datatype Line = Line(
    legs: map<CallId, Leg>,
    order: seq<CallId>,
    calls: map<CallId, LineCall>,
    nextMark: nat,
    merging: seq<CallId>,
    streams: map<nat, CallId>,
    seen: set<CallId>,
    events: seq<Event>,
    owner: map<nat, CallId>,
    resolved: multiset<nat>)

  const INIT := Line(map[], [], map[], 0, [], map[], {}, [], map[], multiset{})

  // ---- looking at the legs ----

  predicate OnLine(legs: map<CallId, Leg>, id: CallId)
  {
    id in legs && !legs[id].held && legs[id].call.state != Ended
  }

  predicate OnHold(legs: map<CallId, Leg>, id: CallId) { id in legs && legs[id].held }

  /** The leg that gets the audio: the newest one off hold. */
  function ActiveLeg(legs: map<CallId, Leg>, order: seq<CallId>): (r: Option<CallId>)
    ensures r.Some? ==> OnLine(legs, r.value) && r.value in order
  {
    if order == [] then None
    else if OnLine(legs, order[|order| - 1]) then Some(order[|order| - 1])
    else ActiveLeg(legs, order[..|order| - 1])
  }

  /** The newest leg on hold. */
  function HeldLeg(legs: map<CallId, Leg>, order: seq<CallId>): (r: Option<CallId>)
    ensures r.Some? ==> OnHold(legs, r.value) && r.value in order
  {
    if order == [] then None
    else if OnHold(legs, order[|order| - 1]) then Some(order[|order| - 1])
    else HeldLeg(legs, order[..|order| - 1])
  }

  function Without(order: seq<CallId>, id: CallId): seq<CallId>
  {
    if order == [] then []
    else
      var last := order[|order| - 1];
      Without(order[..|order| - 1], id) + if last == id then [] else [last]
  }

  // ---- the pieces commands and events are made of ----

  function NewLeg(l: Line, id: CallId, state: CallState): Line
  {
    var call := LineCall(id, state, false);
    l.(legs := l.legs[id := Leg(call, None, false, false, false, {})],
       order := if id in l.legs then l.order else l.order + [id],
       calls := l.calls[id := call],
       seen := l.seen + {id},
       events := l.events + [if state == Incoming then Ringing(call) else StateChanged(call)])
  }

  /** Replaces what the line knows of a leg's call, and says so. */
  function SetCall(l: Line, call: LineCall): Line
    requires call.id in l.legs
  {
    l.(legs := l.legs[call.id := l.legs[call.id].(call := call)],
       calls := l.calls[call.id := call],
       events := l.events + [StateChanged(call)])
  }

  function SetState(l: Line, id: CallId, state: CallState): Line
    requires id in l.legs && l.legs[id].call.id == id
  {
    var call := l.legs[id].call;
    if call.state == state || call.state == Ended then l else SetCall(l, call.(state := state))
  }

  function SetHeld(l: Line, id: CallId, held: bool): Line
    requires id in l.legs
  {
    l.(legs := l.legs[id := l.legs[id].(held := held)])
  }

  function DropMarks(l: Line, id: CallId): Line
    requires id in l.legs
  {
    l.(legs := l.legs[id := l.legs[id].(marks := {})],
       resolved := l.resolved + multiset(l.legs[id].marks))
  }

  function End(l: Line, id: CallId, reason: Reason): Line
    requires id in l.legs
  {
    var leg := l.legs[id];
    if leg.call.state == Ended then l
    else
      l.(legs := l.legs - {id},
         order := Without(l.order, id),
         calls := l.calls - {id},
         resolved := l.resolved + multiset(leg.marks),
         events := l.events + [CallEnded(leg.call.(state := Ended), if leg.hungUp then Local else reason)])
  }

  /** The part of a redirect before the reply. */
  function Redirect(l: Line, id: CallId): Line
    requires id in l.legs
  {
    l.(legs := l.legs[id := l.legs[id].(redirecting := true, marks := {})],
       resolved := l.resolved + multiset(l.legs[id].marks))
  }

  // ---- commands ----

  function Dialed(l: Line, id: CallId): Line { NewLeg(l, id, Dialing) }

  function HangUp(l: Line, id: CallId): Line
  {
    if id in l.legs then l.(legs := l.legs[id := l.legs[id].(hungUp := true)]) else l
  }

  /** The line's legs are filed under their calls' ids. */
  ghost predicate Filed(l: Line) { forall id :: id in l.legs ==> l.legs[id].call.id == id }

  /** Puts a leg on hold: nothing it was told to play is awaited any more. */
  function Park(l: Line, id: CallId): Line
    requires id in l.legs
  {
    l.(legs := l.legs[id := l.legs[id].(held := true, marks := {})],
       resolved := l.resolved + multiset(l.legs[id].marks))
  }

  /** None: the command is refused and changes nothing. */
  function Hold(l: Line): (r: Option<Line>)
    requires Filed(l)
    ensures r.Some? ==> Filed(r.value)
  {
    var now := ActiveLeg(l.legs, l.order);
    if now.None? then None else Some(SetState(Park(l, now.value), now.value, Held))
  }

  function Resume(l: Line): (r: Option<Line>)
    requires Filed(l)
    ensures r.Some? ==> Filed(r.value)
  {
    var held := HeldLeg(l.legs, l.order);
    if held.None? || ActiveLeg(l.legs, l.order).Some? then None
    else Some(SetState(SetHeld(l, held.value, false), held.value, Active))
  }

  /** The leg taken off hold becomes the newest. */
  function Swap(l: Line): (r: Option<Line>)
    requires Filed(l)
    ensures r.Some? ==> Filed(r.value)
  {
    var now, held := ActiveLeg(l.legs, l.order), HeldLeg(l.legs, l.order);
    if now.None? || held.None? then None
    else
      var s := SetHeld(Park(l, now.value), held.value, false).(order := Without(l.order, held.value) + [held.value]);
      Some(SetState(SetState(s, now.value, Held), held.value, Active))
  }

  /** A key press redirects the active leg. */
  function Dtmf(l: Line): Option<Line>
  {
    var now := ActiveLeg(l.legs, l.order);
    if now.None? then None else Some(Redirect(l, now.value))
  }

  /** Twilio refused a redirect. */
  function RedirectFailed(l: Line, id: CallId): Line
  {
    if id in l.legs then l.(legs := l.legs[id := l.legs[id].(redirecting := false)]) else l
  }

  /** Ended legs have left the map, so the live legs are all of them. The mission asks for one
      merge at a time. */
  function MergeBegin(l: Line): Option<Line>
  {
    if |l.order| != 2 || l.order[0] !in l.legs || l.merging != [] then None
    else Some(Redirect(l, l.order[0]).(merging := l.order))
  }

  /** The reply to the redirect a merge is waiting for. If the leg's call has ended since, the
      merge still enters it in `calls` and reports it. */
  function MergeReply(l: Line, ok: bool): Line
    requires l.merging != []
  {
    if !ok then RedirectFailed(l, l.merging[0]).(merging := [])
    else
      var l' := Merged(l, l.merging[0]).(merging := l.merging[1..]);
      if l'.merging != [] && l'.merging[0] in l'.legs then Redirect(l', l'.merging[0]) else l'
  }

  function Merged(l: Line, id: CallId): Line
  {
    var call := LineCall(id, Active, true);
    if id in l.legs then SetCall(SetHeld(l, id, false), call)
    else l.(calls := l.calls[id := call], events := l.events + [StateChanged(call)])
  }

  /** None: nothing plays, so the mark resolves at once. */
  function Mark(l: Line): Option<Line>
  {
    var now := ActiveLeg(l.legs, l.order);
    if now.None? || l.legs[now.value].ws.None? || l.legs[now.value].redirecting then None
    else
      var id, m := now.value, l.nextMark + 1;
      Some(l.(legs := l.legs[id := l.legs[id].(marks := l.legs[id].marks + {m})],
              nextMark := m, owner := l.owner[m := id]))
  }

  function Clear(l: Line): Line
  {
    var now := ActiveLeg(l.legs, l.order);
    if now.None? then l else DropMarks(l, now.value)
  }

  // ---- what Twilio reports ----

  function OnStatus(l: Line, id: CallId, status: Status): Line
    requires Filed(l)
  {
    if id !in l.legs then l
    else match status
      case Over(reason) => End(l, id, reason)
      case Progress(state) => if state == Active && l.legs[id].held then l else SetState(l, id, state)
      case Unknown => l
  }

  function StreamStart(l: Line, ws: nat, id: CallId): Line
    requires Filed(l)
  {
    if id !in l.legs then l.(streams := l.streams - {ws})
    else
      var l1 := l.(streams := l.streams[ws := id],
                   legs := l.legs[id := l.legs[id].(ws := Some(ws), redirecting := false)]);
      if l.legs[id].held then l1 else SetState(l1, id, Active)
  }

  /** Whether a socket is its leg's current stream. */
  predicate IsStream(l: Line, ws: nat)
  {
    ws in l.streams && l.streams[ws] in l.legs && l.legs[l.streams[ws]].ws == Some(ws)
  }

  function StreamStop(l: Line, ws: nat): Line
  {
    if IsStream(l, ws) && !l.legs[l.streams[ws]].redirecting && !l.legs[l.streams[ws]].call.conference
    then End(l, l.streams[ws], Remote) else l
  }

  function StreamClosed(l: Line, ws: nat): Line
  {
    if IsStream(l, ws) then l.(legs := l.legs[l.streams[ws] := l.legs[l.streams[ws]].(ws := None)]) else l
  }

  /** Twilio played up to a mark; the socket may be one the leg has replaced. */
  function MarkPlayed(l: Line, ws: nat, m: nat): Line
  {
    if ws in l.streams && l.streams[ws] in l.legs && m in l.legs[l.streams[ws]].marks then
      var id := l.streams[ws];
      l.(legs := l.legs[id := l.legs[id].(marks := l.legs[id].marks - {m})], resolved := l.resolved + multiset{m})
    else l
  }

  // ---- the bookkeeping that always holds ----

  /** A leg and the line's calls tell the same story, the call is not over, and nothing is
      awaited on a leg that is on hold or being redirected. */
  ghost predicate LegOk(leg: Leg, id: CallId, calls: map<CallId, LineCall>)
  {
    && leg.call.id == id && leg.call.state != Ended
    && id in calls && calls[id] == leg.call
    && (leg.held || leg.redirecting ==> leg.marks == {})
  }

  ghost predicate OrderAgrees(order: seq<CallId>, ids: set<CallId>)
  {
    && (forall id :: id in order <==> id in ids)
    && forall i, j :: 0 <= i < j < |order| ==> order[i] != order[j]
  }

  ghost predicate LegsAgree(legs: map<CallId, Leg>, calls: map<CallId, LineCall>)
  {
    calls.Keys == legs.Keys && forall id :: id in legs ==> LegOk(legs[id], id, calls)
  }

  /** The calls that were announced as over. */
  function EndedIds(events: seq<Event>): set<CallId>
  {
    if events == [] then {}
    else
      var e := events[|events| - 1];
      EndedIds(events[..|events| - 1]) + if e.CallEnded? then {e.call.id} else {}
  }

  /** A call's end is announced once, and nothing about the call after it. */
  ghost predicate EndIsLast(events: seq<Event>)
  {
    events != [] ==>
      && EndIsLast(events[..|events| - 1])
      && events[|events| - 1].call.id !in EndedIds(events[..|events| - 1])
  }

  /** The calls announced as over are exactly those the line has dropped. */
  ghost predicate EventsAgree(events: seq<Event>, seen: set<CallId>, live: set<CallId>)
  {
    live <= seen && EndIsLast(events) && EndedIds(events) == seen - live
  }

  ghost predicate IsPending(legs: map<CallId, Leg>, owner: map<nat, CallId>, m: nat)
  {
    m in owner && owner[m] in legs && m in legs[owner[m]].marks
  }

  ghost predicate MarkOk(legs: map<CallId, Leg>, owner: map<nat, CallId>, resolved: multiset<nat>, m: nat)
  {
    resolved[m] == if m in owner && !IsPending(legs, owner, m) then 1 else 0
  }

  /** Every mark issued is pending on the leg it was put on, or has resolved, once. */
  ghost predicate MarksAgree(legs: map<CallId, Leg>, owner: map<nat, CallId>, nextMark: nat, resolved: multiset<nat>)
  {
    && (forall m :: m in owner <==> 1 <= m <= nextMark)
    && (forall id, m :: id in legs && m in legs[id].marks ==> m in owner && owner[m] == id)
    && forall m :: MarkOk(legs, owner, resolved, m)
  }

  ghost predicate Consistent(l: Line)
  {
    && LegsAgree(l.legs, l.calls)
    && OrderAgrees(l.order, l.legs.Keys)
    && EventsAgree(l.events, l.seen, l.calls.Keys)
    && MarksAgree(l.legs, l.owner, l.nextMark, l.resolved)
  }

  // ---- the pieces keep it ----

  lemma {:induction false} OrderWithout(order: seq<CallId>, ids: set<CallId>, id: CallId)
    requires OrderAgrees(order, ids)
    ensures OrderAgrees(Without(order, id), ids - {id})
  {
    if order != [] {
      var init, last := order[..|order| - 1], order[|order| - 1];
      assert order == init + [last];
      OrderWithout(init, ids - {last}, id);
      if last == id {
        assert ids - {last} - {id} == ids - {id};
      } else {
        OrderAppend(Without(init, id), ids - {last} - {id}, last);
        assert ids - {last} - {id} + {last} == ids - {id};
      }
    }
  }

  lemma OrderAppend(order: seq<CallId>, ids: set<CallId>, id: CallId)
    requires OrderAgrees(order, ids) && id !in ids
    ensures OrderAgrees(order + [id], ids + {id})
  {
  }

  /** Some of a leg's marks resolve. */
  lemma MarksResolve(legs: map<CallId, Leg>, owner: map<nat, CallId>, nextMark: nat, resolved: multiset<nat>,
                     id: CallId, leg: Leg, gone: set<nat>)
    requires MarksAgree(legs, owner, nextMark, resolved) && id in legs
    requires gone <= legs[id].marks && leg.marks == legs[id].marks - gone
    ensures MarksAgree(legs[id := leg], owner, nextMark, resolved + multiset(gone))
  {
    var legs', resolved' := legs[id := leg], resolved + multiset(gone);
    forall m ensures MarkOk(legs', owner, resolved', m) { assert MarkOk(legs, owner, resolved, m); }
  }

  /** A leg's own fields change and some of its marks resolve. */
  lemma LegChangeKeeps(l: Line, id: CallId, leg: Leg, gone: set<nat>)
    requires Consistent(l) && id in l.legs
    requires leg.call == l.legs[id].call && (leg.held || leg.redirecting ==> leg.marks == {})
    requires gone <= l.legs[id].marks && leg.marks == l.legs[id].marks - gone
    ensures Consistent(l.(legs := l.legs[id := leg], resolved := l.resolved + multiset(gone)))
  {
    MarksResolve(l.legs, l.owner, l.nextMark, l.resolved, id, leg, gone);
    var legs' := l.legs[id := leg];
    assert legs'.Keys == l.legs.Keys;
    forall x | x in legs' ensures LegOk(legs'[x], x, l.calls) { assert LegOk(l.legs[x], x, l.calls); }
  }

  /** The leg's marks are all cleared, or all kept. */
  lemma LegClearedKeeps(l: Line, id: CallId, leg: Leg)
    requires Consistent(l) && id in l.legs
    requires leg.call == l.legs[id].call && leg.marks == {}
    ensures Consistent(l.(legs := l.legs[id := leg], resolved := l.resolved + multiset(l.legs[id].marks)))
  {
    LegChangeKeeps(l, id, leg, l.legs[id].marks);
  }

  lemma LegEditKeeps(l: Line, id: CallId, leg: Leg)
    requires Consistent(l) && id in l.legs
    requires leg.call == l.legs[id].call && leg.marks == l.legs[id].marks
    requires leg.held || leg.redirecting ==> l.legs[id].held || l.legs[id].redirecting
    ensures Consistent(l.(legs := l.legs[id := leg]))
  {
    assert LegOk(l.legs[id], id, l.calls);
    LegChangeKeeps(l, id, leg, {});
    assert l.resolved + multiset({}) == l.resolved;
  }

  lemma SetCallKeeps(l: Line, call: LineCall)
    requires Consistent(l) && call.id in l.legs && call.state != Ended
    ensures Consistent(SetCall(l, call))
  {
    var l' := SetCall(l, call);
    assert LegOk(l.legs[call.id], call.id, l.calls);
    forall x | x in l'.legs ensures LegOk(l'.legs[x], x, l'.calls) { assert LegOk(l.legs[x], x, l.calls); }
    assert l'.legs.Keys == l.legs.Keys && l'.calls.Keys == l.calls.Keys;
    EventsAppend(l.events, l.seen, l.calls.Keys, StateChanged(call), l'.calls.Keys);
    assert l.seen + {call.id} == l.seen;
    SameMarks(l.legs, l'.legs, l.owner, l.nextMark, l.resolved);
  }

  /** Legs come and go, or change, without their marks. */
  lemma SameMarks(legs: map<CallId, Leg>, legs': map<CallId, Leg>, owner: map<nat, CallId>,
                  nextMark: nat, resolved: multiset<nat>)
    requires MarksAgree(legs, owner, nextMark, resolved)
    requires forall id :: id in legs' ==> legs'[id].marks == if id in legs then legs[id].marks else {}
    requires forall id :: id in legs && id !in legs' ==> legs[id].marks == {}
    ensures MarksAgree(legs', owner, nextMark, resolved)
  {
    forall m ensures MarkOk(legs', owner, resolved, m) { assert MarkOk(legs, owner, resolved, m); }
  }

  lemma SetStateKeeps(l: Line, id: CallId, state: CallState)
    requires Consistent(l) && id in l.legs && state != Ended
    ensures l.legs[id].call.id == id && Consistent(SetState(l, id, state))
    ensures SetState(l, id, state).legs.Keys == l.legs.Keys
  {
    assert LegOk(l.legs[id], id, l.calls);
    if SetState(l, id, state) != l { SetCallKeeps(l, l.legs[id].call.(state := state)); }
  }

  lemma NewLegKeeps(l: Line, id: CallId, state: CallState)
    requires Consistent(l) && id !in l.seen && state != Ended
    ensures Consistent(NewLeg(l, id, state))
  {
    var l' := NewLeg(l, id, state);
    OrderAppend(l.order, l.legs.Keys, id);
    NewLegAgrees(l.legs, l.calls, id, l'.legs[id]);
    EventsAppend(l.events, l.seen, l.calls.Keys, l'.events[|l.events|], l'.calls.Keys);
    SameMarks(l.legs, l'.legs, l.owner, l.nextMark, l.resolved);
  }

  lemma NewLegAgrees(legs: map<CallId, Leg>, calls: map<CallId, LineCall>, id: CallId, leg: Leg)
    requires LegsAgree(legs, calls) && leg.call.id == id && leg.call.state != Ended && leg.marks == {}
    ensures LegsAgree(legs[id := leg], calls[id := leg.call])
    ensures legs[id := leg].Keys == legs.Keys + {id} && calls[id := leg.call].Keys == calls.Keys + {id}
  {
    var legs', calls' := legs[id := leg], calls[id := leg.call];
    forall x | x in legs' ensures LegOk(legs'[x], x, calls') {
      if x != id { assert LegOk(legs[x], x, calls); }
    }
  }

  /** News of a call that is up, old or new. */
  lemma EventsAppend(events: seq<Event>, seen: set<CallId>, live: set<CallId>, e: Event, live': set<CallId>)
    requires EventsAgree(events, seen, live) && !e.CallEnded? && live' == live + {e.call.id}
    requires e.call.id in live || e.call.id !in seen
    ensures EventsAgree(events + [e], seen + {e.call.id}, live')
  {
    assert (events + [e])[..|events|] == events;
  }

  lemma EndKeeps(l: Line, id: CallId, reason: Reason)
    requires Consistent(l) && id in l.legs
    ensures Consistent(End(l, id, reason))
  {
    var l', leg := End(l, id, reason), l.legs[id].(marks := {});
    assert LegOk(l.legs[id], id, l.calls);
    OrderWithout(l.order, l.legs.Keys, id);
    assert l'.legs.Keys == l.legs.Keys - {id} && l'.calls.Keys == l.calls.Keys - {id};
    forall x | x in l'.legs ensures LegOk(l'.legs[x], x, l'.calls) { assert LegOk(l.legs[x], x, l.calls); }
    assert l'.events[..|l.events|] == l.events;
    MarksResolve(l.legs, l.owner, l.nextMark, l.resolved, id, leg, l.legs[id].marks);
    SameMarks(l.legs[id := leg], l'.legs, l.owner, l.nextMark, l'.resolved);
  }

  // ---- every command and event keeps it ----

  lemma ConsistentIsFiled(l: Line)
    requires Consistent(l)
    ensures Filed(l)
  {
    forall id | id in l.legs ensures l.legs[id].call.id == id { assert LegOk(l.legs[id], id, l.calls); }
  }

  lemma HoldKeeps(l: Line)
    requires Consistent(l)
    ensures Filed(l) && (Hold(l).Some? ==> Consistent(Hold(l).value))
  {
    ConsistentIsFiled(l);
    var now := ActiveLeg(l.legs, l.order);
    if now.Some? {
      LegClearedKeeps(l, now.value, l.legs[now.value].(held := true, marks := {}));
      SetStateKeeps(Park(l, now.value), now.value, Held);
    }
  }

  lemma ResumeKeeps(l: Line)
    requires Consistent(l)
    ensures Filed(l) && (Resume(l).Some? ==> Consistent(Resume(l).value))
  {
    ConsistentIsFiled(l);
    if Resume(l).Some? {
      var held := HeldLeg(l.legs, l.order).value;
      LegEditKeeps(l, held, l.legs[held].(held := false));
      SetStateKeeps(SetHeld(l, held, false), held, Active);
    }
  }

  lemma ReorderKeeps(l: Line, id: CallId)
    requires Consistent(l) && id in l.legs
    ensures Consistent(l.(order := Without(l.order, id) + [id]))
  {
    OrderWithout(l.order, l.legs.Keys, id);
    OrderAppend(Without(l.order, id), l.legs.Keys - {id}, id);
    assert l.legs.Keys - {id} + {id} == l.legs.Keys;
  }

  lemma SwapKeeps(l: Line)
    requires Consistent(l)
    ensures Filed(l) && (Swap(l).Some? ==> Consistent(Swap(l).value))
  {
    ConsistentIsFiled(l);
    if Swap(l).Some? {
      var now, held := ActiveLeg(l.legs, l.order).value, HeldLeg(l.legs, l.order).value;
      LegClearedKeeps(l, now, l.legs[now].(held := true, marks := {}));
      var l1 := Park(l, now);
      LegEditKeeps(l1, held, l1.legs[held].(held := false));
      ReorderKeeps(SetHeld(l1, held, false), held);
      var s := SetHeld(l1, held, false).(order := Without(l.order, held) + [held]);
      SetStateKeeps(s, now, Held);
      SetStateKeeps(SetState(s, now, Held), held, Active);
    }
  }

  lemma RedirectKeeps(l: Line, id: CallId)
    requires Consistent(l) && id in l.legs
    ensures Consistent(Redirect(l, id))
  {
    LegClearedKeeps(l, id, l.legs[id].(redirecting := true, marks := {}));
  }

  lemma RedirectFailedKeeps(l: Line, id: CallId)
    requires Consistent(l)
    ensures Consistent(RedirectFailed(l, id))
  {
    if id in l.legs { LegEditKeeps(l, id, l.legs[id].(redirecting := false)); }
  }

  lemma MarkKeeps(l: Line)
    requires Consistent(l) && Mark(l).Some?
    ensures Consistent(Mark(l).value)
  {
    var l', id := Mark(l).value, ActiveLeg(l.legs, l.order).value;
    assert LegOk(l.legs[id], id, l.calls);
    assert l'.legs.Keys == l.legs.Keys;
    forall x | x in l'.legs ensures LegOk(l'.legs[x], x, l'.calls) { assert LegOk(l.legs[x], x, l.calls); }
    NewMark(l, id);
  }

  lemma NewMark(l: Line, id: CallId)
    requires MarksAgree(l.legs, l.owner, l.nextMark, l.resolved) && id in l.legs
    ensures var m := l.nextMark + 1;
            MarksAgree(l.legs[id := l.legs[id].(marks := l.legs[id].marks + {m})], l.owner[m := id], m, l.resolved)
  {
    var m := l.nextMark + 1;
    var legs', owner' := l.legs[id := l.legs[id].(marks := l.legs[id].marks + {m})], l.owner[m := id];
    forall x ensures MarkOk(legs', owner', l.resolved, x) {
      assert MarkOk(l.legs, l.owner, l.resolved, x);
      assert x != m ==> (IsPending(legs', owner', x) <==> IsPending(l.legs, l.owner, x));
    }
    forall x, k | x in legs' && k in legs'[x].marks ensures k in owner' && owner'[k] == x {
      if x != id || k != m { assert x in l.legs && k in l.legs[x].marks; }
    }
  }

  lemma MarkPlayedKeeps(l: Line, ws: nat, m: nat)
    requires Consistent(l)
    ensures Consistent(MarkPlayed(l, ws, m))
  {
    if MarkPlayed(l, ws, m) != l {
      var id := l.streams[ws];
      assert LegOk(l.legs[id], id, l.calls);
      LegChangeKeeps(l, id, l.legs[id].(marks := l.legs[id].marks - {m}), {m});
      assert multiset({m}) == multiset{m};
    }
  }

  lemma StreamStartKeeps(l: Line, ws: nat, id: CallId)
    requires Consistent(l)
    ensures Filed(l) && Consistent(StreamStart(l, ws, id))
  {
    ConsistentIsFiled(l);
    if id in l.legs {
      LegEditKeeps(l, id, l.legs[id].(ws := Some(ws), redirecting := false));
      var l1 := l.(legs := l.legs[id := l.legs[id].(ws := Some(ws), redirecting := false)]);
      assert Consistent(l1.(streams := l.streams[ws := id]));
      SetStateKeeps(l1.(streams := l.streams[ws := id]), id, Active);
    }
  }

  lemma StatusKeeps(l: Line, id: CallId, status: Status)
    requires Consistent(l) && status != Progress(Ended)
    ensures Filed(l) && Consistent(OnStatus(l, id, status))
  {
    ConsistentIsFiled(l);
    if id in l.legs {
      match status
      case Over(reason) => EndKeeps(l, id, reason);
      case Progress(state) => SetStateKeeps(l, id, state);
      case Unknown =>
    }
  }

  lemma StreamEndKeeps(l: Line, ws: nat)
    requires Consistent(l)
    ensures Consistent(StreamStop(l, ws)) && Consistent(StreamClosed(l, ws))
  {
    if IsStream(l, ws) {
      var id := l.streams[ws];
      EndKeeps(l, id, Remote);
      LegEditKeeps(l, id, l.legs[id].(ws := None));
    }
  }

  lemma HangUpKeeps(l: Line, id: CallId)
    requires Consistent(l)
    ensures Consistent(HangUp(l, id))
  {
    if id in l.legs { LegEditKeeps(l, id, l.legs[id].(hungUp := true)); }
  }

  lemma MergeBeginKeeps(l: Line)
    requires Consistent(l)
    ensures MergeBegin(l).Some? ==> Consistent(MergeBegin(l).value)
  {
    if MergeBegin(l).Some? { RedirectKeeps(l, l.order[0]); }
  }

  lemma MergeRefusedKeeps(l: Line)
    requires Consistent(l) && l.merging != []
    ensures Consistent(MergeReply(l, false))
  {
    RedirectFailedKeeps(l, l.merging[0]);
  }

  /** The reply to a merge's redirect keeps the books exactly when the call it is about is
      still up: otherwise the merge enters an ended call in `calls` again. */
  lemma MergeReplyKeepsIff(l: Line)
    requires Consistent(l) && l.merging != []
    ensures Consistent(MergeReply(l, true)) <==> l.merging[0] in l.legs
  {
    var id := l.merging[0];
    if id in l.legs {
      LegEditKeeps(l, id, l.legs[id].(held := false));
      SetCallKeeps(SetHeld(l, id, false), LineCall(id, Active, true));
      var l' := Merged(l, id).(merging := l.merging[1..]);
      assert Consistent(l');
      if l'.merging != [] && l'.merging[0] in l'.legs { RedirectKeeps(l', l'.merging[0]); }
    } else {
      assert id in MergeReply(l, true).calls && id !in MergeReply(l, true).legs;
    }
  }

  // ---- every run keeps it ----

  datatype Step =
    | DialReply(id: CallId)
    | IncomingCall(id: CallId)
    | HangUpSent(id: CallId)
    | HoldCmd
    | ResumeCmd
    | SwapCmd
    | KeyPressCmd
    | RedirectRefused(id: CallId)
    | MergeCmd
    | MergeAnswer(ok: bool)
    | MarkCmd
    | ClearCmd
    | StatusCallback(id: CallId, status: Status)
    | StreamStarts(ws: nat, id: CallId)
    | StreamStops(ws: nat)
    | StreamCloses(ws: nat)
    | MarkReached(ws: nat, mark: nat)

  /** Twilio never gives two calls the same id, has no "ended" progress status, and answers
      only requests that were made. */
  ghost predicate Possible(l: Line, step: Step)
  {
    && (step.DialReply? || step.IncomingCall? ==> step.id !in l.seen)
    && (step.StatusCallback? ==> step.status != Progress(Ended))
    && (step.MergeAnswer? ==> l.merging != [])
  }

  /** The merge's current redirect is answered while its call is still up. */
  ghost predicate MergeInTime(l: Line, step: Step)
  {
    step == MergeAnswer(true) && l.merging != [] ==> l.merging[0] in l.legs
  }

  function Taken(l: Line, refusedOr: Option<Line>): Line { if refusedOr.Some? then refusedOr.value else l }

  function Next(l: Line, step: Step): Line
    requires Filed(l) && (step.MergeAnswer? ==> l.merging != [])
  {
    match step
    case DialReply(id) => Dialed(l, id)
    case IncomingCall(id) => NewLeg(l, id, Incoming)
    case HangUpSent(id) => HangUp(l, id)
    case HoldCmd => Taken(l, Hold(l))
    case ResumeCmd => Taken(l, Resume(l))
    case SwapCmd => Taken(l, Swap(l))
    case KeyPressCmd => Taken(l, Dtmf(l))
    case RedirectRefused(id) => RedirectFailed(l, id)
    case MergeCmd => Taken(l, MergeBegin(l))
    case MergeAnswer(ok) => MergeReply(l, ok)
    case MarkCmd => Taken(l, Mark(l))
    case ClearCmd => Clear(l)
    case StatusCallback(id, status) => OnStatus(l, id, status)
    case StreamStarts(ws, id) => StreamStart(l, ws, id)
    case StreamStops(ws) => StreamStop(l, ws)
    case StreamCloses(ws) => StreamClosed(l, ws)
    case MarkReached(ws, mark) => MarkPlayed(l, ws, mark)
  }

  /** Any possible step keeps the books, except a merge's reply that comes after its call ended. */
  lemma StepKeepsIff(l: Line, step: Step)
    requires Consistent(l) && Possible(l, step)
    ensures Filed(l) && (Consistent(Next(l, step)) <==> MergeInTime(l, step))
  {
    hide Consistent, NewLeg, HangUp, Hold, Resume, Swap, Redirect, RedirectFailed, MergeBegin, MergeReply;
    hide Mark, OnStatus, StreamStart, StreamStop, StreamClosed, MarkPlayed;
    ConsistentIsFiled(l);
    match step
    case DialReply(id) => NewLegKeeps(l, id, Dialing);
    case IncomingCall(id) => NewLegKeeps(l, id, Incoming);
    case HangUpSent(id) => HangUpKeeps(l, id);
    case HoldCmd => HoldKeeps(l);
    case ResumeCmd => ResumeKeeps(l);
    case SwapCmd => SwapKeeps(l);
    case KeyPressCmd => if Dtmf(l).Some? { RedirectKeeps(l, ActiveLeg(l.legs, l.order).value); }
    case RedirectRefused(id) => RedirectFailedKeeps(l, id);
    case MergeCmd => MergeBeginKeeps(l);
    case MergeAnswer(ok) => MergeReplyKeepsIff(l); MergeRefusedKeeps(l);
    case MarkCmd => if Mark(l).Some? { MarkKeeps(l); }
    case ClearCmd =>
      var now := ActiveLeg(l.legs, l.order);
      if now.Some? { LegClearedKeeps(l, now.value, l.legs[now.value].(marks := {})); }
    case StatusCallback(id, status) => StatusKeeps(l, id, status);
    case StreamStarts(ws, id) => StreamStartKeeps(l, ws, id);
    case StreamStops(ws) => StreamEndKeeps(l, ws);
    case StreamCloses(ws) => StreamEndKeeps(l, ws);
    case MarkReached(ws, mark) => MarkPlayedKeeps(l, ws, mark);
  }

  ghost predicate IsRun(l: Line, steps: seq<Step>, end: Line)
    decreases |steps|
  {
    if steps == [] then end == l
    else Filed(l) && Possible(l, steps[0]) && MergeInTime(l, steps[0]) && IsRun(Next(l, steps[0]), steps[1..], end)
  }

  /** In every run in which no call ends while a merge waits to redirect it. */
  lemma {:induction false} RunKeeps(l: Line, steps: seq<Step>, end: Line)
    requires Consistent(l) && IsRun(l, steps, end)
    ensures Consistent(end)
    decreases |steps|
  {
    if steps != [] {
      StepKeepsIff(l, steps[0]);
      RunKeeps(Next(l, steps[0]), steps[1..], end);
    }
  }

  lemma InitConsistent()
    ensures Consistent(INIT)
  {
    forall m ensures MarkOk(map[], map[], multiset{}, m) { }
  }

  /** From an idle line: the line's two maps agree, every call that is gone had exactly one
      end announced, as its last event, and every mark put on a leg that has ended, is on hold
      or is being redirected has resolved exactly once. */
  lemma RunBookkeeping(steps: seq<Step>, l: Line)
    requires IsRun(INIT, steps, l)
    ensures l.legs.Keys == l.calls.Keys
    ensures forall id :: id in l.legs ==> l.legs[id].call == l.calls[id] && l.calls[id].state != Ended
    ensures forall id :: id in l.seen && id !in l.calls ==>
              exists k :: 0 <= k < |l.events| && l.events[k].CallEnded? && l.events[k].call.id == id
    ensures forall j, k :: 0 <= j < k < |l.events| && l.events[j].CallEnded? ==> l.events[j].call.id != l.events[k].call.id
    ensures forall m :: l.resolved[m] <= 1
    ensures forall m :: m in l.owner && (l.owner[m] in l.legs ==> Silent(l.legs[l.owner[m]])) ==> l.resolved[m] == 1
  {
    InitConsistent();
    RunKeeps(INIT, steps, l);
    forall id | id in l.legs ensures l.legs[id].call == l.calls[id] && l.calls[id].state != Ended {
      assert LegOk(l.legs[id], id, l.calls);
    }
    EventsIndexed(l.events);
    assert forall id :: id in l.seen && id !in l.calls ==> id in EndedIds(l.events);
    forall m ensures l.resolved[m] <= 1 { assert MarkOk(l.legs, l.owner, l.resolved, m); }
    forall m | m in l.owner && (l.owner[m] in l.legs ==> Silent(l.legs[l.owner[m]])) ensures l.resolved[m] == 1 {
      assert MarkOk(l.legs, l.owner, l.resolved, m);
      if l.owner[m] in l.legs { assert LegOk(l.legs[l.owner[m]], l.owner[m], l.calls); }
    }
  }

  predicate Silent(leg: Leg) { leg.held || leg.redirecting }

  lemma {:induction false} EventsIndexed(events: seq<Event>)
    requires EndIsLast(events)
    ensures forall id :: id in EndedIds(events) <==>
              exists k :: 0 <= k < |events| && events[k].CallEnded? && events[k].call.id == id
    ensures forall j, k :: 0 <= j < k < |events| && events[j].CallEnded? ==> events[j].call.id != events[k].call.id
  {
    if events != [] {
      var n := |events| - 1;
      EventsIndexed(events[..n]);
      forall id ensures id in EndedIds(events) <==>
          exists k :: 0 <= k < |events| && events[k].CallEnded? && events[k].call.id == id
      {
        if k :| 0 <= k < n && events[..n][k].CallEnded? && events[..n][k].call.id == id { assert events[k].CallEnded?; }
        if k :| 0 <= k < |events| && events[k].CallEnded? && events[k].call.id == id {
          if k < n { assert events[..n][k].CallEnded?; }
        }
      }
      forall j, k | 0 <= j < k < |events| && events[j].CallEnded? ensures events[j].call.id != events[k].call.id {
        assert events[..n][j] == events[j];
        if k < n { assert events[..n][k] == events[k]; }
      }
    }
  }

  lemma RunFrom(l: Line, step: Step, rest: seq<Step>, end: Line)
    requires Filed(l) && Possible(l, step) && MergeInTime(l, step) && IsRun(Next(l, step), rest, end)
    ensures IsRun(l, [step] + rest, end)
  {
    hide Next, Filed, MergeInTime;
    assert ([step] + rest)[1..] == rest;
  }

  /** A call is dialled, and the line goes on from there. */
  lemma DialRun(l: Line, id: CallId, rest: seq<Step>, end: Line)
    requires Consistent(l) && id !in l.seen && IsRun(Dialed(l, id), rest, end)
    ensures IsRun(l, [DialReply(id)] + rest, end)
  {
    ConsistentIsFiled(l);
    RunFrom(l, DialReply(id), rest, end);
  }

  lemma EndRun(l: Line, id: CallId)
    requires Filed(l) && id in l.legs
    ensures IsRun(l, [StatusCallback(id, Over(Remote))] + [], End(l, id, Remote))
  {
    hide Filed, End;
    assert IsRun(End(l, id, Remote), [], End(l, id, Remote));
    RunFrom(l, StatusCallback(id, Over(Remote)), [], End(l, id, Remote));
  }

  /** Two calls are up; the first one's redirect is under way when it ends. */
  lemma MergeOutlivesCall(up: Line, a: CallId, b: CallId) returns (steps: seq<Step>, l: Line)
    requires Consistent(up) && up.order == [a, b] && up.merging == []
    ensures IsRun(up, steps, l) && l.merging == [a, b] && a !in l.legs
  {
    assert a in up.order;
    assert LegOk(up.legs[a], a, up.calls);
    ConsistentIsFiled(up);
    RedirectKeeps(up, a);
    ConsistentIsFiled(Redirect(up, a));
    var merging := MergeBegin(up).value;
    l := End(merging, a, Remote);
    steps := [MergeCmd] + ([StatusCallback(a, Over(Remote))] + []);
    MergeThenEnds(up, merging, a, l);
  }

  lemma MergeThenEnds(up: Line, merging: Line, a: CallId, l: Line)
    requires Filed(up) && MergeBegin(up) == Some(merging) && Filed(merging) && a in merging.legs && l == End(merging, a, Remote)
    ensures IsRun(up, [MergeCmd] + ([StatusCallback(a, Over(Remote))] + []), l)
  {
    hide Filed, MergeBegin, End;
    EndRun(merging, a);
    RunFrom(up, MergeCmd, [StatusCallback(a, Over(Remote))] + [], l);
  }

  /** A merge that outlives a call: two calls are up, the first one's redirect is under way
      when it ends, and the reply puts the ended call back. */
  lemma MergeCanReviveACall(a: CallId, b: CallId) returns (steps: seq<Step>, l: Line)
    requires a != b
    ensures IsRun(INIT, steps, l) && l.merging != [] && !Consistent(MergeReply(l, true))
  {
    InitConsistent();
    NewLegKeeps(INIT, a, Dialing);
    var one := Dialed(INIT, a);
    NewLegKeeps(one, b, Dialing);
    steps, l := MergeOutlivesCall(Dialed(one, b), a, b);
    DialRun(one, b, steps, l);
    DialRun(INIT, a, [DialReply(b)] + steps, l);
    steps := [DialReply(a)] + ([DialReply(b)] + steps);
    assert a in MergeReply(l, true).calls && a !in MergeReply(l, true).legs;
  }

  // ---- the line itself ----

  lemma ActiveOf(legs: map<CallId, Leg>, order: seq<CallId>, i: nat)
    requires i < |order|
    ensures ActiveLeg(legs, order[..i + 1]) == if OnLine(legs, order[i]) then Some(order[i]) else ActiveLeg(legs, order[..i])
    ensures HeldLeg(legs, order[..i + 1]) == if OnHold(legs, order[i]) then Some(order[i]) else HeldLeg(legs, order[..i])
    ensures forall id :: Without(order[..i + 1], id) == Without(order[..i], id) + if order[i] == id then [] else [order[i]]
  {
    assert order[..i + 1][..i] == order[..i];
  }

  lemma ParkInSteps(l: Line, id: CallId)
    requires id in l.legs
    ensures SetHeld(DropMarks(l, id), id, true) == Park(l, id)
  {
  }

  class TwilioLine {
    var legs: map<CallId, Leg>
    var order: seq<CallId>
    var calls: map<CallId, LineCall>
    var nextMark: nat
    var merging: seq<CallId>
    var streams: map<nat, CallId>
    var events: seq<Event>
    ghost var seen: set<CallId>
    ghost var owner: map<nat, CallId>
    ghost var resolved: multiset<nat>

    ghost function State(): Line
      reads this
    {
      Line(legs, order, calls, nextMark, merging, streams, seen, events, owner, resolved)
    }

    constructor ()
      ensures State() == INIT && Consistent(State())
    {
      legs, order, calls, nextMark, merging, streams, events := map[], [], map[], 0, [], map[], [];
      seen, owner, resolved := {}, map[], multiset{};
      new;
      InitConsistent();
    }

    method Active() returns (r: Option<CallId>)
      ensures r == ActiveLeg(legs, order)
    {
      r := None;
      for i := 0 to |order|
        invariant r == ActiveLeg(legs, order[..i])
      {
        ActiveOf(legs, order, i);
        if order[i] in legs && !legs[order[i]].held && legs[order[i]].call.state != Ended { r := Some(order[i]); }
      }
      assert order[..|order|] == order;
    }

    method NewestHeld() returns (r: Option<CallId>)
      ensures r == HeldLeg(legs, order)
    {
      r := None;
      for i := 0 to |order|
        invariant r == HeldLeg(legs, order[..i])
      {
        ActiveOf(legs, order, i);
        if order[i] in legs && legs[order[i]].held { r := Some(order[i]); }
      }
      assert order[..|order|] == order;
    }

    /** Takes an id out of the map's order. */
    method RemoveFromOrder(id: CallId)
      modifies this`order
      ensures order == Without(old(order), id)
    {
      var kept := [];
      var n := |order|;
      for i := 0 to n
        invariant order == old(order) && kept == Without(order[..i], id)
      {
        ActiveOf(legs, order, i);
        if order[i] != id { kept := kept + [order[i]]; }
      }
      assert order[..|order|] == order;
      order := kept;
    }

    method AddLeg(id: CallId, state: CallState)
      modifies this
      ensures State() == NewLeg(old(State()), id, state)
    {
      var call := LineCall(id, state, false);
      if id !in legs { order := order + [id]; }
      legs := legs[id := Leg(call, None, false, false, false, {})];
      calls := calls[id := call];
      seen := seen + {id};
      events := events + [if state == Incoming then Ringing(call) else StateChanged(call)];
    }

    method ChangeState(id: CallId, state: CallState)
      requires id in legs && legs[id].call.id == id
      modifies this
      ensures State() == SetState(old(State()), id, state)
    {
      if legs[id].call.state == state || legs[id].call.state == Ended { return; }
      var call := legs[id].call.(state := state);
      legs := legs[id := legs[id].(call := call)];
      calls := calls[id := call];
      events := events + [StateChanged(call)];
    }

    method ResolveMarks(id: CallId)
      requires id in legs
      modifies this
      ensures State() == DropMarks(old(State()), id)
    {
      resolved := resolved + multiset(legs[id].marks);
      legs := legs[id := legs[id].(marks := {})];
    }

    method SetHold(id: CallId, held: bool)
      requires id in legs
      modifies this
      ensures State() == SetHeld(old(State()), id, held)
    {
      legs := legs[id := legs[id].(held := held)];
    }

    method CallOver(id: CallId, reason: Reason)
      requires id in legs
      modifies this
      ensures State() == End(old(State()), id, reason)
    {
      var leg := legs[id];
      if leg.call.state == Ended { return; }
      calls := calls - {id};
      legs := legs - {id};
      RemoveFromOrder(id);
      resolved := resolved + multiset(leg.marks);
      events := events + [CallEnded(leg.call.(state := Ended), if leg.hungUp then Local else reason)];
    }

    method HoldActive() returns (ok: bool)
      requires Filed(State())
      modifies this
      ensures ok == Hold(old(State())).Some?
      ensures State() == Taken(old(State()), Hold(old(State())))
    {
      var now := Active();
      if now.None? { return false; }
      ParkInSteps(State(), now.value);
      ResolveMarks(now.value);
      SetHold(now.value, true);
      ChangeState(now.value, Held);
      ok := true;
    }

    method ResumeHeld() returns (ok: bool)
      requires Filed(State())
      modifies this
      ensures ok == Resume(old(State())).Some?
      ensures State() == Taken(old(State()), Resume(old(State())))
    {
      var held := NewestHeld();
      if held.None? { return false; }
      var now := Active();
      if now.Some? { return false; }
      SetHold(held.value, false);
      ChangeState(held.value, CallState.Active);
      ok := true;
    }

    method SwapLegs() returns (ok: bool)
      requires Filed(State())
      modifies this
      ensures ok == Swap(old(State())).Some?
      ensures State() == Taken(old(State()), Swap(old(State())))
    {
      var now := Active();
      var held := NewestHeld();
      if now.None? || held.None? { return false; }
      ParkInSteps(State(), now.value);
      ResolveMarks(now.value);
      SetHold(now.value, true);
      SetHold(held.value, false);
      RemoveFromOrder(held.value);
      order := order + [held.value];
      ChangeState(now.value, Held);
      ChangeState(held.value, CallState.Active);
      ok := true;
    }

    /** Returns whether the mark waits to be played. */
    method PutMark() returns (waits: bool)
      modifies this
      ensures waits == Mark(old(State())).Some?
      ensures State() == Taken(old(State()), Mark(old(State())))
    {
      var now := Active();
      if now.None? || legs[now.value].ws.None? || legs[now.value].redirecting { return false; }
      nextMark := nextMark + 1;
      legs := legs[now.value := legs[now.value].(marks := legs[now.value].marks + {nextMark})];
      owner := owner[nextMark := now.value];
      waits := true;
    }

    method ClearAudio()
      modifies this
      ensures State() == Clear(old(State()))
    {
      var now := Active();
      if now.Some? { ResolveMarks(now.value); }
    }

    method StartRedirect(id: CallId)
      requires id in legs
      modifies this
      ensures State() == Redirect(old(State()), id)
    {
      legs := legs[id := legs[id].(redirecting := true)];
      ResolveMarks(id);
    }

    method StartMerge() returns (ok: bool)
      modifies this
      ensures ok == MergeBegin(old(State())).Some?
      ensures State() == Taken(old(State()), MergeBegin(old(State())))
    {
      if |order| != 2 || order[0] !in legs || merging != [] { return false; }
      StartRedirect(order[0]);
      merging := order;
      ok := true;
    }

    method EnterConference(id: CallId)
      modifies this
      ensures State() == Merged(old(State()), id)
    {
      var call := LineCall(id, CallState.Active, true);
      if id in legs {
        SetHold(id, false);
        legs := legs[id := legs[id].(call := call)];
      }
      calls := calls[id := call];
      events := events + [StateChanged(call)];
    }

    /** The next leg of a merge, when Twilio has answered the redirect it waited for. */
    method ContinueMerge(answered: bool)
      requires merging != []
      modifies this
      ensures State() == MergeReply(old(State()), answered)
    {
      var id := merging[0];
      if !answered {
        if id in legs { legs := legs[id := legs[id].(redirecting := false)]; }
        merging := [];
        return;
      }
      EnterConference(id);
      merging := merging[1..];
      if merging != [] && merging[0] in legs { StartRedirect(merging[0]); }
    }

    method StatusReport(id: CallId, status: Status)
      requires Filed(State())
      modifies this
      ensures State() == OnStatus(old(State()), id, status)
    {
      if id !in legs { return; }
      match status {
        case Over(reason) => CallOver(id, reason);
        case Progress(state) => if !(state == CallState.Active && legs[id].held) { ChangeState(id, state); }
        case Unknown =>
      }
    }

    method OnStreamStart(ws: nat, id: CallId)
      requires Filed(State())
      modifies this
      ensures State() == StreamStart(old(State()), ws, id)
    {
      if id !in legs {
        streams := streams - {ws};
        return;
      }
      streams := streams[ws := id];
      legs := legs[id := legs[id].(ws := Some(ws), redirecting := false)];
      if !legs[id].held && legs[id].call.state != CallState.Active { ChangeState(id, CallState.Active); }
    }

    method OnStreamStop(ws: nat)
      modifies this
      ensures State() == StreamStop(old(State()), ws)
    {
      if ws in streams && streams[ws] in legs && legs[streams[ws]].ws == Some(ws)
         && !legs[streams[ws]].redirecting && !legs[streams[ws]].call.conference {
        CallOver(streams[ws], Remote);
      }
    }

    method OnStreamClose(ws: nat)
      modifies this
      ensures State() == StreamClosed(old(State()), ws)
    {
      if ws in streams && streams[ws] in legs && legs[streams[ws]].ws == Some(ws) {
        legs := legs[streams[ws] := legs[streams[ws]].(ws := None)];
      }
    }

    method OnMark(ws: nat, m: nat)
      modifies this
      ensures State() == MarkPlayed(old(State()), ws, m)
    {
      if ws in streams && streams[ws] in legs && m in legs[streams[ws]].marks {
        var id := streams[ws];
        legs := legs[id := legs[id].(marks := legs[id].marks - {m})];
        resolved := resolved + multiset{m};
      }
    }
  }
}
