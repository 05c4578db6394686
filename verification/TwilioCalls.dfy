/** What the commands and events of a Twilio line mean to one of its calls, told from what
    happened to it and not from the line's fields. */
module TwilioCalls {
  import opened Wrappers
  import opened Twilio

  // ---- what listeners are told ----

  /** What a listener that knew `calls` knows after one more announcement. */
  function Learned(calls: map<CallId, LineCall>, e: Event): map<CallId, LineCall>
  {
    if e.CallEnded? then calls - {e.call.id} else calls[e.call.id := e.call]
  }

  /** The calls that are up, put together from the announcements alone. */
  function Told(events: seq<Event>): map<CallId, LineCall>
  {
    if events == [] then map[] else Learned(Told(events[..|events| - 1]), events[|events| - 1])
  }

  ghost predicate IsTold(l: Line) { l.calls == Told(l.events) }

  lemma ToldNext(events: seq<Event>, e: Event)
    ensures Told(events + [e]) == Learned(Told(events), e)
  {
    assert (events + [e])[..|events|] == events;
  }

  lemma SetStateTold(l: Line, id: CallId, state: CallState)
    requires Filed(l) && IsTold(l) && id in l.legs
    ensures IsTold(SetState(l, id, state)) && Filed(SetState(l, id, state))
  {
    ToldNext(l.events, StateChanged(l.legs[id].call.(state := state)));
  }

  /** The steps that announce nothing. */
  predicate IsQuiet(step: Step)
  {
    step.HangUpSent? || step.KeyPressCmd? || step.RedirectRefused? || step.MergeCmd? || step.MarkCmd? || step.ClearCmd?
    || step.StreamCloses? || step.MarkReached? || step == MergeAnswer(false)
  }

  lemma QuietTold(l: Line, step: Step)
    requires Filed(l) && IsTold(l) && (step.MergeAnswer? ==> l.merging != []) && IsQuiet(step)
    ensures IsTold(Next(l, step)) && Filed(Next(l, step))
  {
    hide Told, ActiveLeg;
  }

  lemma StepTold(l: Line, step: Step)
    requires Filed(l) && IsTold(l) && (step.MergeAnswer? ==> l.merging != [])
    ensures IsTold(Next(l, step)) && Filed(Next(l, step))
  {
    hide Told, ActiveLeg, IsTold, Filed, Hold, Resume, Swap, OnStatus, StreamStart, End, NewLeg, MergeReply;
    if IsQuiet(step) {
      QuietTold(l, step);
    } else {
      match step
      case DialReply(id) => NewTold(l, id, Dialing);
      case IncomingCall(id) => NewTold(l, id, Incoming);
      case HoldCmd => HoldTold(l);
      case ResumeCmd => ResumeTold(l);
      case SwapCmd => SwapTold(l);
      case MergeAnswer(ok) => MergedTold(l);
      case StatusCallback(id, status) => StatusTold(l, id, status);
      case StreamStarts(ws, id) => StartTold(l, ws, id);
      case StreamStops(ws) => if IsStream(l, ws) { EndTold(l, l.streams[ws], Remote); }
    }
  }

  lemma NewTold(l: Line, id: CallId, state: CallState)
    requires Filed(l) && IsTold(l)
    ensures IsTold(NewLeg(l, id, state)) && Filed(NewLeg(l, id, state))
  {
    var call := LineCall(id, state, false);
    ToldNext(l.events, if state == Incoming then Ringing(call) else StateChanged(call));
  }

  lemma MergedTold(l: Line)
    requires Filed(l) && IsTold(l) && l.merging != []
    ensures IsTold(MergeReply(l, true)) && Filed(MergeReply(l, true))
  {
    hide Told;
    var id := l.merging[0];
    ToldNext(l.events, StateChanged(LineCall(id, Active, true)));
    var l' := Merged(l, id);
    assert IsTold(l') && Filed(l');
    hide Merged, IsTold;
    RedirectTold(l'.(merging := l.merging[1..]));
  }

  lemma RedirectTold(l: Line)
    requires Filed(l)
    ensures l.merging != [] && l.merging[0] in l.legs ==>
              var l' := Redirect(l, l.merging[0]); Filed(l') && l'.calls == l.calls && l'.events == l.events
  {
  }

  lemma HoldTold(l: Line)
    requires Filed(l) && IsTold(l)
    ensures IsTold(Taken(l, Hold(l))) && Filed(Taken(l, Hold(l)))
  {
    hide SetState, Told;
    var now := ActiveLeg(l.legs, l.order);
    if now.Some? { SetStateTold(Park(l, now.value), now.value, Held); }
  }

  lemma ResumeTold(l: Line)
    requires Filed(l) && IsTold(l)
    ensures IsTold(Taken(l, Resume(l))) && Filed(Taken(l, Resume(l)))
  {
    hide SetState, Told;
    var held := HeldLeg(l.legs, l.order);
    if held.Some? { SetStateTold(SetHeld(l, held.value, false), held.value, Active); }
  }

  lemma SwapTold(l: Line)
    requires Filed(l) && IsTold(l)
    ensures IsTold(Taken(l, Swap(l))) && Filed(Taken(l, Swap(l)))
  {
    hide Told, Without;
    var now, held := ActiveLeg(l.legs, l.order), HeldLeg(l.legs, l.order);
    if now.Some? && held.Some? {
      var s := SetHeld(Park(l, now.value), held.value, false).(order := Without(l.order, held.value) + [held.value]);
      SetStateTold(s, now.value, Held);
      SetStateTold(SetState(s, now.value, Held), held.value, Active);
    }
  }

  lemma EndTold(l: Line, id: CallId, reason: Reason)
    requires Filed(l) && IsTold(l) && id in l.legs
    ensures IsTold(End(l, id, reason)) && Filed(End(l, id, reason))
  {
    hide Told;
    var leg := l.legs[id];
    ToldNext(l.events, CallEnded(leg.call.(state := Ended), if leg.hungUp then Local else reason));
  }

  lemma StatusTold(l: Line, id: CallId, status: Status)
    requires Filed(l) && IsTold(l)
    ensures IsTold(OnStatus(l, id, status)) && Filed(OnStatus(l, id, status))
  {
    if id in l.legs {
      match status
      case Over(reason) => EndTold(l, id, reason);
      case Progress(state) => SetStateTold(l, id, state);
      case Unknown =>
    }
  }

  lemma StartTold(l: Line, ws: nat, id: CallId)
    requires Filed(l) && IsTold(l)
    ensures IsTold(StreamStart(l, ws, id)) && Filed(StreamStart(l, ws, id))
  {
    hide SetState, Told;
    if id in l.legs {
      SetStateTold(l.(streams := l.streams[ws := id],
                      legs := l.legs[id := l.legs[id].(ws := Some(ws), redirecting := false)]), id, Active);
    }
  }

  /** In every run, the calls a line knows are what its listeners make of its announcements. */
  lemma {:induction false} CallsAreTold(l: Line, steps: seq<Step>, end: Line)
    requires Filed(l) && IsTold(l) && IsRun(l, steps, end)
    ensures IsTold(end)
    decreases |steps|
  {
    if steps != [] {
      StepTold(l, steps[0]);
      hide Next, IsTold;
      CallsAreTold(Next(l, steps[0]), steps[1..], end);
    }
  }

  // ---- one call's leg ----

  /** The step replaces a call's stream: a key pressed while it is the newest leg off hold, or a
      merge's turn to move it. */
  ghost predicate ReplacesStream(l: Line, step: Step, id: CallId)
  {
    match step
    case KeyPressCmd => ActiveLeg(l.legs, l.order) == Some(id)
    case MergeCmd => l.merging == [] && |l.order| == 2 && l.order[0] == id
    case MergeAnswer(ok) => ok && |l.merging| > 1 && l.merging[1] == id
    case _ => false
  }

  /** The redirect of a call is over: its new stream is there, or Twilio refused. */
  ghost predicate RedirectEnds(l: Line, step: Step, id: CallId)
  {
    match step
    case StreamStarts(_, call) => call == id
    case RedirectRefused(call) => call == id
    case MergeAnswer(ok) => !ok && l.merging != [] && l.merging[0] == id
    case _ => false
  }

  /** What one step makes of a leg that stays: whether its stream is being replaced, which stream
      it has, whether we hung up, whether it is in a conference. */
  ghost predicate LegMoves(l: Line, step: Step, id: CallId, leg: Leg, leg': Leg)
  {
    && (leg'.redirecting <==> !RedirectEnds(l, step, id) && (leg.redirecting || ReplacesStream(l, step, id)))
    && leg'.ws == (if step.StreamStarts? && step.id == id then Some(step.ws)
                   else if step.StreamCloses? && leg.ws == Some(step.ws) && LastStarted(l, step.ws, id) then None
                   else leg.ws)
    && (leg'.hungUp <==> leg.hungUp || step == HangUpSent(id))
    && (leg'.call.conference <==> leg.call.conference || (step == MergeAnswer(true) && l.merging != [] && l.merging[0] == id))
  }

  /** The last call that a socket announced. */
  predicate LastStarted(l: Line, ws: nat, id: CallId) { ws in l.streams && l.streams[ws] == id }

  /** The step ends a call: Twilio says it is over, or its stream stops, and is not being
      replaced, nor is the call in a conference. */
  ghost predicate Ends(l: Line, step: Step, id: CallId)
    requires id in l.legs
  {
    match step
    case StatusCallback(call, status) => call == id && status.Over?
    case StreamStops(ws) =>
      LastStarted(l, ws, id) && l.legs[id].ws == Some(ws) && !l.legs[id].redirecting && !l.legs[id].call.conference
    case _ => false
  }

  ghost predicate LegGoesOn(l: Line, step: Step, l': Line, id: CallId)
    requires id in l.legs
  {
    && (id in l'.legs <==> !Ends(l, step, id))
    && (id in l'.legs ==> LegMoves(l, step, id, l.legs[id], l'.legs[id]))
  }

  /** Stream, redirect, hang-up and conference are as they were. */
  ghost predicate SameSelf(l: Line, l': Line, id: CallId)
  {
    && id in l.legs && id in l'.legs
    && var leg, leg' := l.legs[id], l'.legs[id];
       && leg.redirecting == leg'.redirecting && leg.ws == leg'.ws && leg.hungUp == leg'.hungUp
       && leg.call.conference == leg'.call.conference && leg.call.id == leg'.call.id
  }

  lemma StateSame(l: Line, id: CallId, state: CallState, x: CallId)
    requires id in l.legs && l.legs[id].call.id == id && x in l.legs
    ensures SameSelf(l, SetState(l, id, state), x)
  {
  }

  lemma HoldSame(l: Line, id: CallId)
    requires Filed(l) && id in l.legs
    ensures SameSelf(l, Taken(l, Hold(l)), id)
  {
    hide SetState, ActiveLeg;
    var now := ActiveLeg(l.legs, l.order);
    if now.Some? { StateSame(Park(l, now.value), now.value, Held, id); }
  }

  lemma ResumeSame(l: Line, id: CallId)
    requires Filed(l) && id in l.legs
    ensures SameSelf(l, Taken(l, Resume(l)), id)
  {
    hide SetState, ActiveLeg, HeldLeg;
    var held := HeldLeg(l.legs, l.order);
    if held.Some? { StateSame(SetHeld(l, held.value, false), held.value, Active, id); }
  }

  lemma SwapSame(l: Line, id: CallId)
    requires Filed(l) && id in l.legs
    ensures SameSelf(l, Taken(l, Swap(l)), id)
  {
    hide SetState, ActiveLeg, HeldLeg, Without;
    var now, held := ActiveLeg(l.legs, l.order), HeldLeg(l.legs, l.order);
    if now.Some? && held.Some? {
      var s := SetHeld(Park(l, now.value), held.value, false).(order := Without(l.order, held.value) + [held.value]);
      StateSame(s, now.value, Held, id);
      StateSame(s, now.value, Held, held.value);
      StateSame(SetState(s, now.value, Held), held.value, Active, id);
    }
  }

  lemma HeldMoves(l: Line, step: Step, id: CallId)
    requires Filed(l) && id in l.legs && (step.HoldCmd? || step.ResumeCmd? || step.SwapCmd?)
    ensures LegGoesOn(l, step, Next(l, step), id)
  {
    hide Hold, Resume, Swap, ActiveLeg;
    HoldSame(l, id);
    ResumeSame(l, id);
    SwapSame(l, id);
    hide Filed;
  }

  lemma StartMoves(l: Line, ws: nat, call: CallId, id: CallId)
    requires Filed(l) && id in l.legs
    ensures LegGoesOn(l, StreamStarts(ws, call), StreamStart(l, ws, call), id)
  {
    hide SetState;
    if call in l.legs {
      var l1 := l.(streams := l.streams[ws := call],
                   legs := l.legs[call := l.legs[call].(ws := Some(ws), redirecting := false)]);
      StateSame(l1, call, Active, id);
    }
  }

  lemma StatusMoves(l: Line, call: CallId, status: Status, id: CallId)
    requires Filed(l) && id in l.legs && l.legs[id].call.state != Ended
    ensures LegGoesOn(l, StatusCallback(call, status), OnStatus(l, call, status), id)
  {
    hide SetState, Without;
    if call in l.legs && status.Progress? { StateSame(l, call, status.state, id); }
  }

  lemma StopMoves(l: Line, ws: nat, id: CallId)
    requires id in l.legs && l.legs[id].call.state != Ended
    ensures LegGoesOn(l, StreamStops(ws), StreamStop(l, ws), id)
  {
    hide Without;
  }

  lemma CloseMoves(l: Line, ws: nat, id: CallId)
    requires id in l.legs
    ensures LegGoesOn(l, StreamCloses(ws), StreamClosed(l, ws), id)
  {
  }

  lemma NewMoves(l: Line, call: CallId, state: CallState, id: CallId)
    requires id in l.legs && call != id
    ensures SameSelf(l, NewLeg(l, call, state), id)
  {
  }

  lemma MarkMoves(l: Line, step: Step, id: CallId)
    requires Filed(l) && id in l.legs && (step.MarkCmd? || step.ClearCmd? || step.MarkReached?)
    ensures SameSelf(l, Next(l, step), id)
  {
    hide ActiveLeg, Filed;
  }

  lemma RedirectMoves(l: Line, step: Step, id: CallId)
    requires Filed(l) && id in l.legs && (step.KeyPressCmd? || step.MergeCmd?)
    ensures LegGoesOn(l, step, Next(l, step), id)
  {
    hide ActiveLeg, Filed;
  }

  lemma ReplyMoves(l: Line, step: Step, id: CallId)
    requires Filed(l) && id in l.legs && (step.RedirectRefused? || step.HangUpSent?)
    ensures LegGoesOn(l, step, Next(l, step), id)
  {
    hide Filed;
  }

  lemma MergeRefusedMoves(l: Line, id: CallId)
    requires id in l.legs && l.merging != []
    ensures LegGoesOn(l, MergeAnswer(false), MergeReply(l, false), id)
  {
    hide Redirect, Merged;
  }

  lemma MergedMoves(l: Line, id: CallId)
    requires id in l.legs && l.merging != []
    ensures LegGoesOn(l, MergeAnswer(true), MergeReply(l, true), id)
  {
    hide RedirectFailed;
  }

  /** Every step does to every leg just what is said above: only its call's end or the stop of
      the stream it has, not being replaced and outside a conference, takes it away. */
  lemma EveryLegMoves(l: Line, step: Step, id: CallId)
    requires Consistent(l) && Possible(l, step) && id in l.legs
    ensures Filed(l) && LegGoesOn(l, step, Next(l, step), id)
  {
    LegFacts(l, id);
    hide Consistent, Next, LegGoesOn, Filed, SameSelf;
    if step.HoldCmd? || step.ResumeCmd? || step.SwapCmd? {
      HeldMoves(l, step, id);
    } else if step.KeyPressCmd? || step.MergeCmd? {
      RedirectMoves(l, step, id);
    } else if step.RedirectRefused? || step.HangUpSent? {
      ReplyMoves(l, step, id);
    } else if step.StreamStarts? || step.StreamStops? || step.StreamCloses? || step.StatusCallback? {
      ReportMoves(l, step, id);
    } else {
      RestMoves(l, step, id);
    }
  }

  lemma ReportMoves(l: Line, step: Step, id: CallId)
    requires Filed(l) && id in l.legs && l.legs[id].call.state != Ended
    requires step.StreamStarts? || step.StreamStops? || step.StreamCloses? || step.StatusCallback?
    ensures LegGoesOn(l, step, Next(l, step), id)
  {
    Reads(l, step);
    hide Next, LegGoesOn, Filed;
    match step
    case StreamStarts(ws, call) => StartMoves(l, ws, call, id);
    case StreamStops(ws) => StopMoves(l, ws, id);
    case StreamCloses(ws) => CloseMoves(l, ws, id);
    case StatusCallback(call, status) => StatusMoves(l, call, status, id);
  }

  lemma RestMoves(l: Line, step: Step, id: CallId)
    requires Filed(l) && id in l.legs && id in l.seen && Possible(l, step)
    requires step.DialReply? || step.IncomingCall? || step.MarkCmd? || step.ClearCmd? || step.MarkReached? || step.MergeAnswer?
    ensures LegGoesOn(l, step, Next(l, step), id)
  {
    Reads(l, step);
    hide Next, LegGoesOn, Filed, SameSelf;
    if step.MergeAnswer? {
      MergeRefusedMoves(l, id);
      MergedMoves(l, id);
    } else if step.DialReply? || step.IncomingCall? {
      NewMoves(l, step.id, if step.DialReply? then Dialing else Incoming, id);
      Unmoved(l, step, Next(l, step), id);
    } else {
      MarkMoves(l, step, id);
      Unmoved(l, step, Next(l, step), id);
    }
  }

  lemma LegFacts(l: Line, id: CallId)
    requires Consistent(l) && id in l.legs
    ensures Filed(l) && id in l.seen && l.legs[id].call.state != Ended
  {
    ConsistentIsFiled(l);
    assert LegOk(l.legs[id], id, l.calls);
    assert id in l.calls && id in l.seen;
  }

  lemma Reads(l: Line, step: Step)
    requires Filed(l) && (step.MergeAnswer? ==> l.merging != [])
    ensures step.DialReply? ==> Next(l, step) == NewLeg(l, step.id, Dialing)
    ensures step.IncomingCall? ==> Next(l, step) == NewLeg(l, step.id, Incoming)
    ensures step.MergeAnswer? ==> Next(l, step) == MergeReply(l, step.ok)
    ensures step.StreamStarts? ==> Next(l, step) == StreamStart(l, step.ws, step.id)
    ensures step.StreamStops? ==> Next(l, step) == StreamStop(l, step.ws)
    ensures step.StreamCloses? ==> Next(l, step) == StreamClosed(l, step.ws)
    ensures step.StatusCallback? ==> Next(l, step) == OnStatus(l, step.id, step.status)
  {
    hide Filed, NewLeg, MergeReply, StreamStart, StreamStop, StreamClosed, OnStatus;
  }

  lemma Unmoved(l: Line, step: Step, l': Line, id: CallId)
    requires id in l.legs && SameSelf(l, l', id)
    requires step.DialReply? || step.IncomingCall? || step.MarkCmd? || step.ClearCmd? || step.MarkReached?
    ensures LegGoesOn(l, step, l', id)
  {
  }

  // ---- hold, state and marks ----

  /** The newest leg off hold: no later one in the line's order is off hold. */
  ghost predicate NewestOff(l: Line, id: CallId)
  {
    exists i :: 0 <= i < |l.order| && l.order[i] == id && OnLine(l.legs, id)
                && forall j :: i < j < |l.order| ==> !OnLine(l.legs, l.order[j])
  }

  ghost predicate NewestHeld(l: Line, id: CallId)
  {
    exists i :: 0 <= i < |l.order| && l.order[i] == id && OnHold(l.legs, id)
                && forall j :: i < j < |l.order| ==> !OnHold(l.legs, l.order[j])
  }

  lemma {:induction false} ActiveIsNewest(l: Line, id: CallId)
    ensures ActiveLeg(l.legs, l.order) == Some(id) <==> NewestOff(l, id)
    decreases |l.order|
  {
    if l.order != [] {
      var n := |l.order| - 1;
      ActiveIsNewest(l.(order := l.order[..n]), id);
      if OnLine(l.legs, l.order[n]) {
        assert l.order[n] == l.order[n];
      } else {
        SkipsLast(l, id);
      }
    }
  }

  lemma SkipsLast(l: Line, id: CallId)
    requires l.order != [] && !OnLine(l.legs, l.order[|l.order| - 1])
    ensures NewestOff(l.(order := l.order[..|l.order| - 1]), id) <==> NewestOff(l, id)
  {
    var n := |l.order| - 1;
    var before := l.order[..n];
    if NewestOff(l.(order := before), id) {
      var i :| 0 <= i < n && before[i] == id && forall j :: i < j < n ==> !OnLine(l.legs, before[j]);
      forall j | i < j < |l.order| ensures !OnLine(l.legs, l.order[j]) { if j < n { assert l.order[j] == before[j]; } }
      assert l.order[i] == id;
    }
    if NewestOff(l, id) {
      var i :| 0 <= i < |l.order| && l.order[i] == id && forall j :: i < j < |l.order| ==> !OnLine(l.legs, l.order[j]);
      assert before[i] == id;
      forall j | i < j < n ensures !OnLine(l.legs, before[j]) { assert before[j] == l.order[j]; }
    }
  }

  lemma {:induction false} HeldIsNewest(l: Line, id: CallId)
    ensures HeldLeg(l.legs, l.order) == Some(id) <==> NewestHeld(l, id)
    decreases |l.order|
  {
    if l.order != [] {
      var n := |l.order| - 1;
      HeldIsNewest(l.(order := l.order[..n]), id);
      if OnHold(l.legs, l.order[n]) {
        assert l.order[n] == l.order[n];
      } else {
        SkipsLastHeld(l, id);
      }
    }
  }

  lemma SkipsLastHeld(l: Line, id: CallId)
    requires l.order != [] && !OnHold(l.legs, l.order[|l.order| - 1])
    ensures NewestHeld(l.(order := l.order[..|l.order| - 1]), id) <==> NewestHeld(l, id)
  {
    var n := |l.order| - 1;
    var before := l.order[..n];
    if NewestHeld(l.(order := before), id) {
      var i :| 0 <= i < n && before[i] == id && forall j :: i < j < n ==> !OnHold(l.legs, before[j]);
      forall j | i < j < |l.order| ensures !OnHold(l.legs, l.order[j]) { if j < n { assert l.order[j] == before[j]; } }
      assert l.order[i] == id;
    }
    if NewestHeld(l, id) {
      var i :| 0 <= i < |l.order| && l.order[i] == id && forall j :: i < j < |l.order| ==> !OnHold(l.legs, l.order[j]);
      assert before[i] == id;
      forall j | i < j < n ensures !OnHold(l.legs, before[j]) { assert before[j] == l.order[j]; }
    }
  }

  /** The leg goes on hold: told to, or swapped for one that is on hold. */
  ghost predicate GoesOnHold(l: Line, step: Step, id: CallId)
  {
    NewestOff(l, id) && (step.HoldCmd? || (step.SwapCmd? && exists x :: NewestHeld(l, x)))
  }

  /** The leg comes off hold: told to while no leg is off hold, or swapped in. */
  ghost predicate ComesOffHold(l: Line, step: Step, id: CallId)
  {
    && NewestHeld(l, id)
    && ((step.ResumeCmd? && forall x :: !NewestOff(l, x)) || (step.SwapCmd? && exists x :: NewestOff(l, x)))
  }

  ghost predicate IsMerged(l: Line, step: Step, id: CallId) { step == MergeAnswer(true) && l.merging != [] && l.merging[0] == id }

  /** What one step makes of a leg that stays: whether it is on hold, the state of its call, and
      the marks it waits for. Being told that its call is in progress, or getting a stream, makes
      a leg active unless it is on hold. */
  ghost predicate LegFares(l: Line, step: Step, id: CallId, leg: Leg, leg': Leg)
  {
    && (leg'.held <==> GoesOnHold(l, step, id) || (leg.held && !ComesOffHold(l, step, id) && !IsMerged(l, step, id)))
    && leg'.call.state == (if GoesOnHold(l, step, id) then Held
                           else if ComesOffHold(l, step, id) || IsMerged(l, step, id) then Active
                           else if step.StatusCallback? && step.id == id && step.status.Progress? && !(step.status.state == Active && leg.held)
                           then step.status.state
                           else if step.StreamStarts? && step.id == id && !leg.held then Active
                           else leg.call.state)
    && leg'.marks == (if GoesOnHold(l, step, id) || ReplacesStream(l, step, id) || (step.ClearCmd? && NewestOff(l, id)) then {}
                      else if step.MarkCmd? && NewestOff(l, id) && leg.ws.Some? && !leg.redirecting then leg.marks + {l.nextMark + 1}
                      else if step.MarkReached? && LastStarted(l, step.ws, id) then leg.marks - {step.mark}
                      else leg.marks)
  }

  ghost predicate LegFaresOn(l: Line, step: Step, l': Line, id: CallId)
    requires id in l.legs
  {
    id in l'.legs ==> LegFares(l, step, id, l.legs[id], l'.legs[id])
  }

  /** Changing one call's state changes that, and of the others nothing. */
  lemma StateSet(l: Line, id: CallId, state: CallState, x: CallId)
    requires id in l.legs && l.legs[id].call.id == id && l.legs[id].call.state != Ended && x in l.legs
    ensures var l' := SetState(l, id, state);
            && x in l'.legs && l'.legs[x].held == l.legs[x].held && l'.legs[x].marks == l.legs[x].marks
            && l'.legs[x].call.state == (if x == id then state else l.legs[x].call.state)
            && l'.legs[x].call.id == l.legs[x].call.id
  {
  }

  ghost predicate AllUp(l: Line) { forall x :: x in l.legs ==> l.legs[x].call.state != Ended }

  lemma NewestAre(l: Line)
    ensures forall x :: ActiveLeg(l.legs, l.order) == Some(x) <==> NewestOff(l, x)
    ensures forall x :: HeldLeg(l.legs, l.order) == Some(x) <==> NewestHeld(l, x)
  {
    forall x ensures ActiveLeg(l.legs, l.order) == Some(x) <==> NewestOff(l, x) { ActiveIsNewest(l, x); }
    forall x ensures HeldLeg(l.legs, l.order) == Some(x) <==> NewestHeld(l, x) { HeldIsNewest(l, x); }
  }

  lemma HoldFares(l: Line, id: CallId)
    requires Filed(l) && AllUp(l) && id in l.legs
    ensures LegFaresOn(l, HoldCmd, Taken(l, Hold(l)), id)
  {
    NewestAre(l);
    hide ActiveLeg, HeldLeg, SetState, NewestOff, NewestHeld;
    var now := ActiveLeg(l.legs, l.order);
    if now.Some? { StateSet(Park(l, now.value), now.value, Held, id); }
  }

  lemma ResumeFares(l: Line, id: CallId)
    requires Filed(l) && AllUp(l) && id in l.legs
    ensures LegFaresOn(l, ResumeCmd, Taken(l, Resume(l)), id)
  {
    NewestAre(l);
    hide ActiveLeg, HeldLeg, SetState, NewestOff, NewestHeld;
    var now, held := ActiveLeg(l.legs, l.order), HeldLeg(l.legs, l.order);
    assert now.Some? ==> NewestOff(l, now.value);
    if held.Some? { StateSet(SetHeld(l, held.value, false), held.value, Active, id); }
  }

  lemma SwapFares(l: Line, id: CallId)
    requires Filed(l) && AllUp(l) && id in l.legs
    ensures LegFaresOn(l, SwapCmd, Taken(l, Swap(l)), id)
  {
    NewestAre(l);
    hide ActiveLeg, HeldLeg, SetState, NewestOff, NewestHeld, Without;
    var now, held := ActiveLeg(l.legs, l.order), HeldLeg(l.legs, l.order);
    assert now.Some? ==> NewestOff(l, now.value);
    assert held.Some? ==> NewestHeld(l, held.value);
    if now.Some? && held.Some? {
      var s := SetHeld(Park(l, now.value), held.value, false).(order := Without(l.order, held.value) + [held.value]);
      StateSet(s, now.value, Held, id);
      StateSet(s, now.value, Held, held.value);
      StateSet(SetState(s, now.value, Held), held.value, Active, id);
    }
  }

  lemma RedirectFares(l: Line, step: Step, id: CallId)
    requires Filed(l) && id in l.legs && (step.KeyPressCmd? || step.MergeCmd?)
    ensures LegFaresOn(l, step, Next(l, step), id)
  {
    hide ActiveLeg, Filed, NewestOff, NewestHeld;
  }

  lemma FlagFares(l: Line, step: Step, id: CallId)
    requires Filed(l) && id in l.legs && (step.RedirectRefused? || step.HangUpSent? || step.StreamCloses?)
    ensures LegFaresOn(l, step, Next(l, step), id)
  {
    hide Filed, NewestOff, NewestHeld;
  }

  lemma MarkFares(l: Line, step: Step, id: CallId)
    requires Filed(l) && id in l.legs && (step.MarkCmd? || step.ClearCmd?)
    ensures LegFaresOn(l, step, Next(l, step), id)
  {
    NewestAre(l);
    hide ActiveLeg, HeldLeg, Filed, NewestOff, NewestHeld;
  }

  lemma PlayedFares(l: Line, ws: nat, mark: nat, id: CallId)
    requires id in l.legs
    ensures LegFaresOn(l, MarkReached(ws, mark), MarkPlayed(l, ws, mark), id)
  {
    hide NewestOff, NewestHeld;
  }

  lemma MergeRefusedFares(l: Line, id: CallId)
    requires id in l.legs && l.merging != []
    ensures LegFaresOn(l, MergeAnswer(false), MergeReply(l, false), id)
  {
    hide Redirect, Merged, NewestOff, NewestHeld;
  }

  lemma MergedFares(l: Line, id: CallId)
    requires id in l.legs && l.merging != []
    ensures LegFaresOn(l, MergeAnswer(true), MergeReply(l, true), id)
  {
    hide RedirectFailed, NewestOff, NewestHeld;
  }

  lemma StatusFares(l: Line, call: CallId, status: Status, id: CallId)
    requires Filed(l) && AllUp(l) && id in l.legs
    ensures LegFaresOn(l, StatusCallback(call, status), OnStatus(l, call, status), id)
  {
    hide SetState, Without, NewestOff, NewestHeld;
    if call in l.legs && status.Progress? { StateSet(l, call, status.state, id); }
  }

  lemma StartFares(l: Line, ws: nat, call: CallId, id: CallId)
    requires Filed(l) && AllUp(l) && id in l.legs
    ensures LegFaresOn(l, StreamStarts(ws, call), StreamStart(l, ws, call), id)
  {
    hide SetState, NewestOff, NewestHeld;
    if call in l.legs {
      StateSet(l.(streams := l.streams[ws := call],
                  legs := l.legs[call := l.legs[call].(ws := Some(ws), redirecting := false)]), call, Active, id);
    }
  }

  lemma StopFares(l: Line, ws: nat, id: CallId)
    requires id in l.legs
    ensures LegFaresOn(l, StreamStops(ws), StreamStop(l, ws), id)
  {
    hide Without, NewestOff, NewestHeld;
  }

  lemma NewFares(l: Line, step: Step, id: CallId)
    requires Filed(l) && id in l.legs && (step.DialReply? || step.IncomingCall?) && step.id != id
    ensures LegFaresOn(l, step, Next(l, step), id)
  {
    hide NewestOff, NewestHeld, Filed;
  }

  lemma HeldFares(l: Line, step: Step, id: CallId)
    requires Filed(l) && AllUp(l) && id in l.legs && (step.HoldCmd? || step.ResumeCmd? || step.SwapCmd?)
    ensures LegFaresOn(l, step, Next(l, step), id)
  {
    if step.HoldCmd? { HoldFares(l, id); } else if step.ResumeCmd? { ResumeFares(l, id); } else { SwapFares(l, id); }
    hide LegFaresOn, Filed, Hold, Resume, Swap, Taken;
  }

  lemma ReportFares(l: Line, step: Step, id: CallId)
    requires Filed(l) && AllUp(l) && id in l.legs
    requires step.StreamStarts? || step.StreamStops? || step.StatusCallback? || step.MarkReached? || (step.MergeAnswer? && l.merging != [])
    ensures LegFaresOn(l, step, Next(l, step), id)
  {
    Reads(l, step);
    assert step.MarkReached? ==> Next(l, step) == MarkPlayed(l, step.ws, step.mark);
    hide Next, LegFaresOn, Filed, AllUp;
    if step.MergeAnswer? {
      MergeRefusedFares(l, id);
      MergedFares(l, id);
    } else if step.StreamStarts? {
      StartFares(l, step.ws, step.id, id);
    } else if step.StreamStops? {
      StopFares(l, step.ws, id);
    } else if step.StatusCallback? {
      StatusFares(l, step.id, step.status, id);
    } else {
      PlayedFares(l, step.ws, step.mark, id);
    }
  }

  /** Every step does to a leg's hold, state and marks just what is said above. */
  lemma EveryLegFares(l: Line, step: Step, id: CallId)
    requires Consistent(l) && Possible(l, step) && id in l.legs
    ensures Filed(l) && LegFaresOn(l, step, Next(l, step), id)
  {
    LegFacts(l, id);
    forall x | x in l.legs ensures l.legs[x].call.state != Ended { LegFacts(l, x); }
    hide Consistent, Next, LegFaresOn, Filed;
    if step.HoldCmd? || step.ResumeCmd? || step.SwapCmd? {
      HeldFares(l, step, id);
    } else if step.KeyPressCmd? || step.MergeCmd? {
      RedirectFares(l, step, id);
    } else if step.RedirectRefused? || step.HangUpSent? || step.StreamCloses? {
      FlagFares(l, step, id);
    } else if step.MarkCmd? || step.ClearCmd? {
      MarkFares(l, step, id);
    } else if step.DialReply? || step.IncomingCall? {
      NewFares(l, step, id);
    } else {
      ReportFares(l, step, id);
    }
  }

  /** A merge moves the legs in turn, oldest first, each once the one before it was moved, and is
      given up when one is refused. */
  lemma MergeTurns(l: Line, step: Step)
    requires Filed(l) && (step.MergeAnswer? ==> l.merging != [])
    ensures Next(l, step).merging ==
              if step.MergeCmd? && l.merging == [] && |l.order| == 2 && l.order[0] in l.legs then l.order
              else if step == MergeAnswer(true) then l.merging[1..]
              else if step == MergeAnswer(false) then []
              else l.merging
  {
    hide Filed, ActiveLeg, HeldLeg, Without;
  }

  /** A call begins with a leg off hold, without a stream, in no conference, and is announced:
      ringing if it comes in, or else as a state. */
  lemma NewLegMeans(l: Line, step: Step)
    requires Filed(l) && Possible(l, step) && (step.DialReply? || step.IncomingCall?)
    ensures var l', call := Next(l, step), LineCall(step.id, if step.DialReply? then Dialing else Incoming, false);
            && step.id in l'.legs && l'.legs[step.id] == Leg(call, None, false, false, false, {})
            && l'.events == l.events + [if step.DialReply? then StateChanged(call) else Ringing(call)]
            && (step.id !in l.legs ==> NewestOff(l', step.id))
  {
    hide Filed;
    var l' := Next(l, step);
    if step.id !in l.legs { assert l'.order[|l.order|] == step.id; }
  }

  /** The leg that is swapped in gets the audio. */
  lemma SwappedInIsActive(l: Line, id: CallId)
    requires Consistent(l) && Filed(l) && Swap(l).Some? && NewestHeld(l, id)
    ensures NewestOff(Swap(l).value, id)
  {
    NewestAre(l);
    forall x | x in l.legs ensures l.legs[x].call.state != Ended { LegFacts(l, x); }
    hide Consistent, NewestOff, NewestHeld;
    LastOnLine(l, id);
    SwapOrder(l, id);
    IsLast(Swap(l).value, id);
  }

  lemma IsLast(l: Line, id: CallId)
    requires l.order != [] && l.order[|l.order| - 1] == id && OnLine(l.legs, id)
    ensures NewestOff(l, id)
  {
    assert l.order[|l.order| - 1] == id;
  }

  lemma LastOnLine(l: Line, id: CallId)
    requires Filed(l) && AllUp(l) && Swap(l).Some? && HeldLeg(l.legs, l.order) == Some(id)
    ensures OnLine(Swap(l).value.legs, id)
  {
    hide ActiveLeg, HeldLeg, Without;
  }

  lemma SwapOrder(l: Line, id: CallId)
    requires Filed(l) && Swap(l).Some? && HeldLeg(l.legs, l.order) == Some(id)
    ensures Swap(l).value.order == Without(l.order, id) + [id]
  {
    hide ActiveLeg, HeldLeg, Filed, Without;
  }

  // ---- what ends a call, over whole runs ----

  /** What settles a redirect of a call: the new stream, a refusal, or the call's end. */
  predicate Settles(step: Step, id: CallId)
  {
    match step
    case StreamStarts(_, call) => call == id
    case RedirectRefused(call) => call == id
    case MergeAnswer(ok) => !ok
    case StatusCallback(call, status) => call == id && status.Over?
    case _ => false
  }

  lemma {:induction false} AwaitsThrough(l: Line, steps: seq<Step>, end: Line, id: CallId)
    requires Consistent(l) && IsRun(l, steps, end) && id in l.legs && l.legs[id].redirecting
    requires forall i :: 0 <= i < |steps| ==> !Settles(steps[i], id)
    ensures id in end.legs && end.legs[id].redirecting
    decreases |steps|
  {
    if steps != [] {
      EveryLegMoves(l, steps[0], id);
      StepKeepsIff(l, steps[0]);
      assert !Settles(steps[0], id);
      hide Next, Consistent, Filed;
      AwaitsThrough(Next(l, steps[0]), steps[1..], end, id);
    }
  }

  /** A key press or a merge replaces a call's stream, and the stop of the old one doesn't end
      the call: whatever else happens, it stays up until its new stream has started, the
      redirect was refused, or Twilio says that it is over. */
  lemma RedirectOutlivesStops(l: Line, begin: Step, id: CallId, steps: seq<Step>, end: Line)
    requires Consistent(l) && IsRun(l, [begin] + steps, end) && id in l.legs && ReplacesStream(l, begin, id)
    requires forall i :: 0 <= i < |steps| ==> !Settles(steps[i], id)
    ensures id in end.legs && forall ws :: id in StreamStop(end, ws).legs
  {
    assert ([begin] + steps)[1..] == steps;
    EveryLegMoves(l, begin, id);
    StepKeepsIff(l, begin);
    hide Next, Consistent, Settles, Filed;
    AwaitsThrough(Next(l, begin), steps, end, id);
    hide IsRun;
  }

  /** Nothing in a run touches a call's stream: it isn't replaced, restarted or closed, and the
      call joins no conference. */
  ghost predicate Untouched(l: Line, steps: seq<Step>, id: CallId, ws: nat)
    decreases |steps|
  {
    steps != [] ==>
      var step := steps[0];
      && Filed(l) && Possible(l, step)
      && !ReplacesStream(l, step, id)
      && !(step.StreamStarts? && (step.id == id || step.ws == ws)) && step != StreamCloses(ws)
      && !(step == MergeAnswer(true) && l.merging[0] == id)
      && Untouched(Next(l, step), steps[1..], id, ws)
  }

  /** A call with a stream of its own. */
  ghost predicate Streams(l: Line, id: CallId, ws: nat)
  {
    id in l.legs && l.legs[id].ws == Some(ws) && LastStarted(l, ws, id) && !l.legs[id].redirecting && !l.legs[id].call.conference
  }

  /** No leg comes but a new call's, the calls seen stay seen, and only a start changes what a
      socket announced. */
  ghost predicate Frame(l: Line, step: Step, l': Line)
  {
    && l'.legs.Keys <= l.legs.Keys + (if step.DialReply? || step.IncomingCall? then {step.id} else {})
    && l.seen <= l'.seen
    && (!step.StreamStarts? ==> l'.streams == l.streams)
  }

  lemma StateFrame(l: Line, id: CallId, state: CallState)
    requires id in l.legs && l.legs[id].call.id == id
    ensures var l' := SetState(l, id, state); l'.legs.Keys == l.legs.Keys && l'.seen == l.seen && l'.streams == l.streams
  {
  }

  lemma HeldFrame(l: Line, step: Step)
    requires Filed(l) && (step.HoldCmd? || step.ResumeCmd? || step.SwapCmd?)
    ensures Frame(l, step, Next(l, step))
  {
    hide SetState, ActiveLeg, HeldLeg;
    var now, held := ActiveLeg(l.legs, l.order), HeldLeg(l.legs, l.order);
    if step.HoldCmd? && now.Some? { StateFrame(Park(l, now.value), now.value, Held); }
    if step.ResumeCmd? && held.Some? { StateFrame(SetHeld(l, held.value, false), held.value, Active); }
    if step.SwapCmd? { SwapFrame(l); }
    hide Filed, Swap;
  }

  lemma SwapFrame(l: Line)
    requires Filed(l)
    ensures Frame(l, SwapCmd, Taken(l, Swap(l)))
  {
    hide SetState, ActiveLeg, HeldLeg, Without;
    var now, held := ActiveLeg(l.legs, l.order), HeldLeg(l.legs, l.order);
    if now.Some? && held.Some? {
      var s := SetHeld(Park(l, now.value), held.value, false).(order := Without(l.order, held.value) + [held.value]);
      StateFrame(s, now.value, Held);
      StateSame(s, now.value, Held, held.value);
      StateFrame(SetState(s, now.value, Held), held.value, Active);
    }
  }

  lemma ReportFrame(l: Line, step: Step)
    requires Filed(l) && (step.StatusCallback? || step.StreamStarts? || step.StreamStops? || step.StreamCloses?)
    ensures Frame(l, step, Next(l, step))
  {
    hide SetState, Without;
    if step.StatusCallback? {
      if step.id in l.legs && step.status.Progress? { StateFrame(l, step.id, step.status.state); }
    } else if step.StreamStarts? {
      if step.id in l.legs {
        StateFrame(l.(streams := l.streams[step.ws := step.id],
                      legs := l.legs[step.id := l.legs[step.id].(ws := Some(step.ws), redirecting := false)]), step.id, Active);
      }
    }
    hide Filed;
  }

  lemma EveryFrame(l: Line, step: Step)
    requires Filed(l) && (step.MergeAnswer? ==> l.merging != [])
    ensures Frame(l, step, Next(l, step))
  {
    if step.HoldCmd? || step.ResumeCmd? || step.SwapCmd? {
      HeldFrame(l, step);
    } else if step.StatusCallback? || step.StreamStarts? || step.StreamStops? || step.StreamCloses? {
      ReportFrame(l, step);
    } else if step.MergeAnswer? {
      MergeFrame(l, step.ok);
      Reads(l, step);
    } else if step.DialReply? || step.IncomingCall? {
      Reads(l, step);
      hide Next, Filed;
    } else if step.MarkCmd? || step.ClearCmd? || step.MarkReached? {
      MarkFrame(l, step);
    } else {
      LegFrame(l, step);
    }
  }

  lemma MergeFrame(l: Line, ok: bool)
    requires l.merging != []
    ensures Frame(l, MergeAnswer(ok), MergeReply(l, ok))
  {
    if ok {
      var l' := Merged(l, l.merging[0]).(merging := l.merging[1..]);
      assert l'.legs.Keys == l.legs.Keys && l'.seen == l.seen && l'.streams == l.streams;
      hide Merged;
      if l'.merging != [] && l'.merging[0] in l'.legs {
        assert Redirect(l', l'.merging[0]).legs.Keys == l'.legs.Keys;
      }
    } else {
      assert RedirectFailed(l, l.merging[0]).legs.Keys == l.legs.Keys;
    }
  }

  lemma LegFrame(l: Line, step: Step)
    requires Filed(l)
    requires step.HangUpSent? || step.KeyPressCmd? || step.RedirectRefused? || step.MergeCmd?
    ensures Frame(l, step, Next(l, step))
  {
    hide ActiveLeg, Filed;
  }

  lemma MarkFrame(l: Line, step: Step)
    requires Filed(l) && (step.MarkCmd? || step.ClearCmd? || step.MarkReached?)
    ensures Frame(l, step, Next(l, step))
  {
    hide ActiveLeg, Filed;
  }

  lemma StreamsOn(l: Line, step: Step, id: CallId, ws: nat)
    requires Consistent(l) && Possible(l, step) && Streams(l, id, ws)
    requires !ReplacesStream(l, step, id) && !(step.StreamStarts? && (step.id == id || step.ws == ws)) && step != StreamCloses(ws)
    requires !(step == MergeAnswer(true) && l.merging[0] == id)
    ensures Filed(l) && (id in Next(l, step).legs ==> Streams(Next(l, step), id, ws))
  {
    EveryLegMoves(l, step, id);
    hide Consistent;
    StillStarted(l, step, id, ws);
    hide Next, Filed;
  }

  lemma StillStarted(l: Line, step: Step, id: CallId, ws: nat)
    requires Filed(l) && (step.MergeAnswer? ==> l.merging != []) && LastStarted(l, ws, id) && !(step.StreamStarts? && step.ws == ws)
    ensures LastStarted(Next(l, step), ws, id)
  {
    EveryFrame(l, step);
    if step.StreamStarts? { OtherSocket(l, step.ws, step.id, ws); Reads(l, step); }
    hide Next, Filed;
  }

  /** A call that was up is never on the line again once it is gone. */
  lemma GoneForGood(l: Line, step: Step, id: CallId)
    requires Filed(l) && Possible(l, step) && id in l.seen && id !in l.legs
    ensures id in Next(l, step).seen && id !in Next(l, step).legs
  {
    EveryFrame(l, step);
    hide Next, Filed;
  }

  lemma {:induction false} GoneThrough(l: Line, steps: seq<Step>, end: Line, id: CallId)
    requires IsRun(l, steps, end) && id in l.seen && id !in l.legs
    ensures id !in end.legs
    decreases |steps|
  {
    if steps != [] {
      GoneForGood(l, steps[0], id);
      hide Next;
      GoneThrough(Next(l, steps[0]), steps[1..], end, id);
    }
  }

  lemma {:induction false} StreamsThrough(l: Line, steps: seq<Step>, end: Line, id: CallId, ws: nat)
    requires Consistent(l) && IsRun(l, steps, end) && Untouched(l, steps, id, ws) && Streams(l, id, ws) && id in end.legs
    ensures Streams(end, id, ws) && Consistent(end)
    ensures end.legs[id].hungUp <==> l.legs[id].hungUp || HangUpSent(id) in steps
    decreases |steps|
  {
    if steps != [] {
      var next := Next(l, steps[0]);
      StreamsOn(l, steps[0], id, ws);
      StepKeepsIff(l, steps[0]);
      EveryLegMoves(l, steps[0], id);
      assert id in l.calls && id in l.seen;
      EveryFrame(l, steps[0]);
      hide Next, Consistent, Filed, Streams;
      if id !in next.legs { GoneThrough(next, steps[1..], end, id); }
      StreamsThrough(next, steps[1..], end, id, ws);
    }
  }

  /** Once a call's stream has started and nothing replaces it, its stop ends the call, and says
      so once: hung up by us if we had asked for that, or else by the other side. */
  lemma StopEndsTheCall(l: Line, ws: nat, id: CallId, steps: seq<Step>, end: Line)
    requires Consistent(l) && id in l.legs && !l.legs[id].call.conference
    requires IsRun(l, [StreamStarts(ws, id)] + steps, end) && Untouched(StreamStart(l, ws, id), steps, id, ws)
    requires id in end.legs
    ensures var l', we := StreamStop(end, ws), l.legs[id].hungUp || HangUpSent(id) in steps;
            && id !in l'.legs && id !in l'.calls
            && l'.events == end.events + [CallEnded(end.legs[id].call.(state := Ended), if we then Local else Remote)]
  {
    var start := StreamStarts(ws, id);
    assert ([start] + steps)[1..] == steps;
    EveryLegMoves(l, start, id);
    StepKeepsIff(l, start);
    StartedStream(l, ws, id);
    StreamsThrough(StreamStart(l, ws, id), steps, end, id, ws);
    assert LegOk(end.legs[id], id, end.calls);
    hide IsRun, Untouched, Consistent, StreamStart;
  }

  lemma StartedStream(l: Line, ws: nat, id: CallId)
    requires Consistent(l) && id in l.legs && !l.legs[id].call.conference && Filed(l)
    ensures Streams(StreamStart(l, ws, id), id, ws)
    ensures StreamStart(l, ws, id).legs[id].hungUp == l.legs[id].hungUp
  {
    hide Consistent;
  }

  /** The stop of a stream that a newer one has replaced changes nothing, whatever comes between,
      unless the old socket announces a stream again. */
  lemma {:induction false} OldStreamIsNothing(l: Line, ws: nat, id: CallId, steps: seq<Step>, end: Line)
    requires Consistent(l) && IsRun(l, steps, end) && LastStarted(l, ws, id) && id in l.seen
    requires id in l.legs ==> l.legs[id].ws != Some(ws)
    requires forall i :: 0 <= i < |steps| ==> !(steps[i].StreamStarts? && steps[i].ws == ws)
    ensures StreamStop(end, ws) == end
    decreases |steps|
  {
    if steps != [] {
      assert !(steps[0].StreamStarts? && steps[0].ws == ws);
      StepKeepsIff(l, steps[0]);
      OldStreamStays(l, steps[0], ws, id);
      hide Next, StreamStop, Consistent, Filed;
      OldStreamIsNothing(Next(l, steps[0]), ws, id, steps[1..], end);
    }
  }

  lemma OldStreamStays(l: Line, step: Step, ws: nat, id: CallId)
    requires Consistent(l) && Filed(l) && Possible(l, step) && LastStarted(l, ws, id) && id in l.seen
    requires id in l.legs ==> l.legs[id].ws != Some(ws)
    requires !(step.StreamStarts? && step.ws == ws)
    ensures var l' := Next(l, step); LastStarted(l', ws, id) && id in l'.seen && (id in l'.legs ==> l'.legs[id].ws != Some(ws))
  {
    EveryFrame(l, step);
    if id in l.legs { EveryLegMoves(l, step, id); }
    hide Consistent;
    StillStarted(l, step, id, ws);
    hide Next, Filed;
  }

  lemma OtherSocket(l: Line, ws: nat, id: CallId, other: nat)
    requires Filed(l) && other != ws && other in l.streams
    ensures var l' := StreamStart(l, ws, id); other in l'.streams && l'.streams[other] == l.streams[other]
  {
    hide Filed;
  }

  lemma {:induction false} ConferenceThrough(l: Line, steps: seq<Step>, end: Line, id: CallId)
    requires Consistent(l) && IsRun(l, steps, end) && id in l.legs && l.legs[id].call.conference
    requires forall i :: 0 <= i < |steps| ==> !(steps[i].StatusCallback? && steps[i].id == id && steps[i].status.Over?)
    ensures id in end.legs && end.legs[id].call.conference
    decreases |steps|
  {
    if steps != [] {
      assert !(steps[0].StatusCallback? && steps[0].id == id && steps[0].status.Over?);
      EveryLegMoves(l, steps[0], id);
      StepKeepsIff(l, steps[0]);
      hide Next, Consistent, Filed;
      ConferenceThrough(Next(l, steps[0]), steps[1..], end, id);
    }
  }

  /** Once a merge has moved a call, only Twilio's word that it is over ends it: its streams may
      stop as they like. */
  lemma ConferenceOutlivesStops(l: Line, id: CallId, steps: seq<Step>, end: Line)
    requires Consistent(l) && l.merging != [] && l.merging[0] == id && id in l.legs
    requires IsRun(l, [MergeAnswer(true)] + steps, end)
    requires forall i :: 0 <= i < |steps| ==> !(steps[i].StatusCallback? && steps[i].id == id && steps[i].status.Over?)
    ensures id in end.legs && end.legs[id].call.conference
  {
    assert ([MergeAnswer(true)] + steps)[1..] == steps;
    EveryLegMoves(l, MergeAnswer(true), id);
    StepKeepsIff(l, MergeAnswer(true));
    hide Next, Consistent, Filed;
    ConferenceThrough(Next(l, MergeAnswer(true)), steps, end, id);
  }
}
