/** Waiting for a call to reach a state (line.ts: waitFor). Each wait listens to the line's call
    events and runs a timer until it resolves. */
module LineWaits {
  import opened Wrappers
  import Twilio

  type CallId = Twilio.CallId
  type CallState = Twilio.CallState

  datatype Wait = Wait(callId: CallId, states: set<CallState>)

  /** What a wait resolved with: a call in some state, or, when its time ran out, the call as
      it was then, if it was still up. */
  datatype Result = Reached(state: CallState) | TimedOut(now: Option<CallState>)

  /** `listening` are the waits whose listener is on, `timers` those whose timer runs; waits are
      numbered as they come. */
  datatype Base = Base(
    calls: map<CallId, CallState>,
    asked: seq<Wait>,
    listening: set<nat>,
    timers: set<nat>,
    results: map<nat, Result>,
    resolved: multiset<nat>)

  const INIT := Base(map[], [], {}, {}, map[], multiset{})

  function Resolve(b: Base, n: nat, r: Result): Base
  {
    b.(listening := b.listening - {n}, timers := b.timers - {n},
       results := b.results[n := r], resolved := b.resolved + multiset{n})
  }

  function WaitFor(b: Base, w: Wait): Base
  {
    var n := |b.asked|;
    var b' := b.(asked := b.asked + [w]);
    if w.callId in b.calls && b.calls[w.callId] in w.states
    then b'.(results := b.results[n := Reached(b.calls[w.callId])], resolved := b.resolved + multiset{n})
    else b'.(listening := b.listening + {n}, timers := b.timers + {n})
  }

  /** The line files the event, then emits it. */
  function Filed(b: Base, id: CallId, state: CallState): Base
  {
    b.(calls := if state == Twilio.Ended then b.calls - {id} else b.calls[id := state])
  }

  /** The waits an event resolves. */
  predicate Resolves(b: Base, n: nat, id: CallId, state: CallState)
  {
    n in b.listening && n < |b.asked| && b.asked[n].callId == id && (state == Twilio.Ended || state in b.asked[n].states)
  }

  /** The first n listeners hear an event. */
  function Emit(b: Base, n: nat, id: CallId, state: CallState): Base
  {
    if n == 0 then b
    else
      var b' := Emit(b, n - 1, id, state);
      if Resolves(b, n - 1, id, state) then Resolve(b', n - 1, Reached(state)) else b'
  }

  function TimerFires(b: Base, n: nat): Base
    requires n < |b.asked|
  {
    var id := b.asked[n].callId;
    Resolve(b, n, TimedOut(if id in b.calls then Some(b.calls[id]) else None))
  }

  datatype Step = Asks(wait: Wait) | CallEvent(id: CallId, state: CallState) | Fires(n: nat)

  predicate Possible(b: Base, step: Step) { step.Fires? ==> step.n in b.timers && step.n < |b.asked| }

  function Next(b: Base, step: Step): Base
    requires Possible(b, step)
  {
    match step
    case Asks(wait) => WaitFor(b, wait)
    case CallEvent(id, state) => Emit(Filed(b, id, state), |b.asked|, id, state)
    case Fires(n) => TimerFires(b, n)
  }

  ghost predicate Answers(r: Result, w: Wait) { r.Reached? ==> r.state == Twilio.Ended || r.state in w.states }

  /** A wait still listens, with its timer running and no result, or it has resolved, once,
      with what it asked for. */
  ghost predicate WaitOk(b: Base, n: nat)
    requires n < |b.asked|
  {
    && (n in b.listening <==> n in b.timers) && (n in b.listening <==> n !in b.results)
    && b.resolved[n] == (if n in b.results then 1 else 0)
    && (n in b.results ==> Answers(b.results[n], b.asked[n]))
  }

  ghost predicate Ok(b: Base)
  {
    && (forall n :: 0 <= n < |b.asked| ==> WaitOk(b, n))
    && (forall n :: n >= |b.asked| ==> b.resolved[n] == 0)
    && forall n :: n in b.listening || n in b.timers || n in b.results ==> n < |b.asked|
  }

  lemma ResolveOk(b: Base, n: nat, r: Result)
    requires Ok(b) && n in b.listening && Answers(r, b.asked[n])
    ensures Ok(Resolve(b, n, r))
  {
    var b' := Resolve(b, n, r);
    forall k | 0 <= k < |b'.asked| ensures WaitOk(b', k) { assert WaitOk(b, k); }
  }

  lemma WaitForOk(b: Base, w: Wait)
    requires Ok(b)
    ensures Ok(WaitFor(b, w))
  {
    var b' := WaitFor(b, w);
    forall k | 0 <= k < |b'.asked| ensures WaitOk(b', k) {
      if k < |b.asked| { assert WaitOk(b, k); }
    }
  }

  lemma {:induction false} EmitOk(b: Base, n: nat, id: CallId, state: CallState)
    requires Ok(b) && n <= |b.asked|
    ensures var b' := Emit(b, n, id, state);
            Ok(b') && b'.asked == b.asked && forall k :: n <= k ==> (k in b'.listening <==> k in b.listening)
  {
    if n > 0 {
      EmitOk(b, n - 1, id, state);
      if Resolves(b, n - 1, id, state) { ResolveOk(Emit(b, n - 1, id, state), n - 1, Reached(state)); }
    }
  }

  lemma StepOk(b: Base, step: Step)
    requires Ok(b) && Possible(b, step)
    ensures Ok(Next(b, step))
  {
    match step
    case Asks(wait) => WaitForOk(b, wait);
    case CallEvent(id, state) =>
      var f := Filed(b, id, state);
      forall k | 0 <= k < |f.asked| ensures WaitOk(f, k) { assert WaitOk(b, k); }
      EmitOk(f, |b.asked|, id, state);
    case Fires(n) =>
      assert WaitOk(b, n);
      ResolveOk(b, n, Next(b, step).results[n]);
  }

  ghost predicate IsRun(b: Base, steps: seq<Step>, end: Base)
    decreases |steps|
  {
    if steps == [] then end == b else Possible(b, steps[0]) && IsRun(Next(b, steps[0]), steps[1..], end)
  }

  lemma {:induction false} RunOk(b: Base, steps: seq<Step>, end: Base)
    requires Ok(b) && IsRun(b, steps, end)
    ensures Ok(end)
    decreases |steps|
  {
    if steps != [] {
      StepOk(b, steps[0]);
      RunOk(Next(b, steps[0]), steps[1..], end);
    }
  }

  /** In every run each wait has resolved once, with a state it asked for, the call's end or a
      timeout, and left no timer or listener behind; or it has not, and has both. */
  lemma WaitsResolveOnce(steps: seq<Step>, b: Base, n: nat)
    requires IsRun(INIT, steps, b) && n < |b.asked|
    ensures b.resolved[n] <= 1
    ensures if b.resolved[n] == 1
            then n !in b.listening && n !in b.timers && n in b.results && Answers(b.results[n], b.asked[n])
            else n in b.listening && n in b.timers
  {
    RunOk(INIT, steps, b);
    assert WaitOk(b, n);
  }

  /** Every event that answers a wait ends it. */
  lemma {:induction false} EventEndsWaits(b: Base, n: nat, id: CallId, state: CallState, k: nat)
    requires n <= |b.asked| && k < n && Resolves(b, k, id, state)
    ensures k !in Emit(b, n, id, state).listening
  {
    if k < n - 1 { EventEndsWaits(b, n - 1, id, state, k); }
  }

  // ---- what a wait resolves with ----

  /** The calls that are up, and their states, after some steps. */
  function Known(calls: map<CallId, CallState>, steps: seq<Step>): map<CallId, CallState>
    decreases |steps|
  {
    if steps == [] then calls
    else
      var step := steps[0];
      Known(if !step.CallEvent? then calls
            else if step.state == Twilio.Ended then calls - {step.id}
            else calls[step.id := step.state], steps[1..])
  }

  lemma {:induction false} EmitCalls(b: Base, n: nat, id: CallId, state: CallState)
    ensures Emit(b, n, id, state).calls == b.calls && Emit(b, n, id, state).asked == b.asked
  {
    if n > 0 { EmitCalls(b, n - 1, id, state); }
  }

  lemma {:induction false} CallsAreKnown(b: Base, steps: seq<Step>, end: Base)
    requires IsRun(b, steps, end)
    ensures end.calls == Known(b.calls, steps)
    decreases |steps|
  {
    if steps != [] {
      if steps[0].CallEvent? { EmitCalls(Filed(b, steps[0].id, steps[0].state), |b.asked|, steps[0].id, steps[0].state); }
      CallsAreKnown(Next(b, steps[0]), steps[1..], end);
    }
  }

  /** What a step makes a wait resolve with, if it does, when `calls` are up: a state of its call
      that it waits for, the call's end, or its time running out. */
  function Resolution(w: Wait, n: nat, calls: map<CallId, CallState>, step: Step): Option<Result>
  {
    match step
    case Asks(_) => None
    case CallEvent(id, state) =>
      if id == w.callId && (state in w.states || state == Twilio.Ended) then Some(Reached(state)) else None
    case Fires(k) =>
      if k == n then Some(TimedOut(if w.callId in calls then Some(calls[w.callId]) else None)) else None
  }

  /** A wait that still listens resolves as the step says, or listens on. */
  ghost predicate WaitMoves(b: Base, step: Step, b': Base, n: nat)
    requires n < |b.asked|
  {
    var r := Resolution(b.asked[n], n, b.calls, step);
    if r.Some? then n in b'.results && b'.results[n] == r.value && n !in b'.listening
    else n in b'.listening && (n in b.results <==> n in b'.results)
  }

  lemma {:induction false} EmitMoves(b: Base, n: nat, id: CallId, state: CallState, k: nat)
    requires n <= |b.asked| && k < |b.asked|
    ensures var b' := Emit(b, n, id, state);
            if k < n && k in b.listening && id == b.asked[k].callId && (state in b.asked[k].states || state == Twilio.Ended)
            then k in b'.results && b'.results[k] == Reached(state) && k !in b'.listening
            else (k in b'.listening <==> k in b.listening) && (k in b'.results <==> k in b.results)
                 && (k in b.results ==> b'.results[k] == b.results[k])
  {
    if n > 0 { EmitMoves(b, n - 1, id, state, k); }
  }

  lemma EveryWaitMoves(b: Base, step: Step, n: nat)
    requires Possible(b, step) && n < |b.asked| && n in b.listening
    ensures WaitMoves(b, step, Next(b, step), n) && b.asked <= Next(b, step).asked
  {
    if step.CallEvent? {
      var f := Filed(b, step.id, step.state);
      EmitMoves(f, |b.asked|, step.id, step.state, n);
      EmitCalls(f, |b.asked|, step.id, step.state);
      hide Emit;
    }
  }

  /** What a wait has resolved with never changes. */
  lemma ResultStays(b: Base, step: Step, n: nat)
    requires Ok(b) && Possible(b, step) && n < |b.asked| && n in b.results
    ensures var b' := Next(b, step);
            n < |b'.asked| && n in b'.results && b'.results[n] == b.results[n]
  {
    assert WaitOk(b, n);
    if step.CallEvent? {
      var f := Filed(b, step.id, step.state);
      EmitMoves(f, |b.asked|, step.id, step.state, n);
      EmitCalls(f, |b.asked|, step.id, step.state);
      hide Emit;
    }
  }

  lemma {:induction false} ResultThrough(b: Base, steps: seq<Step>, end: Base, n: nat)
    requires Ok(b) && IsRun(b, steps, end) && n < |b.asked| && n in b.results
    ensures n in end.results && end.results[n] == b.results[n]
    decreases |steps|
  {
    if steps != [] {
      StepOk(b, steps[0]);
      ResultStays(b, steps[0], n);
      hide Next, Ok;
      ResultThrough(Next(b, steps[0]), steps[1..], end, n);
    }
  }

  /** Step i is the first that resolves wait n. */
  ghost predicate ResolvesAt(w: Wait, n: nat, calls: map<CallId, CallState>, steps: seq<Step>, i: nat)
    requires i < |steps|
  {
    && Resolution(w, n, Known(calls, steps[..i]), steps[i]).Some?
    && forall j :: 0 <= j < i ==> Resolution(w, n, Known(calls, steps[..j]), steps[j]).None?
  }

  lemma KnownNext(calls: map<CallId, CallState>, steps: seq<Step>, j: nat)
    requires 0 < j <= |steps|
    ensures Known(calls, steps[..j]) == Known(Known(calls, steps[..1]), steps[1..][..j - 1])
  {
    assert steps[..j][1..] == steps[1..][..j - 1] && steps[..1][1..] == [];
  }

  /** A wait resolves with the first thing that answers it, in every run. */
  lemma {:induction false} WaitFate(b: Base, steps: seq<Step>, end: Base, n: nat, i: nat)
    requires Ok(b) && IsRun(b, steps, end) && n < |b.asked| && n in b.listening
    requires i < |steps| && ResolvesAt(b.asked[n], n, b.calls, steps, i)
    ensures n in end.results && end.results[n] == Resolution(b.asked[n], n, Known(b.calls, steps[..i]), steps[i]).value
    decreases |steps|
  {
    var next, rest, w := Next(b, steps[0]), steps[1..], b.asked[n];
    StepOk(b, steps[0]);
    EveryWaitMoves(b, steps[0], n);
    assert steps[..0] == [];
    if i == 0 {
      hide Next, Ok;
      ResultThrough(next, rest, end, n);
    } else {
      assert Resolution(w, n, Known(b.calls, steps[..0]), steps[0]).None?;
      assert IsRun(next, [], next) && IsRun(b, steps[..1], next);
      CallsAreKnown(b, steps[..1], next);
      assert n < |next.asked| && next.asked[n] == w;
      hide Next, Ok, Resolution, IsRun;
      FateLater(w, n, b.calls, steps, i);
      WaitFate(next, rest, end, n, i - 1);
    }
  }

  lemma FateLater(w: Wait, n: nat, calls: map<CallId, CallState>, steps: seq<Step>, i: nat)
    requires 0 < i < |steps| && ResolvesAt(w, n, calls, steps, i)
    ensures ResolvesAt(w, n, Known(calls, steps[..1]), steps[1..], i - 1)
    ensures steps[1..][i - 1] == steps[i] && Known(Known(calls, steps[..1]), steps[1..][..i - 1]) == Known(calls, steps[..i])
  {
    hide Resolution, Known;
    KnownNext(calls, steps, i);
    forall j | 0 <= j < i - 1
      ensures Resolution(w, n, Known(Known(calls, steps[..1]), steps[1..][..j]), steps[1..][j]).None?
    {
      KnownNext(calls, steps, j + 1);
      assert Resolution(w, n, Known(calls, steps[..j + 1]), steps[j + 1]).None?;
    }
  }

  /** A wait for a state the call is in already resolves at once; any other listens. */
  lemma AsksMeans(b: Base, w: Wait)
    requires Ok(b)
    ensures var b', n := WaitFor(b, w), |b.asked|;
            && b'.asked == b.asked + [w]
            && if w.callId in b.calls && b.calls[w.callId] in w.states
               then n in b'.results && b'.results[n] == Reached(b.calls[w.callId]) && n !in b'.listening
               else n in b'.listening && n !in b'.results
  {
  }

  class LineBase {
    var calls: map<CallId, CallState>
    var asked: seq<Wait>
    var listening: set<nat>
    var timers: set<nat>
    var results: map<nat, Result>
    ghost var resolved: multiset<nat>

    ghost function State(): Base
      reads this
    {
      Base(calls, asked, listening, timers, results, resolved)
    }

    constructor ()
      ensures State() == INIT
    {
      calls, asked, listening, timers, results, resolved := map[], [], {}, {}, map[], multiset{};
    }

    method DoWaitFor(w: Wait)
      modifies this
      ensures State() == WaitFor(old(State()), w)
    {
      var n := |asked|;
      asked := asked + [w];
      if w.callId in calls && calls[w.callId] in w.states {
        results := results[n := Reached(calls[w.callId])];
        resolved := resolved + multiset{n};
        return;
      }
      listening, timers := listening + {n}, timers + {n};
    }

    method Done(n: nat, r: Result)
      modifies this
      ensures State() == Resolve(old(State()), n, r)
    {
      timers := timers - {n};
      listening := listening - {n};
      results := results[n := r];
      resolved := resolved + multiset{n};
    }

    method OnCall(id: CallId, state: CallState)
      modifies this
      ensures State() == Next(old(State()), CallEvent(id, state))
    {
      calls := if state == Twilio.Ended then calls - {id} else calls[id := state];
      ghost var filed := State();
      var heard, total := listening, |asked|;
      for n := 0 to total
        invariant State() == Emit(filed, n, id, state) && asked == filed.asked
      {
        if n in heard && asked[n].callId == id && (state == Twilio.Ended || state in asked[n].states) { Done(n, Reached(state)); }
      }
    }

    method OnTimer(n: nat)
      requires n < |asked|
      modifies this
      ensures State() == TimerFires(old(State()), n)
    {
      var id := asked[n].callId;
      Done(n, TimedOut(if id in calls then Some(calls[id]) else None));
    }
  }
}
