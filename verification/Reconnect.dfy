/** Bluetooth reconnect (reconnect.py): when a paired device drops, try again and again, less
    and less often, with at most one attempt of each device scheduled. */
module Reconnect {
  import opened Wrappers

  type Path = string

  const INITIAL_DELAY_MS := 3000
  const MAX_DELAY_MS := 60000
  const STARTUP_DELAY_MS := 2000
  const INPROGRESS_WAIT_MS := 30000

  datatype Timer = Timer(path: Path, delay: nat)

  datatype Call = Call(path: Path, delay: nat)

  datatype Error = Gone | InProgress | Other

  /** What BlueZ says of a device; Unreadable when it fails to say. */
  datatype Props = NoDevice | Unreadable | Device(paired: bool, connected: bool)

  /** `timers` are GLib's live sources by id; `pending` what the agent believes. `calls` are the
      Connect calls in flight, and `deadCancels` counts cancels of sources that were not live. */
  datatype Agent = Agent(
    watched: set<Path>,
    pending: map<Path, nat>,
    connecting: set<Path>,
    timers: map<nat, Timer>,
    nextSource: nat,
    calls: multiset<Call>,
    deadCancels: nat)

  const INIT := Agent({}, map[], {}, map[], 0, multiset{}, 0)

  function Cancel(a: Agent, path: Path): Agent
  {
    if path !in a.pending then a
    else
      var source := a.pending[path];
      a.(pending := a.pending - {path}, timers := a.timers - {source},
         deadCancels := a.deadCancels + if source in a.timers then 0 else 1)
  }

  function Schedule(a: Agent, path: Path, delay: nat): Agent
  {
    var c := Cancel(a, path);
    c.(pending := c.pending[path := c.nextSource], timers := c.timers[c.nextSource := Timer(path, delay)],
       nextSource := c.nextSource + 1)
  }

  /** A Connect call, made with some delay, failed. */
  function OnError(a: Agent, path: Path, delay: nat, error: Error): Agent
  {
    var d := a.(connecting := a.connecting - {path});
    match error
    case Gone => d
    case InProgress => Schedule(d, path, INPROGRESS_WAIT_MS)
    case Other => Schedule(d, path, Min(delay * 2, MAX_DELAY_MS))
  }

  /** A timer fires; `failure` is the error if the Connect call fails at once. GLib drops the
      source when the callback returns. */
  function Attempt(a: Agent, source: nat, props: Props, failure: Option<Error>): Agent
    requires source in a.timers
  {
    var t := a.timers[source];
    var p := a.(pending := a.pending - {t.path}, timers := a.timers - {source});
    if props.NoDevice? || (props.Device? && (!props.paired || props.connected)) then p
    else if t.path in p.connecting then p
    else
      var c := p.(connecting := p.connecting + {t.path});
      if failure.Some? then OnError(c, t.path, t.delay, failure.value)
      else c.(calls := c.calls + multiset{Call(t.path, t.delay)})
  }

  datatype Step =
    | TimerFires(source: nat, props: Props, failure: Option<Error>)
    | Connects(call: Call)
    | Fails(call: Call, error: Error)
    | Drops(path: Path)
    | Appears(path: Path, connected: bool)
    | Removed(path: Path)

  /** Timers fire once, calls end once, and only watched devices are heard to drop. */
  predicate Possible(a: Agent, step: Step)
  {
    match step
    case TimerFires(source, _, _) => source in a.timers
    case Connects(call) => call in a.calls
    case Fails(call, _) => call in a.calls
    case Drops(path) => path in a.watched
    case _ => true
  }

  /** `Appears` is a paired device found at the start, or a new one, which counts as not
      connected. */
  function Next(a: Agent, step: Step): Agent
    requires Possible(a, step)
  {
    match step
    case TimerFires(source, props, failure) => Attempt(a, source, props, failure)
    case Connects(call) => a.(calls := a.calls - multiset{call}, connecting := a.connecting - {call.path})
    case Fails(call, error) => OnError(a.(calls := a.calls - multiset{call}), call.path, call.delay, error)
    case Drops(path) => Schedule(a.(connecting := a.connecting - {path}), path, INITIAL_DELAY_MS)
    case Appears(path, connected) =>
      var w := a.(watched := a.watched + {path});
      if connected then w else Schedule(w, path, STARTUP_DELAY_MS)
    case Removed(path) => Cancel(a, path).(connecting := a.connecting - {path})
  }

  // ---- one timer a device ----

  predicate DelayOk(ms: nat) { 2000 <= ms <= 60000 }

  ghost predicate TimerOk(pending: map<Path, nat>, t: Timer, source: nat)
  {
    t.path in pending && pending[t.path] == source && DelayOk(t.delay)
  }

  ghost predicate PendingOk(timers: map<nat, Timer>, path: Path, source: nat)
  {
    source in timers && timers[source].path == path
  }

  /** The live timers are exactly the pending ones, one a path; none that was dead was ever
      cancelled; and every delay is between 2 and 60 seconds. */
  ghost predicate Ok(a: Agent)
  {
    && (forall source :: source in a.timers ==> TimerOk(a.pending, a.timers[source], source) && source < a.nextSource)
    && (forall path :: path in a.pending ==> PendingOk(a.timers, path, a.pending[path]))
    && (forall c :: c in a.calls ==> DelayOk(c.delay))
    && a.deadCancels == 0
  }

  lemma CancelOk(a: Agent, path: Path)
    requires Ok(a)
    ensures Ok(Cancel(a, path)) && path !in Cancel(a, path).pending
  {
    var a' := Cancel(a, path);
    if path in a.pending {
      assert PendingOk(a.timers, path, a.pending[path]);
      forall source | source in a'.timers ensures TimerOk(a'.pending, a'.timers[source], source) {
        assert TimerOk(a.pending, a.timers[source], source);
      }
      forall p | p in a'.pending ensures PendingOk(a'.timers, p, a'.pending[p]) {
        assert PendingOk(a.timers, p, a.pending[p]);
      }
    }
  }

  lemma ScheduleOk(a: Agent, path: Path, delay: nat)
    requires Ok(a) && DelayOk(delay)
    ensures var a' := Schedule(a, path, delay);
            && Ok(a') && path in a'.pending && a'.timers[a'.pending[path]] == Timer(path, delay)
  {
    CancelOk(a, path);
    var c, a' := Cancel(a, path), Schedule(a, path, delay);
    forall source | source in a'.timers ensures TimerOk(a'.pending, a'.timers[source], source) {
      if source in c.timers { assert TimerOk(c.pending, c.timers[source], source); }
    }
    forall p | p in a'.pending ensures PendingOk(a'.timers, p, a'.pending[p]) {
      if p != path { assert PendingOk(c.timers, p, c.pending[p]); }
    }
  }

  /** A failed attempt is followed by another, twice as late (at most a minute, or half a minute
      if one was under way), unless the device is gone. */
  lemma OnErrorOk(a: Agent, path: Path, delay: nat, error: Error)
    requires Ok(a) && DelayOk(delay)
    ensures var a' := OnError(a, path, delay, error);
            && Ok(a')
            && (error != Gone ==>
                  && path in a'.pending && a'.pending[path] in a'.timers
                  && a'.timers[a'.pending[path]].delay == if error == InProgress then 30000 else Min(2 * delay, 60000))
  {
    var d := a.(connecting := a.connecting - {path});
    match error
    case Gone =>
    case InProgress => ScheduleOk(d, path, INPROGRESS_WAIT_MS);
    case Other => ScheduleOk(d, path, Min(delay * 2, MAX_DELAY_MS));
  }

  lemma FiredOk(a: Agent, source: nat)
    requires Ok(a) && source in a.timers
    ensures DelayOk(a.timers[source].delay)
    ensures Ok(a.(pending := a.pending - {a.timers[source].path}, timers := a.timers - {source}))
  {
    var path := a.timers[source].path;
    var pending, timers := a.pending - {path}, a.timers - {source};
    assert TimerOk(a.pending, a.timers[source], source);
    forall s | s in timers ensures TimerOk(pending, timers[s], s) { assert TimerOk(a.pending, a.timers[s], s); }
    forall p | p in pending ensures PendingOk(timers, p, pending[p]) { assert PendingOk(a.timers, p, a.pending[p]); }
  }

  lemma AttemptOk(a: Agent, source: nat, props: Props, failure: Option<Error>)
    requires Ok(a) && source in a.timers
    ensures Ok(Attempt(a, source, props, failure))
  {
    FiredOk(a, source);
    var t := a.timers[source];
    var p := a.(pending := a.pending - {t.path}, timers := a.timers - {source});
    var c := p.(connecting := p.connecting + {t.path});
    if failure.Some? {
      OnErrorOk(c, t.path, t.delay, failure.value);
    } else {
      assert forall x :: x in c.calls + multiset{Call(t.path, t.delay)} ==> x in a.calls || x == Call(t.path, t.delay);
    }
  }

  lemma StepOk(a: Agent, step: Step)
    requires Ok(a) && Possible(a, step)
    ensures Ok(Next(a, step))
  {
    match step
    case TimerFires(source, props, failure) => AttemptOk(a, source, props, failure);
    case Connects(call) => assert forall c :: c in a.calls - multiset{call} ==> c in a.calls;
    case Fails(call, error) =>
      assert forall c :: c in a.calls - multiset{call} ==> c in a.calls;
      OnErrorOk(a.(calls := a.calls - multiset{call}), call.path, call.delay, error);
    case Drops(path) => ScheduleOk(a.(connecting := a.connecting - {path}), path, INITIAL_DELAY_MS);
    case Appears(path, connected) => ScheduleOk(a.(watched := a.watched + {path}), path, STARTUP_DELAY_MS);
    case Removed(path) => CancelOk(a, path);
  }

  ghost predicate IsRun(a: Agent, steps: seq<Step>, end: Agent)
    decreases |steps|
  {
    if steps == [] then end == a else Possible(a, steps[0]) && IsRun(Next(a, steps[0]), steps[1..], end)
  }

  lemma {:induction false} RunOk(a: Agent, steps: seq<Step>, end: Agent)
    requires Ok(a) && IsRun(a, steps, end)
    ensures Ok(end)
    decreases |steps|
  {
    if steps != [] {
      StepOk(a, steps[0]);
      RunOk(Next(a, steps[0]), steps[1..], end);
    }
  }

  /** In every run, however timers, replies, drops, arrivals and removals interleave: each device
      has at most one live timer, the one the agent knows of; none that was dead was ever
      cancelled; and every delay is between 2 and 60 seconds. */
  lemma OneTimerEach(steps: seq<Step>, a: Agent)
    requires IsRun(INIT, steps, a)
    ensures forall s, t :: s in a.timers && t in a.timers && a.timers[s].path == a.timers[t].path ==> s == t
    ensures forall s :: s in a.timers ==> 2000 <= a.timers[s].delay <= 60000
    ensures forall s :: s in a.timers <==> exists p :: p in a.pending && a.pending[p] == s
    ensures a.deadCancels == 0
  {
    RunOk(INIT, steps, a);
    forall s | s in a.timers
      ensures a.timers[s].path in a.pending && a.pending[a.timers[s].path] == s && DelayOk(a.timers[s].delay)
    {
      assert TimerOk(a.pending, a.timers[s], s);
    }
    forall p | p in a.pending ensures a.pending[p] in a.timers { assert PendingOk(a.timers, p, a.pending[p]); }
  }

  // ---- one Connect call a device ----

  ghost predicate CallOut(calls: multiset<Call>, path: Path) { exists c :: c in calls && c.path == path }

  ghost predicate SameCall(calls: multiset<Call>, c: Call, d: Call)
  {
    c in calls && d in calls && c.path == d.path ==> c == d && calls[c] == 1
  }

  ghost predicate FlagOk(a: Agent, path: Path) { path in a.connecting <==> CallOut(a.calls, path) }

  /** Each device has at most one call in flight, and is in `connecting` exactly while it has. */
  ghost predicate OneCall(a: Agent)
  {
    (forall c, d :: SameCall(a.calls, c, d)) && forall path :: FlagOk(a, path)
  }

  /** A disconnect or a removal of a device whose call is in flight. */
  ghost predicate ClearsFlag(a: Agent, step: Step)
  {
    (step.Drops? || step.Removed?) && CallOut(a.calls, step.path)
  }

  lemma OneCallByParts(a: Agent, a': Agent)
    requires OneCall(a) && a'.calls == a.calls && a'.connecting == a.connecting
    ensures OneCall(a')
  {
    forall c, d ensures SameCall(a'.calls, c, d) { assert SameCall(a.calls, c, d); }
    forall path ensures FlagOk(a', path) { assert FlagOk(a, path); }
  }

  /** A call ends: its device's only one. */
  lemma CallEnds(a: Agent, a': Agent, call: Call)
    requires OneCall(a) && call in a.calls
    requires a'.calls == a.calls - multiset{call} && a'.connecting == a.connecting - {call.path}
    ensures OneCall(a')
  {
    assert SameCall(a.calls, call, call);
    forall c, d ensures SameCall(a'.calls, c, d) { assert SameCall(a.calls, c, d); }
    forall path ensures FlagOk(a', path) {
      assert FlagOk(a, path);
      if path == call.path {
        forall c | c in a'.calls ensures c.path != path { assert SameCall(a.calls, c, call); }
      } else if c :| c in a.calls && c.path == path {
        assert c in a'.calls;
      }
    }
  }

  lemma CallStarts(a: Agent, a': Agent, call: Call)
    requires OneCall(a) && call.path !in a.connecting
    requires a'.calls == a.calls + multiset{call} && a'.connecting == a.connecting + {call.path}
    ensures OneCall(a')
  {
    assert FlagOk(a, call.path);
    forall c, d ensures SameCall(a'.calls, c, d) { assert SameCall(a.calls, c, d); }
    forall path ensures FlagOk(a', path) {
      assert FlagOk(a, path);
      if path == call.path {
        assert call in a'.calls;
      } else if c :| c in a.calls && c.path == path {
        assert c in a'.calls;
      }
    }
  }

  lemma AttemptOneCall(a: Agent, source: nat, props: Props, failure: Option<Error>)
    requires OneCall(a) && source in a.timers
    ensures OneCall(Attempt(a, source, props, failure))
  {
    var t, a' := a.timers[source], Attempt(a, source, props, failure);
    if a'.calls != a.calls {
      CallStarts(a, a', Call(t.path, t.delay));
    } else {
      assert t.path in a.connecting || a.connecting + {t.path} - {t.path} == a.connecting;
      OneCallByParts(a, a');
    }
  }

  /** A step keeps one call a device if and only if it is not a disconnect or a removal of a
      device whose call is still in flight: either one clears the flag, and not the call. */
  lemma OneCallKeptIff(a: Agent, step: Step)
    requires OneCall(a) && Possible(a, step)
    ensures OneCall(Next(a, step)) <==> !ClearsFlag(a, step)
  {
    var a' := Next(a, step);
    match step
    case TimerFires(source, props, failure) => AttemptOneCall(a, source, props, failure);
    case Connects(call) => CallEnds(a, a', call);
    case Fails(call, error) => CallEnds(a, a', call);
    case Drops(path) => FlagCleared(a, a', path);
    case Appears(path, connected) => OneCallByParts(a, a');
    case Removed(path) => FlagCleared(a, a', path);
  }

  lemma FlagCleared(a: Agent, a': Agent, path: Path)
    requires OneCall(a) && a'.calls == a.calls && a'.connecting == a.connecting - {path}
    ensures OneCall(a') <==> !CallOut(a.calls, path)
  {
    assert FlagOk(a, path);
    if CallOut(a.calls, path) {
      assert !FlagOk(a', path);
    } else {
      assert a'.connecting == a.connecting;
      OneCallByParts(a, a');
    }
  }

  lemma RunFrom(a: Agent, step: Step, rest: seq<Step>, end: Agent)
    requires Possible(a, step) && IsRun(Next(a, step), rest, end)
    ensures IsRun(a, [step] + rest, end)
  {
    assert ([step] + rest)[1..] == rest;
  }

  /** It does happen: a device drops while its call is in flight, and the next attempt makes a
      second one. */
  lemma TwoCallsInFlight(path: Path) returns (steps: seq<Step>, a: Agent)
    ensures IsRun(INIT, steps, a) && a.calls == multiset{Call(path, STARTUP_DELAY_MS), Call(path, INITIAL_DELAY_MS)}
  {
    var up := Device(true, false);
    var a1 := Next(INIT, Appears(path, false));
    var a2 := Next(a1, TimerFires(0, up, None));
    var a3 := Next(a2, Drops(path));
    a := Next(a3, TimerFires(1, up, None));
    assert IsRun(a, [], a);
    RunFrom(a3, TimerFires(1, up, None), [], a);
    RunFrom(a2, Drops(path), [TimerFires(1, up, None)] + [], a);
    var rest := [Drops(path)] + ([TimerFires(1, up, None)] + []);
    RunFrom(a1, TimerFires(0, up, None), rest, a);
    RunFrom(INIT, Appears(path, false), [TimerFires(0, up, None)] + rest, a);
    steps := [Appears(path, false)] + ([TimerFires(0, up, None)] + rest);
  }

  // ---- when the next attempt is due ----

  /** The delay after which the device will be tried, if an attempt is scheduled. */
  ghost function Due(a: Agent, path: Path): Option<nat>
  {
    if path in a.pending && a.pending[path] in a.timers then Some(a.timers[a.pending[path]].delay) else None
  }

  /** Whether a device whose timer fires is worth a Connect call: it may be paired, isn't known to
      be connected, and no call is thought to be under way. */
  predicate WorthACall(a: Agent, path: Path, props: Props)
  {
    (props.Unreadable? || props == Device(true, false)) && path !in a.connecting
  }

  /** When a device is tried again after a failure: not if it is gone, in half a minute if an
      attempt is under way, or else in twice the time, a minute at most. */
  function Again(delay: nat, error: Error, before: Option<nat>): Option<nat>
  {
    match error
    case Gone => before
    case InProgress => Some(30_000)
    case Other => Some(if 2 * delay < 60_000 then 2 * delay else 60_000)
  }

  /** What a step makes of the time a device is due. */
  ghost function DueAfter(a: Agent, step: Step, path: Path): Option<nat>
    requires Possible(a, step)
  {
    match step
    case TimerFires(source, props, failure) =>
      if a.timers[source].path != path then Due(a, path)
      else if WorthACall(a, path, props) && failure.Some? then Again(a.timers[source].delay, failure.value, None)
      else None
    case Connects(_) => Due(a, path)
    case Fails(call, error) => if call.path == path then Again(call.delay, error, Due(a, path)) else Due(a, path)
    case Drops(dropped) => if dropped == path then Some(3000) else Due(a, path)
    case Appears(found, connected) => if found == path && !connected then Some(2000) else Due(a, path)
    case Removed(removed) => if removed == path then None else Due(a, path)
  }

  lemma CancelDue(a: Agent, path: Path, x: Path)
    requires Ok(a)
    ensures Due(Cancel(a, path), x) == if x == path then None else Due(a, x)
  {
    if x in a.pending { assert PendingOk(a.timers, x, a.pending[x]); }
    if path in a.pending { assert PendingOk(a.timers, path, a.pending[path]); }
  }

  lemma ScheduleDue(a: Agent, path: Path, delay: nat, x: Path)
    requires Ok(a)
    ensures Due(Schedule(a, path, delay), x) == if x == path then Some(delay) else Due(a, x)
  {
    CancelOk(a, path);
    CancelDue(a, path, x);
    var c := Cancel(a, path);
    if x in c.pending {
      assert PendingOk(c.timers, x, c.pending[x]);
      assert TimerOk(c.pending, c.timers[c.pending[x]], c.pending[x]);
    }
  }

  lemma SameDue(a: Agent, a': Agent, x: Path)
    requires a'.pending == a.pending && a'.timers == a.timers
    ensures Due(a', x) == Due(a, x)
  {
  }

  lemma ErrorDue(a: Agent, path: Path, delay: nat, error: Error, x: Path)
    requires Ok(a)
    ensures Due(OnError(a, path, delay, error), x) == if x == path then Again(delay, error, Due(a, path)) else Due(a, x)
  {
    var d := a.(connecting := a.connecting - {path});
    assert Ok(d);
    SameDue(a, d, x);
    match error
    case Gone =>
    case InProgress => ScheduleDue(d, path, 30_000, x);
    case Other => ScheduleDue(d, path, Min(delay * 2, 60_000), x);
  }

  lemma FiredDue(a: Agent, source: nat, x: Path)
    requires Ok(a) && source in a.timers
    ensures var path := a.timers[source].path;
            Due(a.(pending := a.pending - {path}, timers := a.timers - {source}), x) == if x == path then None else Due(a, x)
  {
    assert TimerOk(a.pending, a.timers[source], source);
    if x in a.pending { assert PendingOk(a.timers, x, a.pending[x]); }
  }

  /** After any step of any run each device is due as it should be, and only the timer of a device
      worth a call makes one. */
  lemma EveryDeviceIsDue(a: Agent, step: Step, path: Path)
    requires Ok(a) && Possible(a, step)
    ensures Due(Next(a, step), path) == DueAfter(a, step, path)
  {
    hide Ok, Due;
    match step
    case TimerFires(source, props, failure) => AttemptDue(a, source, props, failure, path);
    case Connects(call) => SameDue(a, Next(a, step), path);
    case Fails(call, error) =>
      var e := a.(calls := a.calls - multiset{call});
      FewerCalls(a, call);
      SameDue(a, e, path);
      ErrorDue(e, call.path, call.delay, error, path);
      SameDue(a, e, call.path);
    case Drops(dropped) =>
      var d := a.(connecting := a.connecting - {dropped});
      FlagOnly(a, d);
      SameDue(a, d, path);
      ScheduleDue(d, dropped, 3000, path);
    case Appears(found, connected) =>
      var w := a.(watched := a.watched + {found});
      FlagOnly(a, w);
      SameDue(a, w, path);
      ScheduleDue(w, found, 2000, path);
    case Removed(removed) =>
      CancelDue(a, removed, path);
      SameDue(Cancel(a, removed), Next(a, step), path);
  }

  lemma FewerCalls(a: Agent, call: Call)
    requires Ok(a)
    ensures Ok(a.(calls := a.calls - multiset{call}))
  {
    assert forall c :: c in a.calls - multiset{call} ==> c in a.calls;
  }

  lemma FlagOnly(a: Agent, a': Agent)
    requires Ok(a) && a' == a.(connecting := a'.connecting, watched := a'.watched)
    ensures Ok(a')
  {
  }

  lemma AttemptDue(a: Agent, source: nat, props: Props, failure: Option<Error>, path: Path)
    requires Ok(a) && source in a.timers
    ensures Due(Attempt(a, source, props, failure), path) == DueAfter(a, TimerFires(source, props, failure), path)
  {
    var t := a.timers[source];
    var p := a.(pending := a.pending - {t.path}, timers := a.timers - {source});
    var c := p.(connecting := p.connecting + {t.path});
    FiredOk(a, source);
    FlagOnly(p, c);
    FiredDue(a, source, path);
    FiredDue(a, source, t.path);
    SameDue(p, c, path);
    SameDue(p, c, t.path);
    hide Ok, Due;
    if failure.Some? { ErrorDue(c, t.path, t.delay, failure.value, path); }
    SameDue(c, c.(calls := c.calls + multiset{Call(t.path, t.delay)}), path);
  }

  /** The step makes a Connect call. */
  predicate Calls(a: Agent, step: Step)
    requires Possible(a, step)
  {
    step.TimerFires? && WorthACall(a, a.timers[step.source].path, step.props) && step.failure.None?
  }

  /** The step ends what counts as connecting to a device: a reply, its disconnect or its removal. */
  predicate StopsConnecting(step: Step, path: Path)
  {
    match step
    case Connects(call) => call.path == path
    case Fails(call, _) => call.path == path
    case Drops(dropped) => dropped == path
    case Removed(removed) => removed == path
    case _ => false
  }

  /** Connect calls are made by timers of devices worth one, with the timer's delay, and end by
      their replies; a device counts as connecting from the call to its reply, its disconnect or
      its removal. */
  lemma EveryCallIsMeant(a: Agent, step: Step, path: Path)
    requires Possible(a, step)
    ensures Next(a, step).calls ==
              if Calls(a, step) then a.calls + multiset{Call(a.timers[step.source].path, a.timers[step.source].delay)}
              else if step.Connects? || step.Fails? then a.calls - multiset{step.call} else a.calls
    ensures path in Next(a, step).connecting <==>
              (Calls(a, step) && path == a.timers[step.source].path) || (path in a.connecting && !StopsConnecting(step, path))
    ensures Next(a, step).watched == a.watched + if step.Appears? then {step.path} else {}
  {
    match step
    case TimerFires(source, props, failure) => AttemptCalls(a, source, props, failure, path);
    case Connects(_) =>
    case Fails(call, error) => ErrorKeeps(a.(calls := a.calls - multiset{call}), call.path, call.delay, error);
    case Drops(dropped) => ScheduleKeeps(a.(connecting := a.connecting - {dropped}), dropped, INITIAL_DELAY_MS);
    case Appears(found, _) => ScheduleKeeps(a.(watched := a.watched + {found}), found, STARTUP_DELAY_MS);
    case Removed(removed) => ScheduleKeeps(a, removed, 0);
    hide Schedule, Cancel, OnError, Attempt;
  }

  lemma ScheduleKeeps(a: Agent, path: Path, delay: nat)
    ensures var s := Schedule(a, path, delay); s.calls == a.calls && s.connecting == a.connecting && s.watched == a.watched
    ensures var c := Cancel(a, path); c.calls == a.calls && c.connecting == a.connecting && c.watched == a.watched
  {
  }

  lemma ErrorKeeps(a: Agent, path: Path, delay: nat, error: Error)
    ensures var e := OnError(a, path, delay, error);
            e.calls == a.calls && e.connecting == a.connecting - {path} && e.watched == a.watched
  {
    hide Schedule;
    var d := a.(connecting := a.connecting - {path});
    ScheduleKeeps(d, path, INPROGRESS_WAIT_MS);
    ScheduleKeeps(d, path, Min(delay * 2, MAX_DELAY_MS));
  }

  lemma AttemptCalls(a: Agent, source: nat, props: Props, failure: Option<Error>, path: Path)
    requires source in a.timers
    ensures var a', t, made := Attempt(a, source, props, failure), a.timers[source],
                  WorthACall(a, a.timers[source].path, props) && failure.None?;
            && a'.calls == (if made then a.calls + multiset{Call(t.path, t.delay)} else a.calls)
            && (path in a'.connecting <==> (made && path == t.path) || path in a.connecting)
            && a'.watched == a.watched
  {
    hide OnError;
    var t := a.timers[source];
    var c := a.(pending := a.pending - {t.path}, timers := a.timers - {source}, connecting := a.connecting + {t.path});
    if failure.Some? { ErrorKeeps(c, t.path, t.delay, failure.value); }
  }

  /** What is counted: a cancel of a source that is not live. */
  lemma DeadCancelsAreCounted(a: Agent, path: Path)
    ensures Cancel(a, path).deadCancels == a.deadCancels + if path in a.pending && a.pending[path] !in a.timers then 1 else 0
  {
  }

  // ---- the agent itself ----

  class ReconnectAgent {
    var watched: set<Path>
    var pending: map<Path, nat>
    var connecting: set<Path>
    var timers: map<nat, Timer>
    var nextSource: nat
    ghost var calls: multiset<Call>
    ghost var deadCancels: nat

    ghost function State(): Agent
      reads this
    {
      Agent(watched, pending, connecting, timers, nextSource, calls, deadCancels)
    }

    constructor ()
      ensures State() == INIT
    {
      watched, pending, connecting, timers, nextSource := {}, map[], {}, map[], 0;
      calls, deadCancels := multiset{}, 0;
    }

    method CancelTimer(path: Path)
      modifies this
      ensures State() == Cancel(old(State()), path)
    {
      if path in pending {
        var source := pending[path];
        pending := pending - {path};
        if source !in timers { deadCancels := deadCancels + 1; }
        timers := timers - {source};
      }
    }

    method ScheduleReconnect(path: Path, delay: nat)
      modifies this
      ensures State() == Schedule(old(State()), path, delay)
    {
      CancelTimer(path);
      timers := timers[nextSource := Timer(path, delay)];
      pending := pending[path := nextSource];
      nextSource := nextSource + 1;
    }

    method ConnectFailed(path: Path, delay: nat, error: Error)
      modifies this
      ensures State() == OnError(old(State()), path, delay, error)
    {
      connecting := connecting - {path};
      if error == Gone { return; }
      var wait := if error == InProgress then INPROGRESS_WAIT_MS else Min(delay * 2, MAX_DELAY_MS);
      ScheduleReconnect(path, wait);
    }

    method AttemptConnect(source: nat, props: Props, failure: Option<Error>)
      requires source in timers
      modifies this
      ensures State() == Attempt(old(State()), source, props, failure)
    {
      var t := timers[source];
      timers := timers - {source};
      pending := pending - {t.path};
      if props.NoDevice? || (props.Device? && !props.paired) { return; }
      if props.Device? && props.connected { return; }
      if t.path in connecting { return; }
      connecting := connecting + {t.path};
      if failure.Some? {
        ConnectFailed(t.path, t.delay, failure.value);
      } else {
        calls := calls + multiset{Call(t.path, t.delay)};
      }
    }

    method OnDisconnect(path: Path)
      requires path in watched
      modifies this
      ensures State() == Next(old(State()), Drops(path))
    {
      connecting := connecting - {path};
      ScheduleReconnect(path, INITIAL_DELAY_MS);
    }

    method OnAppears(path: Path, connected: bool)
      modifies this
      ensures State() == Next(old(State()), Appears(path, connected))
    {
      watched := watched + {path};
      if !connected { ScheduleReconnect(path, STARTUP_DELAY_MS); }
    }

    method OnRemoved(path: Path)
      modifies this
      ensures State() == Next(old(State()), Removed(path))
    {
      CancelTimer(path);
      connecting := connecting - {path};
    }
  }
}
