/** The socket to an otacon phone (otacon.ts): commands with ids and replies, playback marks,
    and reconnecting. Ids are the decimal strings of these numbers; a reply with any other id,
    or none, is foreign. */
module Otacon {
  import opened Wrappers

  datatype How = Acked | Refused | TimedOut | Disconnected | Played | Cleared

  datatype Settlement = Settlement(id: nat, how: How)

  /** `socket`: there is a WebSocket that has not reported its close; `reconnect` is the delay
      of the timer that will make the next one; `timers` are the commands' timers. `failures`
      counts closes since the socket was last open; `commands` and `cues` are the ids given to
      commands and marks. */
  datatype Link = Link(
    socket: bool,
    open: bool,
    stopped: bool,
    reconnect: Option<nat>,
    retryMs: nat,
    next: nat,
    pending: set<nat>,
    timers: set<nat>,
    marks: set<nat>,
    failures: nat,
    commands: set<nat>,
    cues: set<nat>,
    settled: multiset<Settlement>)

  const INIT := Link(false, false, false, None, 1000, 0, {}, {}, {}, 0, {}, {}, multiset{})

  function Settle(l: Link, id: nat, how: How): Link
  {
    l.(pending := l.pending - {id}, timers := l.timers - {id}, settled := l.settled + multiset{Settlement(id, how)})
  }

  function AllAs(ids: set<nat>, how: How): (s: set<Settlement>) { set id | id in ids :: Settlement(id, how) }

  // ---- the socket ----

  function Connect(l: Link): Link { if l.stopped then l else l.(socket := true) }

  function Start(l: Link): Link { Connect(l.(stopped := false)) }

  /** The close itself comes later. */
  function Stop(l: Link): Link { l.(stopped := true) }

  function Opened(l: Link): Link { l.(open := true, retryMs := 1000, failures := 0) }

  /** What a close does to commands and marks. */
  function Dropped(l: Link): Link
  {
    l.(socket := false, open := false, pending := {}, timers := l.timers - l.pending, marks := {},
       settled := l.settled + multiset(AllAs(l.pending, Disconnected)) + multiset(AllAs(l.marks, Cleared)))
  }

  function BackOff(l: Link, takenOver: bool): Link
  {
    if l.stopped then l
    else l.(reconnect := Some(if takenOver then 60_000 else l.retryMs),
            retryMs := Min(l.retryMs * 2, 15_000), failures := l.failures + 1)
  }

  /** `takenOver`: code 4001, another client took the phone. */
  function Closed(l: Link, takenOver: bool): Link { BackOff(Dropped(l), takenOver) }

  function Retry(l: Link): Link { Connect(l.(reconnect := None)) }

  // ---- commands and marks ----

  /** Refused at once, with no id, unless the socket is open. */
  function Cmd(l: Link): Link
  {
    if !l.socket || !l.open then l
    else
      var id := l.next + 1;
      l.(next := id, pending := l.pending + {id}, timers := l.timers + {id}, commands := l.commands + {id})
  }

  function Reply(l: Link, id: Option<nat>, ok: bool): Link
  {
    if id.None? || id.value !in l.pending then l else Settle(l, id.value, if ok then Acked else Refused)
  }

  function Timeout(l: Link, id: nat): Link { Settle(l, id, TimedOut) }

  /** Resolved at once unless the socket is open. */
  function Mark(l: Link): Link
  {
    if !l.open then l
    else l.(next := l.next + 1, marks := l.marks + {l.next + 1}, cues := l.cues + {l.next + 1})
  }

  function MarkReached(l: Link, id: Option<nat>, cleared: bool): Link
  {
    if id.None? || id.value !in l.marks then l
    else l.(marks := l.marks - {id.value},
            settled := l.settled + multiset{Settlement(id.value, if cleared then Cleared else Played)})
  }

  datatype Step =
    | Starts
    | Stops
    | Opens
    | Closes(takenOver: bool)
    | Retries
    | SendCmd
    | Replies(reply: Option<nat>, ok: bool)
    | TimesOut(id: nat)
    | SendMark
    | MarkMessage(mark: Option<nat>, cleared: bool)

  /** One socket at a time: the link is started only when it has no socket and is not about to
      make one. Messages come from an open socket, and a timer fires only if it is running. */
  predicate Possible(l: Link, step: Step)
  {
    match step
    case Starts => !l.socket && l.reconnect.None?
    case Opens => l.socket && !l.open
    case Closes(_) => l.socket
    case Retries => l.reconnect.Some?
    case Replies(_, _) => l.open
    case TimesOut(id) => id in l.timers
    case MarkMessage(_, _) => l.open
    case _ => true
  }

  function Next(l: Link, step: Step): Link
    requires Possible(l, step)
  {
    match step
    case Starts => Start(l)
    case Stops => Stop(l)
    case Opens => Opened(l)
    case Closes(takenOver) => Closed(l, takenOver)
    case Retries => Retry(l)
    case SendCmd => Cmd(l)
    case Replies(id, ok) => Reply(l, id, ok)
    case TimesOut(id) => Timeout(l, id)
    case SendMark => Mark(l)
    case MarkMessage(id, cleared) => MarkReached(l, id, cleared)
  }

  // ---- exactly once ----

  predicate ForCommand(how: How) { how.Acked? || how.Refused? || how.TimedOut? || how.Disconnected? }

  /** How often an id was settled. */
  function Times(settled: multiset<Settlement>, id: nat): nat
  {
    settled[Settlement(id, Acked)] + settled[Settlement(id, Refused)] + settled[Settlement(id, TimedOut)]
    + settled[Settlement(id, Disconnected)] + settled[Settlement(id, Played)] + settled[Settlement(id, Cleared)]
  }

  /** How often it was settled in a way commands are. */
  function CommandTimes(settled: multiset<Settlement>, id: nat): nat
  {
    settled[Settlement(id, Acked)] + settled[Settlement(id, Refused)] + settled[Settlement(id, TimedOut)]
    + settled[Settlement(id, Disconnected)]
  }

  /** An id that is out is unsettled; a command or mark that isn't was settled once, in its way;
      no other was. */
  ghost predicate IdOk(l: Link, id: nat)
  {
    && Times(l.settled, id) == (if (id in l.commands && id !in l.pending) || (id in l.cues && id !in l.marks) then 1 else 0)
    && CommandTimes(l.settled, id) == (if id in l.commands && id !in l.pending then 1 else 0)
  }

  ghost predicate SocketOk(l: Link)
  {
    && (l.open ==> l.socket)
    && !(l.socket && l.reconnect.Some?)
    && l.retryMs == Backoff(l.failures)
    && (l.reconnect.Some? ==> l.reconnect.value == 60_000 || 1000 <= l.reconnect.value <= 15_000)
  }

  /** What the wait grows to: doubled by each failure, from a second to fifteen. */
  function Backoff(failures: nat): (ms: nat)
    ensures 1000 <= ms <= 15_000
  {
    if failures == 0 then 1000 else Min(2 * Backoff(failures - 1), 15_000)
  }

  ghost predicate IdsOk(l: Link)
  {
    && l.pending <= l.commands && l.marks <= l.cues && l.timers == l.pending
    && (forall id :: id in l.commands || id in l.cues <==> 1 <= id <= l.next)
    && l.commands !! l.cues
    && (!l.open ==> l.pending == {} && l.marks == {})
    && forall id :: IdOk(l, id)
  }

  ghost predicate Ok(l: Link) { SocketOk(l) && IdsOk(l) }

  lemma SettleOk(l: Link, id: nat, how: How)
    requires IdsOk(l) && id in l.pending && ForCommand(how)
    ensures IdsOk(Settle(l, id, how))
  {
    var l' := Settle(l, id, how);
    forall x ensures IdOk(l', x) { assert IdOk(l, x); }
  }

  lemma MarkReachedOk(l: Link, id: Option<nat>, cleared: bool)
    requires IdsOk(l)
    ensures IdsOk(MarkReached(l, id, cleared))
  {
    var l' := MarkReached(l, id, cleared);
    forall x ensures IdOk(l', x) { assert IdOk(l, x); }
  }

  lemma NewIdOk(l: Link, l': Link)
    requires IdsOk(l) && (l' == Cmd(l) || l' == Mark(l))
    ensures IdsOk(l')
  {
    forall x ensures IdOk(l', x) { assert IdOk(l, x); }
  }

  lemma AllAsTimes(ids: set<nat>, how: How, id: nat, h: How)
    ensures multiset(AllAs(ids, how))[Settlement(id, h)] == if id in ids && h == how then 1 else 0
  {
    assert Settlement(id, h) in AllAs(ids, how) <==> id in ids && h == how;
  }

  /** A close settles everything that is out. */
  lemma ClosedOk(l: Link, takenOver: bool)
    requires IdsOk(l)
    ensures var l' := Closed(l, takenOver); IdsOk(l') && l'.pending == {} && l'.marks == {}
  {
    var l' := Dropped(l);
    forall x ensures IdOk(l', x) {
      assert IdOk(l, x);
      forall h ensures l'.settled[Settlement(x, h)] == l.settled[Settlement(x, h)]
          + (if x in l.pending && h == Disconnected then 1 else 0) + if x in l.marks && h == Cleared then 1 else 0
      {
        AllAsTimes(l.pending, Disconnected, x, h);
        AllAsTimes(l.marks, Cleared, x, h);
      }
    }
    forall x ensures IdOk(Closed(l, takenOver), x) { assert IdOk(l', x); }
  }

  lemma StepOk(l: Link, step: Step)
    requires Ok(l) && Possible(l, step)
    ensures Ok(Next(l, step))
  {
    SocketStep(l, step);
    IdsStep(l, step);
  }

  lemma SocketStep(l: Link, step: Step)
    requires Ok(l) && Possible(l, step)
    ensures SocketOk(Next(l, step))
  {
    hide IdsOk;
  }

  lemma IdsStep(l: Link, step: Step)
    requires IdsOk(l) && SocketOk(l) && Possible(l, step)
    ensures IdsOk(Next(l, step))
  {
    match step
    case Closes(takenOver) => ClosedOk(l, takenOver);
    case SendCmd => NewIdOk(l, Cmd(l));
    case Replies(id, ok) => ReplyOk(l, id, ok);
    case TimesOut(id) => SettleOk(l, id, TimedOut);
    case SendMark => NewIdOk(l, Mark(l));
    case MarkMessage(id, cleared) => MarkReachedOk(l, id, cleared);
    case _ => SameIds(l, Next(l, step));
  }

  lemma ReplyOk(l: Link, id: Option<nat>, ok: bool)
    requires IdsOk(l)
    ensures IdsOk(Reply(l, id, ok))
  {
    if id.Some? && id.value in l.pending { SettleOk(l, id.value, if ok then Acked else Refused); }
  }

  lemma SameIds(l: Link, l': Link)
    requires IdsOk(l) && (l'.open || !l.open)
    requires l' == l.(socket := l'.socket, open := l'.open, stopped := l'.stopped, reconnect := l'.reconnect,
                      retryMs := l'.retryMs, failures := l'.failures)
    ensures IdsOk(l')
  {
    forall x ensures IdOk(l', x) { assert IdOk(l, x); }
  }

  ghost predicate IsRun(l: Link, steps: seq<Step>, end: Link)
    decreases |steps|
  {
    if steps == [] then end == l else Possible(l, steps[0]) && IsRun(Next(l, steps[0]), steps[1..], end)
  }

  lemma {:induction false} RunOk(l: Link, steps: seq<Step>, end: Link)
    requires Ok(l) && IsRun(l, steps, end)
    ensures Ok(end)
    decreases |steps|
  {
    if steps != [] {
      StepOk(l, steps[0]);
      RunOk(Next(l, steps[0]), steps[1..], end);
    }
  }

  /** In every run, through any number of reconnects: a command that is not pending was settled
      exactly once, by ack, error, timeout or close, and a mark that is not out likewise; only a
      pending command has a timer running; and when the socket is down nothing is out. */
  lemma SettledOnce(steps: seq<Step>, l: Link)
    requires IsRun(INIT, steps, l)
    ensures forall id :: id in l.commands ==>
              CommandTimes(l.settled, id) == Times(l.settled, id) == if id in l.pending then 0 else 1
    ensures forall id :: id in l.cues ==>
              CommandTimes(l.settled, id) == 0 && Times(l.settled, id) == if id in l.marks then 0 else 1
    ensures l.timers == l.pending && (!l.open ==> l.pending == {} && l.marks == {})
    ensures !(l.socket && l.reconnect.Some?)
    ensures l.reconnect.Some? ==> 1000 <= l.reconnect.value <= 60_000
  {
    forall id ensures IdOk(INIT, id) { }
    RunOk(INIT, steps, l);
    forall id | id in l.commands
      ensures CommandTimes(l.settled, id) == Times(l.settled, id) == if id in l.pending then 0 else 1
    {
      assert IdOk(l, id);
    }
    forall id | id in l.cues
      ensures CommandTimes(l.settled, id) == 0 && Times(l.settled, id) == if id in l.marks then 0 else 1
    {
      assert IdOk(l, id);
    }
  }

  /** A new command or mark has an id no earlier one had. */
  lemma IdsAreNew(steps: seq<Step>, l: Link)
    requires IsRun(INIT, steps, l)
    ensures Cmd(l) != l ==> Cmd(l).pending == l.pending + {Cmd(l).next} && Cmd(l).next !in l.commands + l.cues
    ensures Mark(l) != l ==> Mark(l).marks == l.marks + {Mark(l).next} && Mark(l).next !in l.commands + l.cues
  {
    forall id ensures IdOk(INIT, id) { }
    RunOk(INIT, steps, l);
  }

  /** A reply to nothing that is out changes nothing: one that came too late, one to a command
      from before a reconnect, or one nobody asked for. */
  lemma ForeignReplyIff(l: Link, id: Option<nat>, ok: bool)
    ensures Reply(l, id, ok) == l <==> id.None? || id.value !in l.pending
  {
    if id.Some? && id.value in l.pending { assert id.value !in Reply(l, id, ok).pending; }
  }

  lemma {:induction false} BackoffIs(n: nat)
    ensures Backoff(n) == [1000, 2000, 4000, 8000, 15_000][Min(n, 4)]
  {
    if n > 0 { BackoffIs(n - 1); }
  }

  // ---- what becomes of a command, a mark and the socket ----

  /** How a step settles a command that is out. */
  function CommandEnds(step: Step, id: nat): Option<How>
  {
    match step
    case Replies(reply, ok) => if reply == Some(id) then Some(if ok then Acked else Refused) else None
    case TimesOut(late) => if late == id then Some(TimedOut) else None
    case Closes(_) => Some(Disconnected)
    case _ => None
  }

  /** How a step resolves a mark that is out. */
  function MarkEnds(step: Step, id: nat): Option<How>
  {
    match step
    case MarkMessage(mark, cleared) => if mark == Some(id) then Some(if cleared then Cleared else Played) else None
    case Closes(_) => Some(Cleared)
    case _ => None
  }

  /** What is out stays out, or is settled as the step says. */
  ghost predicate OutMoves(l: Link, step: Step, l': Link)
  {
    && l.settled <= l'.settled
    && (forall id :: id in l.pending ==> if CommandEnds(step, id).None? then id in l'.pending
                                         else l'.settled[Settlement(id, CommandEnds(step, id).value)] > 0)
    && (forall id :: id in l.marks ==> if MarkEnds(step, id).None? then id in l'.marks
                                       else l'.settled[Settlement(id, MarkEnds(step, id).value)] > 0)
  }

  lemma EveryOutMoves(l: Link, step: Step)
    requires Possible(l, step)
    ensures OutMoves(l, step, Next(l, step))
  {
    hide Closed, OutMoves, Reply, Timeout, MarkReached;
    match step
    case Closes(takenOver) => ClosedMoves(l, takenOver);
    case Replies(reply, ok) => ReplyMoves(l, reply, ok);
    case TimesOut(id) => SettleMoves(l, step, id, TimedOut); assert Next(l, step) == Timeout(l, id);
    case MarkMessage(id, cleared) => MarkMoves(l, id, cleared);
    case _ => NothingEnds(l, step);
  }

  lemma ReplyMoves(l: Link, reply: Option<nat>, ok: bool)
    ensures OutMoves(l, Replies(reply, ok), Reply(l, reply, ok))
  {
    hide Settle;
    if reply.Some? && reply.value in l.pending { SettleMoves(l, Replies(reply, ok), reply.value, if ok then Acked else Refused); }
  }

  lemma MarkMoves(l: Link, id: Option<nat>, cleared: bool)
    ensures OutMoves(l, MarkMessage(id, cleared), MarkReached(l, id, cleared))
  {
  }

  lemma NothingEnds(l: Link, step: Step)
    requires Possible(l, step) && (forall id :: CommandEnds(step, id).None? && MarkEnds(step, id).None?)
    requires !step.Closes? && !step.Replies? && !step.TimesOut? && !step.MarkMessage?
    ensures OutMoves(l, step, Next(l, step))
  {
  }

  lemma SettleMoves(l: Link, step: Step, id: nat, how: How)
    requires (step.Replies? || step.TimesOut?) && CommandEnds(step, id) == Some(how)
    ensures OutMoves(l, step, Settle(l, id, how)) && (step.TimesOut? ==> Timeout(l, id) == Settle(l, id, TimedOut))
  {
  }

  lemma ClosedMoves(l: Link, takenOver: bool)
    ensures OutMoves(l, Closes(takenOver), Closed(l, takenOver))
  {
    var commands, marks := multiset(AllAs(l.pending, Disconnected)), multiset(AllAs(l.marks, Cleared));
    forall id | id in l.pending ensures commands[Settlement(id, Disconnected)] > 0 {
      AllAsTimes(l.pending, Disconnected, id, Disconnected);
    }
    forall id | id in l.marks ensures marks[Settlement(id, Cleared)] > 0 { AllAsTimes(l.marks, Cleared, id, Cleared); }
    hide AllAs;
    assert Closed(l, takenOver).settled == l.settled + commands + marks;
    hide Closed;
  }

  lemma {:induction false} SettledStays(l: Link, steps: seq<Step>, end: Link)
    requires IsRun(l, steps, end)
    ensures l.settled <= end.settled
    decreases |steps|
  {
    if steps != [] {
      EveryOutMoves(l, steps[0]);
      hide Next;
      SettledStays(Next(l, steps[0]), steps[1..], end);
    }
  }

  /** Step i is the first that ends it. */
  ghost predicate EndsCommandAt(steps: seq<Step>, i: nat, id: nat)
    requires i < |steps|
  {
    CommandEnds(steps[i], id).Some? && forall j :: 0 <= j < i ==> CommandEnds(steps[j], id).None?
  }

  /** The first step that settles a command tells how it was settled, and until there is one it
      is out. */
  lemma {:induction false} CommandFate(l: Link, steps: seq<Step>, end: Link, id: nat)
    requires IsRun(l, steps, end) && id in l.pending
    ensures (forall i :: 0 <= i < |steps| ==> CommandEnds(steps[i], id).None?) ==> id in end.pending
    ensures forall i :: 0 <= i < |steps| && EndsCommandAt(steps, i, id) ==>
              end.settled[Settlement(id, CommandEnds(steps[i], id).value)] > 0
    decreases |steps|
  {
    if steps != [] {
      var next, rest := Next(l, steps[0]), steps[1..];
      EveryOutMoves(l, steps[0]);
      SettledStays(next, rest, end);
      hide Next, CommandEnds, MarkEnds;
      if CommandEnds(steps[0], id).None? {
        CommandFate(next, rest, end, id);
        forall i | 0 <= i < |steps| && EndsCommandAt(steps, i, id)
          ensures end.settled[Settlement(id, CommandEnds(steps[i], id).value)] > 0
        {
          assert steps[i] == rest[i - 1] && EndsCommandAt(rest, i - 1, id);
        }
      }
    }
  }

  /** Step i is the first that ends it. */
  ghost predicate EndsMarkAt(steps: seq<Step>, i: nat, id: nat)
    requires i < |steps|
  {
    MarkEnds(steps[i], id).Some? && forall j :: 0 <= j < i ==> MarkEnds(steps[j], id).None?
  }

  /** So it is with a mark. */
  lemma {:induction false} MarkFate(l: Link, steps: seq<Step>, end: Link, id: nat)
    requires IsRun(l, steps, end) && id in l.marks
    ensures (forall i :: 0 <= i < |steps| ==> MarkEnds(steps[i], id).None?) ==> id in end.marks
    ensures forall i :: 0 <= i < |steps| && EndsMarkAt(steps, i, id) ==>
              end.settled[Settlement(id, MarkEnds(steps[i], id).value)] > 0
    decreases |steps|
  {
    if steps != [] {
      var next, rest := Next(l, steps[0]), steps[1..];
      EveryOutMoves(l, steps[0]);
      SettledStays(next, rest, end);
      hide Next, CommandEnds, MarkEnds;
      if MarkEnds(steps[0], id).None? {
        MarkFate(next, rest, end, id);
        forall i | 0 <= i < |steps| && EndsMarkAt(steps, i, id)
          ensures end.settled[Settlement(id, MarkEnds(steps[i], id).value)] > 0
        {
          assert steps[i] == rest[i - 1] && EndsMarkAt(rest, i - 1, id);
        }
      }
    }
  }

  ghost predicate SocketGoesOn(l: Link, step: Step, l': Link)
  {
    && (l'.socket <==> step.Starts? || (step.Retries? && !l.stopped) || (l.socket && !step.Closes?))
    && (l'.open <==> step.Opens? || (l.open && !step.Closes?))
    && (l'.stopped <==> step.Stops? || (l.stopped && !step.Starts?))
    && l'.reconnect == (if step.Retries? then None
                        else if step.Closes? && !l.stopped
                        then Some(if step.takenOver then 60_000 else [1000, 2000, 4000, 8000, 15_000][Min(l.failures, 4)])
                        else l.reconnect)
    && l'.failures == (if step.Opens? then 0 else if step.Closes? && !l.stopped then l.failures + 1 else l.failures)
    && l'.commands == l.commands + (if step.SendCmd? && l.open then {l.next + 1} else {})
    && l'.cues == l.cues + (if step.SendMark? && l.open then {l.next + 1} else {})
  }

  /** What each step makes of the socket: it is made by a start, or by a retry unless stopped
      meanwhile, is open from its opening to its close, and after a close, unless stopped, the
      next one waits a minute if another client took the phone, or else a second, two, four,
      eight, fifteen, as often as it has failed since it was last open. Only over an open socket
      do commands and marks go out. */
  lemma SocketMoves(l: Link, step: Step)
    requires Ok(l) && Possible(l, step)
    ensures SocketGoesOn(l, step, Next(l, step))
  {
    hide IdsOk, Closed, SocketGoesOn;
    if step.Closes? {
      SocketCloses(l, step.takenOver);
    } else {
      SocketElse(l, step);
    }
  }

  lemma SocketElse(l: Link, step: Step)
    requires SocketOk(l) && Possible(l, step) && !step.Closes?
    ensures SocketGoesOn(l, step, Next(l, step))
  {
    hide Closed, Backoff;
  }

  lemma SocketCloses(l: Link, takenOver: bool)
    requires SocketOk(l) && Possible(l, Closes(takenOver))
    ensures SocketGoesOn(l, Closes(takenOver), Closed(l, takenOver))
  {
    BackoffIs(l.failures);
    DroppedChanges(l);
    hide Dropped, Backoff;
  }

  lemma DroppedChanges(l: Link)
    ensures var l' := Dropped(l);
            && !l'.socket && !l'.open && l'.stopped == l.stopped && l'.reconnect == l.reconnect && l'.retryMs == l.retryMs
            && l'.failures == l.failures && l'.commands == l.commands && l'.cues == l.cues
  {
  }

  // ---- the link itself ----

  class OtaconLink {
    var socket: bool
    var open: bool
    var stopped: bool
    var reconnect: Option<nat>
    var retryMs: nat
    var next: nat
    var pending: set<nat>
    var timers: set<nat>
    var marks: set<nat>
    ghost var failures: nat
    ghost var commands: set<nat>
    ghost var cues: set<nat>
    ghost var settled: multiset<Settlement>

    ghost function State(): Link
      reads this
    {
      Link(socket, open, stopped, reconnect, retryMs, next, pending, timers, marks, failures, commands, cues, settled)
    }

    constructor ()
      ensures State() == INIT
    {
      socket, open, stopped, reconnect, retryMs, next := false, false, false, None, 1000, 0;
      pending, timers, marks := {}, {}, {};
      failures, commands, cues, settled := 0, {}, {}, multiset{};
    }

    method OnOpen()
      modifies this
      ensures State() == Opened(old(State()))
    {
      open, retryMs := true, 1000;
      failures := 0;
    }

    method OnClose(takenOver: bool)
      modifies this
      ensures State() == Closed(old(State()), takenOver)
    {
      DropAll();
      if stopped { return; }
      reconnect := Some(if takenOver then 60_000 else retryMs);
      retryMs := Min(retryMs * 2, 15_000);
      failures := failures + 1;
    }

    method DropAll()
      modifies this
      ensures State() == Dropped(old(State()))
    {
      hide AllAs;
      socket, open := false, false;
      RejectAll();
      ClearMarks();
    }

    method RejectAll()
      modifies this
      ensures State() == old(State()).(pending := {}, timers := old(timers - pending),
                                       settled := old(settled) + multiset(AllAs(old(pending), Disconnected)))
    {
      var left := pending;
      NoneAs(Disconnected);
      assert pending - left == {} && timers - {} == timers;
      while left != {}
        invariant left <= pending
        invariant State() == old(State()).(timers := old(timers) - (pending - left),
                               settled := old(settled) + multiset(AllAs(pending - left, Disconnected)))
        decreases left
      {
        var id :| id in left;
        hide AllAs;
        OneLess(pending, left, id, Disconnected);
        assert timers - {id} == old(timers) - (pending - left + {id});
        timers := timers - {id};
        settled := settled + multiset{Settlement(id, Disconnected)};
        left := left - {id};
      }
      assert pending - left == pending;
      pending := {};
    }

    method ClearMarks()
      modifies this
      ensures State() == old(State()).(marks := {}, settled := old(settled) + multiset(AllAs(old(marks), Cleared)))
    {
      var left := marks;
      while left != {}
        invariant left <= marks
        invariant State() == old(State()).(settled := old(settled) + multiset(AllAs(marks - left, Cleared)))
        decreases left
      {
        var id :| id in left;
        hide AllAs;
        OneLess(marks, left, id, Cleared);
        settled := settled + multiset{Settlement(id, Cleared)};
        left := left - {id};
      }
      assert marks - left == marks;
      marks := {};
    }

    /** None: not connected. */
    method SendCommand() returns (id: Option<nat>)
      modifies this
      ensures State() == Cmd(old(State()))
      ensures id == if State() == old(State()) then None else Some(next)
    {
      if !socket || !open { return None; }
      next := next + 1;
      timers, pending, commands := timers + {next}, pending + {next}, commands + {next};
      id := Some(next);
    }

    method OnReply(id: Option<nat>, ok: bool)
      modifies this
      ensures State() == Reply(old(State()), id, ok)
    {
      if id.None? || id.value !in pending { return; }
      pending := pending - {id.value};
      timers := timers - {id.value};
      settled := settled + multiset{Settlement(id.value, if ok then Acked else Refused)};
    }

    method OnTimeout(id: nat)
      requires id in timers
      modifies this
      ensures State() == Timeout(old(State()), id)
    {
      timers := timers - {id};
      pending := pending - {id};
      settled := settled + multiset{Settlement(id, TimedOut)};
    }

    method PutMark() returns (waits: bool)
      modifies this
      ensures State() == Mark(old(State())) && waits == open
    {
      if !open { return false; }
      next := next + 1;
      marks, cues := marks + {next}, cues + {next};
      waits := true;
    }

    method OnMark(id: Option<nat>, cleared: bool)
      modifies this
      ensures State() == MarkReached(old(State()), id, cleared)
    {
      if id.Some? && id.value in marks {
        marks := marks - {id.value};
        settled := settled + multiset{Settlement(id.value, if cleared then Cleared else Played)};
      }
    }
  }

  lemma OneLess(ids: set<nat>, left: set<nat>, id: nat, how: How)
    requires left <= ids && id in left
    ensures ids - (left - {id}) == ids - left + {id}
    ensures multiset(AllAs(ids - (left - {id}), how)) == multiset(AllAs(ids - left, how)) + multiset{Settlement(id, how)}
  {
    AllAsMore(ids - left, id, how);
    assert ids - (left - {id}) == ids - left + {id};
  }

  lemma NoneAs(how: How)
    ensures AllAs({}, how) == {}
  {
  }

  lemma AllAsMore(ids: set<nat>, id: nat, how: How)
    requires id !in ids
    ensures multiset(AllAs(ids + {id}, how)) == multiset(AllAs(ids, how)) + multiset{Settlement(id, how)}
  {
    assert AllAs(ids + {id}, how) == AllAs(ids, how) + {Settlement(id, how)};
    assert Settlement(id, how) !in AllAs(ids, how);
  }
}
