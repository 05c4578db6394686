/** Which phone has which ports and which Bluetooth dongle (ports.py, dongle.py,
    loss_handler.py), through allocation, loss, reassignment and restarts of the fleet agent.

    phones.json is a list of entries; a missing file is an empty one. The dongle cache is filled
    from it when first needed. Every operation is one step, and writes succeed. Dongle addresses
    are in upper case, as the enumeration gives them. */
module Fleet {
  import opened Wrappers

  type Serial = string
  type Mac = string

  /** `idx` is what the entry's ports are counted from. */
  datatype Entry = Entry(serial: Serial, idx: Option<nat>, mac: Option<Mac>)

  datatype Fleet = Fleet(file: seq<Entry>, cache: Option<map<Serial, Mac>>)

  const INIT := Fleet([], None)

  datatype Ports = Ports(snapshot: nat, internal: nat, display: nat, vnc: nat)

  function PortsAt(idx: nat): Ports { Ports(9091 + idx, 8081 + idx, 50 + idx, 5900 + idx) }

  function Upper(s: string): (r: string)
    ensures |r| == |s|
  {
    if s == "" then "" else [if 'a' <= s[0] <= 'z' then s[0] - 'a' + 'A' else s[0]] + Upper(s[1..])
  }

  /** Empty and test-fixture serials are never given ports, and are purged at a restart. */
  predicate Rejected(serial: Serial)
  {
    var s := Upper(serial);
    s in {"", "TEST", "FAKE", "PHANTOM"} || (|s| >= 3 && s[|s| - 3..] == "ABC")
  }

  // ---- the file ----

  function Serials(file: seq<Entry>): set<Serial>
  {
    if file == [] then {} else {file[0].serial} + Serials(file[1..])
  }

  predicate Distinct(file: seq<Entry>)
  {
    file != [] ==> file[0].serial !in Serials(file[1..]) && Distinct(file[1..])
  }

  function IdxOf(file: seq<Entry>, serial: Serial): Option<nat>
  {
    if file == [] then None else if file[0].serial == serial then file[0].idx else IdxOf(file[1..], serial)
  }

  function MacOf(file: seq<Entry>, serial: Serial): Option<Mac>
  {
    if file == [] then None else if file[0].serial == serial then file[0].mac else MacOf(file[1..], serial)
  }

  function UsedIdx(file: seq<Entry>): set<nat>
  {
    if file == [] then {} else UsedIdx(file[1..]) + if file[0].idx.Some? then {file[0].idx.value} else {}
  }

  /** The dongles of every phone but one. */
  function UsedMacs(file: seq<Entry>, but: Serial): set<Mac>
  {
    if file == [] then {}
    else UsedMacs(file[1..], but) + if file[0].mac.Some? && file[0].serial != but then {file[0].mac.value} else {}
  }

  function SaveIdx(file: seq<Entry>, serial: Serial, idx: nat): seq<Entry>
  {
    if file == [] then [Entry(serial, Some(idx), None)]
    else if file[0].serial == serial then [file[0].(idx := Some(idx))] + file[1..]
    else [file[0]] + SaveIdx(file[1..], serial, idx)
  }

  function SaveMac(file: seq<Entry>, serial: Serial, mac: Mac): seq<Entry>
  {
    if file == [] then [Entry(serial, None, Some(mac))]
    else if file[0].serial == serial then [file[0].(mac := Some(mac))] + file[1..]
    else [file[0]] + SaveMac(file[1..], serial, mac)
  }

  /** The first entry with a dongle loses it. */
  function ClearMac(file: seq<Entry>, mac: Mac): seq<Entry>
  {
    if file == [] then []
    else if file[0].mac == Some(mac) then [file[0].(mac := None)] + file[1..]
    else [file[0]] + ClearMac(file[1..], mac)
  }

  function Purged(file: seq<Entry>): seq<Entry>
  {
    if file == [] then []
    else if Rejected(file[0].serial) then Purged(file[1..])
    else [file[0]] + Purged(file[1..])
  }

  /** The cache as filled from the file; entries without a serial are skipped. */
  function Cached(file: seq<Entry>): map<Serial, Mac>
  {
    if file == [] then map[]
    else if file[0].serial != "" && file[0].mac.Some? then Cached(file[1..])[file[0].serial := file[0].mac.value]
    else Cached(file[1..])
  }

  // ---- operations ----

  /** Some index is not in a set: one of the first |used| + 1. */
  lemma {:induction false} SomeFree(used: set<nat>, from: nat) returns (n: nat)
    ensures n !in used && n >= from
    decreases used
  {
    n := from;
    if from in used {
      n := SomeFree(used - {from}, from + 1);
    }
  }

  /** The least index not in a set. */
  ghost function LeastFree(used: set<nat>): (n: nat)
    ensures n !in used && forall k :: 0 <= k < n ==> k in used
  {
    FreeExists(used);
    var n :| IsLeastFree(used, n);
    n
  }

  ghost predicate IsLeastFree(used: set<nat>, n: nat) { n !in used && forall k :: 0 <= k < n ==> k in used }

  lemma FreeExists(used: set<nat>)
    ensures exists n :: IsLeastFree(used, n)
  {
    var f := SomeFree(used, 0);
    var n := 0;
    while n in used
      invariant n <= f && forall k :: 0 <= k < n ==> k in used
      decreases f - n
    {
      n := n + 1;
    }
    assert IsLeastFree(used, n);
  }

  /** None: the serial is rejected. */
  ghost function Allocate(f: Fleet, serial: Serial): Option<(Fleet, nat)>
  {
    if Rejected(serial) then None
    else
      var saved := IdxOf(f.file, serial);
      var idx := if saved.Some? then saved.value else LeastFree(UsedIdx(f.file));
      Some((f.(file := SaveIdx(f.file, serial, idx)), idx))
  }

  function Seeded(f: Fleet): (r: Fleet)
    ensures r.file == f.file && r.cache.Some?
  {
    if f.cache.Some? then f else f.(cache := Some(Cached(f.file)))
  }

  function SaveDongle(f: Fleet, serial: Serial, mac: Mac): Fleet
  {
    Fleet(SaveMac(f.file, serial, mac), if f.cache.Some? then Some(f.cache.value[serial := mac]) else None)
  }

  function FirstFree(dongles: seq<Mac>, used: set<Mac>): (r: Option<Mac>)
    ensures r.Some? ==> r.value in dongles && r.value !in used
    ensures r.None? ==> forall d :: d in dongles ==> d in used
  {
    if dongles == [] then None else if dongles[0] !in used then Some(dongles[0]) else FirstFree(dongles[1..], used)
  }

  function TakenBy(cache: map<Serial, Mac>, but: Serial): set<Mac> { set s | s in cache && s != but :: cache[s] }

  function AllocateDongle(f: Fleet, serial: Serial, dongles: seq<Mac>): (Fleet, Option<Mac>)
  {
    if dongles == [] then (f, None)
    else
      var s := Seeded(f);
      var cache := s.cache.value;
      if serial in cache && cache[serial] in dongles then (s, Some(cache[serial]))
      else
        var free := FirstFree(dongles, TakenBy(cache, serial));
        if free.None? then (s, None) else (SaveDongle(s, serial, free.value), free)
  }

  function Forgotten(cache: map<Serial, Mac>, mac: Mac): map<Serial, Mac>
  {
    map s | s in cache && cache[s] != mac :: cache[s]
  }

  function Release(f: Fleet, mac: Mac): Fleet
  {
    Fleet(ClearMac(f.file, mac), if f.cache.Some? then Some(Forgotten(f.cache.value, mac)) else None)
  }

  function PhoneLost(f: Fleet, serial: Serial): Fleet
  {
    var s := Seeded(f);
    if serial in s.cache.value then Release(s, s.cache.value[serial]) else s
  }

  /** A running phone agent and the dongle it uses. */
  datatype Agent = Agent(serial: Serial, mac: Option<Mac>)

  /** The first agent that uses a dongle. */
  function Orphan(agents: seq<Agent>, mac: Mac): (orphan: Option<Serial>)
    ensures orphan.Some? ==> Agent(orphan.value, Some(mac)) in agents
    ensures orphan.None? ==> forall a :: a in agents ==> a.mac != Some(mac)
  {
    if agents == [] then None
    else if agents[0].mac == Some(mac) then Some(agents[0].serial)
    else Orphan(agents[1..], mac)
  }

  /** `agents` are the phone agents that run, whatever they know. */
  function DongleLost(f: Fleet, agents: seq<Agent>, lost: Mac, live: seq<Mac>): Fleet
  {
    var orphan := Orphan(agents, lost);
    if orphan.None? || orphan.value == "" then f
    else
      var spare := FirstFree(live, UsedMacs(f.file, orphan.value));
      if spare.None? then f else SaveDongle(f, orphan.value, spare.value)
  }

  function Restart(f: Fleet): Fleet { Fleet(Purged(f.file), None) }

  // ---- what holds ----

  ghost predicate MacsApart(file: seq<Entry>, s: Serial, t: Serial)
  {
    s != t && MacOf(file, s).Some? ==> MacOf(file, s) != MacOf(file, t)
  }

  ghost predicate IdxApart(file: seq<Entry>, s: Serial, t: Serial)
  {
    s != t && IdxOf(file, s).Some? ==> IdxOf(file, s) != IdxOf(file, t)
  }

  function Lookup(cache: map<Serial, Mac>, serial: Serial): Option<Mac>
  {
    if serial in cache then Some(cache[serial]) else None
  }

  ghost predicate FileOk(file: seq<Entry>)
  {
    && Distinct(file)
    && (forall s, t :: MacsApart(file, s, t))
    && (forall s, t :: IdxApart(file, s, t))
    && forall s :: IdxOf(file, s).Some? ==> !Rejected(s)
  }

  ghost predicate CacheOk(f: Fleet)
  {
    if f.cache.Some? then forall s :: Lookup(f.cache.value, s) == MacOf(f.file, s) else "" !in Serials(f.file)
  }

  ghost predicate Ok(f: Fleet) { FileOk(f.file) && CacheOk(f) }

  // ---- looking things up after a change ----

  lemma {:induction false} NotThere(file: seq<Entry>, serial: Serial)
    requires serial !in Serials(file)
    ensures IdxOf(file, serial) == None && MacOf(file, serial) == None
  {
    if file != [] { NotThere(file[1..], serial); }
  }

  lemma {:induction false} AfterSaveIdx(file: seq<Entry>, serial: Serial, idx: nat, t: Serial)
    ensures IdxOf(SaveIdx(file, serial, idx), t) == if t == serial then Some(idx) else IdxOf(file, t)
    ensures MacOf(SaveIdx(file, serial, idx), t) == MacOf(file, t)
  {
    if file != [] && file[0].serial != serial { AfterSaveIdx(file[1..], serial, idx, t); }
  }

  lemma {:induction false} AfterSaveMac(file: seq<Entry>, serial: Serial, mac: Mac, t: Serial)
    ensures MacOf(SaveMac(file, serial, mac), t) == if t == serial then Some(mac) else MacOf(file, t)
    ensures IdxOf(SaveMac(file, serial, mac), t) == IdxOf(file, t)
  {
    if file != [] && file[0].serial != serial { AfterSaveMac(file[1..], serial, mac, t); }
  }

  lemma {:induction false} SavedSerials(file: seq<Entry>, serial: Serial, idx: nat, mac: Mac)
    ensures Serials(SaveIdx(file, serial, idx)) == Serials(file) + {serial}
    ensures Serials(SaveMac(file, serial, mac)) == Serials(file) + {serial}
    ensures Distinct(file) ==> Distinct(SaveIdx(file, serial, idx)) && Distinct(SaveMac(file, serial, mac))
  {
    if file != [] && file[0].serial != serial { SavedSerials(file[1..], serial, idx, mac); }
  }

  lemma {:induction false} HasMac(file: seq<Entry>, i: nat)
    requires Distinct(file) && i < |file|
    ensures MacOf(file, file[i].serial) == file[i].mac && IdxOf(file, file[i].serial) == file[i].idx
    ensures file[i].serial in Serials(file)
  {
    if i > 0 {
      HasMac(file[1..], i - 1);
      assert file[1..][i - 1] == file[i];
    }
  }

  /** A dongle is taken from at most one phone. */
  lemma {:induction false} AfterClearMac(file: seq<Entry>, mac: Mac, t: Serial)
    requires Distinct(file)
    ensures IdxOf(ClearMac(file, mac), t) == IdxOf(file, t)
    ensures MacOf(ClearMac(file, mac), t) == MacOf(file, t)
         || (MacOf(file, t) == Some(mac) && MacOf(ClearMac(file, mac), t) == None)
    ensures Serials(ClearMac(file, mac)) == Serials(file) && Distinct(ClearMac(file, mac))
  {
    if file != [] {
      AfterClearMac(file[1..], mac, t);
      NotThere(file[1..], file[0].serial);
    }
  }

  /** If only one phone has a dongle, clearing it leaves nobody with it. */
  lemma {:induction false} ClearedMac(file: seq<Entry>, mac: Mac, t: Serial)
    requires Distinct(file) && forall s, u :: MacsApart(file, s, u)
    ensures MacOf(ClearMac(file, mac), t) != Some(mac)
  {
    if file != [] {
      if file[0].mac == Some(mac) {
        assert MacsApart(file, file[0].serial, t);
      } else if t != file[0].serial {
        forall s, u ensures MacsApart(file[1..], s, u) {
          NotThere(file[1..], file[0].serial);
          assert MacsApart(file, s, u);
        }
        ClearedMac(file[1..], mac, t);
      }
    }
  }

  lemma {:induction false} AfterPurge(file: seq<Entry>, t: Serial)
    ensures Serials(Purged(file)) <= Serials(file) && (Distinct(file) ==> Distinct(Purged(file)))
    ensures !Rejected(t) ==> MacOf(Purged(file), t) == MacOf(file, t) && IdxOf(Purged(file), t) == IdxOf(file, t)
    ensures Rejected(t) ==> t !in Serials(Purged(file))
  {
    if file != [] {
      AfterPurge(file[1..], t);
    }
  }

  lemma {:induction false} CachedIs(file: seq<Entry>, s: Serial)
    requires Distinct(file) && "" !in Serials(file)
    ensures Lookup(Cached(file), s) == MacOf(file, s)
  {
    if file != [] {
      CachedIs(file[1..], s);
      NotThere(file[1..], file[0].serial);
    }
  }

  lemma {:induction false} UsedIdxIs(file: seq<Entry>, s: Serial)
    ensures IdxOf(file, s).Some? ==> IdxOf(file, s).value in UsedIdx(file)
  {
    if file != [] && file[0].serial != s { UsedIdxIs(file[1..], s); }
  }

  lemma {:induction false} UsedMacsIs(file: seq<Entry>, but: Serial, s: Serial)
    ensures s != but && MacOf(file, s).Some? ==> MacOf(file, s).value in UsedMacs(file, but)
  {
    if file != [] && file[0].serial != s { UsedMacsIs(file[1..], but, s); }
  }

  // ---- every operation keeps it ----

  lemma AllocateKeeps(f: Fleet, serial: Serial)
    requires Ok(f) && Allocate(f, serial).Some?
    ensures Ok(Allocate(f, serial).value.0)
  {
    var idx := Allocate(f, serial).value.1;
    var file := SaveIdx(f.file, serial, idx);
    SavedSerials(f.file, serial, idx, "");
    forall t ensures MacOf(file, t) == MacOf(f.file, t) { AfterSaveIdx(f.file, serial, idx, t); }
    forall s, t ensures MacsApart(file, s, t) { assert MacsApart(f.file, s, t); }
    forall s ensures IdxOf(file, s).Some? ==> !Rejected(s) { AfterSaveIdx(f.file, serial, idx, s); }
    forall s, t ensures IdxApart(file, s, t) {
      AfterSaveIdx(f.file, serial, idx, s);
      AfterSaveIdx(f.file, serial, idx, t);
      assert IdxApart(f.file, s, t) && IdxApart(f.file, t, s);
      UsedIdxIs(f.file, s);
      UsedIdxIs(f.file, t);
    }
    assert Rejected("");
  }

  lemma SeededKeeps(f: Fleet)
    requires Ok(f)
    ensures Ok(Seeded(f))
  {
    if f.cache.None? {
      forall s ensures Lookup(Cached(f.file), s) == MacOf(f.file, s) { CachedIs(f.file, s); }
    }
  }

  lemma SaveDongleKeeps(f: Fleet, serial: Serial, mac: Mac)
    requires Ok(f) && (f.cache.None? ==> serial != "")
    requires forall s :: s != serial ==> MacOf(f.file, s) != Some(mac)
    ensures Ok(SaveDongle(f, serial, mac))
  {
    var f' := SaveDongle(f, serial, mac);
    SavedSerials(f.file, serial, 0, mac);
    forall t
      ensures MacOf(f'.file, t) == (if t == serial then Some(mac) else MacOf(f.file, t))
      ensures IdxOf(f'.file, t) == IdxOf(f.file, t)
    {
      AfterSaveMac(f.file, serial, mac, t);
    }
    forall s, t ensures MacsApart(f'.file, s, t) { assert MacsApart(f.file, s, t); }
    forall s, t ensures IdxApart(f'.file, s, t) { assert IdxApart(f.file, s, t); }
  }

  lemma AllocateDongleKeeps(f: Fleet, serial: Serial, dongles: seq<Mac>)
    requires Ok(f)
    ensures Ok(AllocateDongle(f, serial, dongles).0)
  {
    SeededKeeps(f);
    var s := Seeded(f);
    var r := AllocateDongle(f, serial, dongles);
    if r.0 != f && r.0 != s {
      var mac := r.1.value;
      forall t | t != serial ensures MacOf(s.file, t) != Some(mac) {
        assert Lookup(s.cache.value, t) == MacOf(s.file, t);
        if t in s.cache.value { assert s.cache.value[t] in TakenBy(s.cache.value, serial); }
      }
      SaveDongleKeeps(s, serial, mac);
    }
  }

  lemma ReleaseKeeps(f: Fleet, mac: Mac)
    requires Ok(f)
    ensures Ok(Release(f, mac))
    ensures forall t :: MacOf(Release(f, mac).file, t) == if MacOf(f.file, t) == Some(mac) then None else MacOf(f.file, t)
  {
    var f' := Release(f, mac);
    forall t ensures IdxOf(f'.file, t) == IdxOf(f.file, t)
             && MacOf(f'.file, t) == if MacOf(f.file, t) == Some(mac) then None else MacOf(f.file, t)
    {
      AfterClearMac(f.file, mac, t);
      ClearedMac(f.file, mac, t);
    }
    AfterClearMac(f.file, mac, "");
    forall s, t ensures MacsApart(f'.file, s, t) { assert MacsApart(f.file, s, t); }
    forall s, t ensures IdxApart(f'.file, s, t) { assert IdxApart(f.file, s, t); }
  }

  lemma DongleLostKeeps(f: Fleet, agents: seq<Agent>, lost: Mac, live: seq<Mac>)
    requires Ok(f)
    ensures Ok(DongleLost(f, agents, lost, live))
  {
    if DongleLost(f, agents, lost, live) != f {
      var orphan := Orphan(agents, lost).value;
      var mac := FirstFree(live, UsedMacs(f.file, orphan)).value;
      forall s | s != orphan ensures MacOf(f.file, s) != Some(mac) { UsedMacsIs(f.file, orphan, s); }
      SaveDongleKeeps(f, orphan, mac);
    }
  }

  lemma RestartKeeps(f: Fleet)
    requires Ok(f)
    ensures Ok(Restart(f)) && forall s :: IdxOf(Restart(f).file, s) == IdxOf(f.file, s)
  {
    var file := Purged(f.file);
    forall t ensures IdxOf(file, t) == IdxOf(f.file, t) && (MacOf(file, t) == MacOf(f.file, t) || MacOf(file, t) == None) {
      AfterPurge(f.file, t);
      if Rejected(t) { NotThere(file, t); }
    }
    AfterPurge(f.file, "");
    assert Rejected("");
    forall s, t ensures MacsApart(file, s, t) { assert MacsApart(f.file, s, t); }
    forall s, t ensures IdxApart(file, s, t) { assert IdxApart(f.file, s, t); }
  }

  // ---- every run ----

  datatype Step =
    | AskPorts(serial: Serial)
    | AskDongle(serial: Serial, dongles: seq<Mac>)
    | LosePhone(serial: Serial)
    | LoseDongle(agents: seq<Agent>, lost: Mac, live: seq<Mac>)
    | RestartAgent

  ghost function Next(f: Fleet, step: Step): Fleet
  {
    match step
    case AskPorts(serial) => if Allocate(f, serial).Some? then Allocate(f, serial).value.0 else f
    case AskDongle(serial, dongles) => AllocateDongle(f, serial, dongles).0
    case LosePhone(serial) => PhoneLost(f, serial)
    case LoseDongle(agents, lost, live) => DongleLost(f, agents, lost, live)
    case RestartAgent => Restart(f)
  }

  lemma PhoneLostKeeps(f: Fleet, serial: Serial)
    requires Ok(f)
    ensures Ok(PhoneLost(f, serial)) && MacOf(PhoneLost(f, serial).file, serial) == None
    ensures forall s :: IdxOf(PhoneLost(f, serial).file, s) == IdxOf(f.file, s)
  {
    SeededKeeps(f);
    var s := Seeded(f);
    assert Lookup(s.cache.value, serial) == MacOf(s.file, serial);
    if serial in s.cache.value {
      var mac := s.cache.value[serial];
      ReleaseKeeps(s, mac);
      forall t ensures IdxOf(Release(s, mac).file, t) == IdxOf(f.file, t) { AfterClearMac(s.file, mac, t); }
    }
  }

  lemma StepKeeps(f: Fleet, step: Step)
    requires Ok(f)
    ensures Ok(Next(f, step))
  {
    match step
    case AskPorts(serial) => if Allocate(f, serial).Some? { AllocateKeeps(f, serial); }
    case AskDongle(serial, dongles) => AllocateDongleKeeps(f, serial, dongles);
    case LosePhone(serial) => PhoneLostKeeps(f, serial);
    case LoseDongle(agents, lost, live) => DongleLostKeeps(f, agents, lost, live);
    case RestartAgent => RestartKeeps(f);
  }

  /** An index, once given, stays. */
  lemma IdxStays(f: Fleet, step: Step, s: Serial)
    requires Ok(f) && IdxOf(f.file, s).Some?
    ensures IdxOf(Next(f, step).file, s) == IdxOf(f.file, s)
  {
    match step
    case AskPorts(serial) =>
      if Allocate(f, serial).Some? { AfterSaveIdx(f.file, serial, Allocate(f, serial).value.1, s); }
    case AskDongle(serial, dongles) =>
      var mac := AllocateDongle(f, serial, dongles).1;
      if mac.Some? { AfterSaveMac(f.file, serial, mac.value, s); }
    case LosePhone(serial) => PhoneLostKeeps(f, serial);
    case LoseDongle(agents, lost, live) =>
      if DongleLost(f, agents, lost, live) != f {
        var orphan := Orphan(agents, lost).value;
        AfterSaveMac(f.file, orphan, FirstFree(live, UsedMacs(f.file, orphan)).value, s);
      }
    case RestartAgent => RestartKeeps(f);
  }

  ghost function After(f: Fleet, steps: seq<Step>): Fleet
    decreases |steps|
  {
    if steps == [] then f else After(Next(f, steps[0]), steps[1..])
  }

  lemma {:induction false} RunKeeps(f: Fleet, steps: seq<Step>)
    requires Ok(f)
    ensures Ok(After(f, steps))
    ensures forall s :: IdxOf(f.file, s).Some? ==> IdxOf(After(f, steps).file, s) == IdxOf(f.file, s)
    decreases |steps|
  {
    if steps != [] {
      var f' := Next(f, steps[0]);
      StepKeeps(f, steps[0]);
      RunKeeps(f', steps[1..]);
      forall s | IdxOf(f.file, s).Some? ensures IdxOf(After(f, steps).file, s) == IdxOf(f.file, s) {
        IdxStays(f, steps[0], s);
      }
    }
  }

  /** In every run, from an empty file: no two phones share an index or a dongle, the file holds
      each phone once, and the cache, once filled, says what the file says. */
  lemma NothingIsShared(steps: seq<Step>, s: Serial, t: Serial)
    ensures var f := After(INIT, steps);
            && Distinct(f.file)
            && (s != t && MacOf(f.file, s).Some? ==> MacOf(f.file, s) != MacOf(f.file, t))
            && (s != t && IdxOf(f.file, s).Some? ==> IdxOf(f.file, s) != IdxOf(f.file, t))
            && (f.cache.Some? ==> Lookup(f.cache.value, s) == MacOf(f.file, s))
  {
    RunKeeps(INIT, steps);
    var f := After(INIT, steps);
    assert MacsApart(f.file, s, t) && IdxApart(f.file, s, t);
  }

  lemma {:induction false} AfterThen(f: Fleet, steps: seq<Step>, more: seq<Step>)
    ensures After(f, steps + more) == After(After(f, steps), more)
    decreases |steps|
  {
    if steps == [] {
      assert steps + more == more;
    } else {
      assert (steps + more)[1..] == steps[1..] + more;
      AfterThen(Next(f, steps[0]), steps[1..], more);
    }
  }

  /** A phone's index never changes, whatever happens after it was given. */
  lemma IndexIsForLife(steps: seq<Step>, more: seq<Step>, serial: Serial)
    requires IdxOf(After(INIT, steps).file, serial).Some?
    ensures IdxOf(After(INIT, steps + more).file, serial) == IdxOf(After(INIT, steps).file, serial)
  {
    RunKeeps(INIT, steps);
    RunKeeps(After(INIT, steps), more);
    AfterThen(INIT, steps, more);
  }

  /** Some socket port of one phone is one of another's; a display number is no port. */
  predicate Clash(p: Ports, q: Ports)
  {
    var ports := {q.snapshot, q.internal, q.vnc};
    p.snapshot in ports || p.internal in ports || p.vnc in ports
  }

  /** In every run two phones have different ports and displays of each kind; a port of one kind is
      the other's of another kind exactly when their indices are 1,010, 2,181 or 3,191 apart, so
      never with at most 1,010 indices given. */
  lemma PortsClashIff(steps: seq<Step>, s: Serial, t: Serial)
    requires s != t && IdxOf(After(INIT, steps).file, s).Some? && IdxOf(After(INIT, steps).file, t).Some?
    ensures var i, j := IdxOf(After(INIT, steps).file, s).value, IdxOf(After(INIT, steps).file, t).value;
            var p, q := PortsAt(i), PortsAt(j);
            && p.snapshot != q.snapshot && p.internal != q.internal && p.display != q.display && p.vnc != q.vnc
            && (Clash(p, q) <==> i - j in {1010, -1010, 2181, -2181, 3191, -3191})
  {
    NothingIsShared(steps, s, t);
    hide After, IdxOf;
  }

  /** A new index is the least that no phone has. */
  lemma NewIndexIsLeast(f: Fleet, serial: Serial)
    requires Ok(f) && Allocate(f, serial).Some? && IdxOf(f.file, serial).None?
    ensures var idx := Allocate(f, serial).value.1;
            && (forall s :: IdxOf(f.file, s) != Some(idx))
            && (forall k :: 0 <= k < idx ==> HasIdx(f.file, k))
  {
    var idx := Allocate(f, serial).value.1;
    forall s ensures IdxOf(f.file, s) != Some(idx) { UsedIdxIs(f.file, s); }
    forall k | 0 <= k < idx ensures HasIdx(f.file, k) {
      assert k in UsedIdx(f.file);
      var i := IdxFrom(f.file, k);
      HasMac(f.file, i);
      assert IdxOf(f.file, f.file[i].serial) == Some(k);
    }
  }

  ghost predicate HasIdx(file: seq<Entry>, k: nat) { exists s :: IdxOf(file, s) == Some(k) }

  ghost predicate FreeFor(file: seq<Entry>, serial: Serial, mac: Mac)
  {
    forall s :: s != serial ==> MacOf(file, s) != Some(mac)
  }

  /** A phone gets a dongle exactly when one of those plugged in is no other phone's, and keeps
      the one it has if that is plugged in. */
  lemma GetsDongleIff(f: Fleet, serial: Serial, dongles: seq<Mac>)
    requires Ok(f)
    ensures var (f', mac) := AllocateDongle(f, serial, dongles);
            && (mac.Some? <==> exists d :: d in dongles && FreeFor(f.file, serial, d))
            && (mac.Some? ==> mac.value in dongles && MacOf(f'.file, serial) == mac)
            && (MacOf(f.file, serial).Some? && MacOf(f.file, serial).value in dongles ==> mac == MacOf(f.file, serial))
  {
    SeededKeeps(f);
    AllocateDongleKeeps(f, serial, dongles);
    var s := Seeded(f);
    var (f', mac) := AllocateDongle(f, serial, dongles);
    assert Lookup(s.cache.value, serial) == MacOf(f.file, serial);
    forall d | d in dongles && FreeFor(f.file, serial, d) ensures d !in TakenBy(s.cache.value, serial) {
      forall t | t in s.cache.value && t != serial ensures s.cache.value[t] != d {
        assert Lookup(s.cache.value, t) == MacOf(f.file, t);
      }
    }
    if mac.Some? {
      if f' == s {
        forall t | t != serial ensures MacOf(f.file, t) != mac { assert MacsApart(f.file, serial, t); }
      } else {
        AfterSaveMac(f.file, serial, mac.value, serial);
        forall t | t != serial ensures MacOf(f.file, t) != mac {
          assert Lookup(s.cache.value, t) == MacOf(f.file, t);
          if t in s.cache.value { assert s.cache.value[t] in TakenBy(s.cache.value, serial); }
        }
      }
      assert FreeFor(f.file, serial, mac.value);
    }
  }

  lemma {:induction false} MacFrom(file: seq<Entry>, but: Serial, mac: Mac) returns (i: nat)
    requires mac in UsedMacs(file, but)
    ensures i < |file| && file[i].mac == Some(mac) && file[i].serial != but
  {
    if file[0].mac == Some(mac) && file[0].serial != but {
      i := 0;
    } else {
      i := MacFrom(file[1..], but, mac);
      i := i + 1;
    }
  }

  /** The phone of a lost dongle gets a live one that is no other phone's, exactly when there is
      one; otherwise nothing changes. */
  lemma ReassignedIff(f: Fleet, agents: seq<Agent>, lost: Mac, live: seq<Mac>, orphan: Serial)
    requires Ok(f) && Orphan(agents, lost) == Some(orphan) && orphan != ""
    ensures var f' := DongleLost(f, agents, lost, live);
            if exists d :: d in live && FreeFor(f.file, orphan, d)
            then MacOf(f'.file, orphan).Some? && MacOf(f'.file, orphan).value in live && FreeFor(f'.file, orphan, MacOf(f'.file, orphan).value)
            else f' == f
  {
    var used := UsedMacs(f.file, orphan);
    forall d ensures d in used <==> !FreeFor(f.file, orphan, d) {
      if d in used {
        var i := MacFrom(f.file, orphan, d);
        HasMac(f.file, i);
      } else {
        forall s | s != orphan ensures MacOf(f.file, s) != Some(d) { UsedMacsIs(f.file, orphan, s); }
      }
    }
    var spare := FirstFree(live, used);
    if spare.Some? {
      var file := SaveMac(f.file, orphan, spare.value);
      forall s ensures MacOf(file, s) == if s == orphan then spare else MacOf(f.file, s) { AfterSaveMac(f.file, orphan, spare.value, s); }
    }
  }

  /** A lost phone has no claim on its dongle, which is then free for anyone. */
  lemma LostPhoneFreesDongle(f: Fleet, serial: Serial, mac: Mac, other: Serial)
    requires Ok(f) && MacOf(f.file, serial) == Some(mac)
    ensures MacOf(PhoneLost(f, serial).file, serial) == None
    ensures FreeFor(PhoneLost(f, serial).file, other, mac)
  {
    SeededKeeps(f);
    var s := Seeded(f);
    assert Lookup(s.cache.value, serial) == MacOf(s.file, serial);
    ReleaseKeeps(s, mac);
  }

  lemma {:induction false} IdxFrom(file: seq<Entry>, k: nat) returns (i: nat)
    requires k in UsedIdx(file)
    ensures i < |file| && file[i].idx == Some(k)
  {
    if file[0].idx == Some(k) {
      i := 0;
    } else {
      i := IdxFrom(file[1..], k);
      i := i + 1;
    }
  }

  // ---- what each operation does to each phone ----

  /** The first dongle of a list that is no other phone's. */
  ghost predicate IsFirstFree(file: seq<Entry>, serial: Serial, dongles: seq<Mac>, mac: Option<Mac>)
  {
    if exists d :: d in dongles && FreeFor(file, serial, d)
    then exists i :: 0 <= i < |dongles| && mac == Some(dongles[i]) && FreeFor(file, serial, dongles[i])
                     && forall j :: 0 <= j < i ==> !FreeFor(file, serial, dongles[j])
    else mac == MacOf(file, serial)
  }

  /** The first agent in the list that uses a dongle is this phone's. */
  ghost predicate UsedFirst(agents: seq<Agent>, mac: Mac, serial: Serial)
  {
    exists i :: 0 <= i < |agents| && agents[i] == Agent(serial, Some(mac)) && forall j :: 0 <= j < i ==> agents[j].mac != Some(mac)
  }

  /** Only a phone that asks gets a dongle: it keeps the one it has if that is plugged in, or
      gets the first that is no other phone's. A lost phone has none, the first phone to use a
      lost dongle gets the first live one that is no other phone's, and a purged one has none. */
  ghost predicate MacMoves(f: Fleet, step: Step, f': Fleet, s: Serial)
  {
    match step
    case AskPorts(_) => MacOf(f'.file, s) == MacOf(f.file, s)
    case AskDongle(serial, dongles) =>
      if s != serial || (MacOf(f.file, s).Some? && MacOf(f.file, s).value in dongles) then MacOf(f'.file, s) == MacOf(f.file, s)
      else IsFirstFree(f.file, s, dongles, MacOf(f'.file, s))
    case LosePhone(serial) => MacOf(f'.file, s) == if s == serial then None else MacOf(f.file, s)
    case LoseDongle(agents, lost, live) =>
      if s != "" && UsedFirst(agents, lost, s) then IsFirstFree(f.file, s, live, MacOf(f'.file, s))
      else MacOf(f'.file, s) == MacOf(f.file, s)
    case RestartAgent => MacOf(f'.file, s) == if Rejected(s) then None else MacOf(f.file, s)
  }

  lemma {:induction false} FirstFreeAt(dongles: seq<Mac>, used: set<Mac>) returns (i: nat)
    requires FirstFree(dongles, used).Some?
    ensures i < |dongles| && FirstFree(dongles, used).value == dongles[i] && forall j :: 0 <= j < i ==> dongles[j] in used
  {
    if dongles[0] !in used {
      i := 0;
    } else {
      i := FirstFreeAt(dongles[1..], used);
      i := i + 1;
      assert forall j :: 0 < j < i ==> dongles[j] == dongles[1..][j - 1];
    }
  }

  lemma FreeIsFirst(file: seq<Entry>, serial: Serial, dongles: seq<Mac>, used: set<Mac>)
    requires forall d :: d in used <==> !FreeFor(file, serial, d)
    ensures var free := FirstFree(dongles, used);
            IsFirstFree(file, serial, dongles, if free.Some? then free else MacOf(file, serial))
  {
    if FirstFree(dongles, used).Some? { var i := FirstFreeAt(dongles, used); }
  }

  lemma TakenAre(f: Fleet, serial: Serial)
    requires Ok(f) && f.cache.Some?
    ensures forall d :: d in TakenBy(f.cache.value, serial) <==> !FreeFor(f.file, serial, d)
  {
    var taken := TakenBy(f.cache.value, serial);
    forall d ensures d in taken <==> !FreeFor(f.file, serial, d) {
      if d in taken {
        var t :| t in f.cache.value && t != serial && f.cache.value[t] == d;
        assert Lookup(f.cache.value, t) == MacOf(f.file, t);
      } else {
        forall t | t != serial ensures MacOf(f.file, t) != Some(d) { assert Lookup(f.cache.value, t) == MacOf(f.file, t); }
      }
    }
  }

  lemma AskDongleMoves(f: Fleet, serial: Serial, dongles: seq<Mac>, s: Serial)
    requires Ok(f)
    ensures MacMoves(f, AskDongle(serial, dongles), AllocateDongle(f, serial, dongles).0, s)
  {
    SeededKeeps(f);
    var r := Seeded(f);
    TakenAre(r, serial);
    FreeIsFirst(f.file, serial, dongles, TakenBy(r.cache.value, serial));
    assert Lookup(r.cache.value, serial) == MacOf(r.file, serial);
    var mac := AllocateDongle(f, serial, dongles).1;
    if mac.Some? { AfterSaveMac(f.file, serial, mac.value, s); }
    hide Ok, FreeFor, Seeded;
  }

  lemma UsedAre(file: seq<Entry>, serial: Serial)
    requires Distinct(file)
    ensures forall d :: d in UsedMacs(file, serial) <==> !FreeFor(file, serial, d)
  {
    forall d ensures d in UsedMacs(file, serial) <==> !FreeFor(file, serial, d) {
      if d in UsedMacs(file, serial) {
        var i := MacFrom(file, serial, d);
        HasMac(file, i);
      } else {
        forall s | s != serial ensures MacOf(file, s) != Some(d) { UsedMacsIs(file, serial, s); }
      }
    }
  }

  lemma {:induction false} OrphanIs(agents: seq<Agent>, mac: Mac, s: Serial)
    ensures Orphan(agents, mac) == Some(s) <==> UsedFirst(agents, mac, s)
  {
    if agents != [] {
      var rest := agents[1..];
      OrphanIs(rest, mac, s);
      if agents[0].mac == Some(mac) {
        assert agents[0] == Agent(agents[0].serial, Some(mac));
      } else {
        if UsedFirst(rest, mac, s) {
          var i :| 0 <= i < |rest| && rest[i] == Agent(s, Some(mac)) && forall j :: 0 <= j < i ==> rest[j].mac != Some(mac);
          assert agents[i + 1] == Agent(s, Some(mac));
          forall j | 0 <= j < i + 1 ensures agents[j].mac != Some(mac) { if j > 0 { assert agents[j] == rest[j - 1]; } }
        }
        if UsedFirst(agents, mac, s) {
          var i :| 0 <= i < |agents| && agents[i] == Agent(s, Some(mac)) && forall j :: 0 <= j < i ==> agents[j].mac != Some(mac);
          assert rest[i - 1] == Agent(s, Some(mac));
          forall j | 0 <= j < i - 1 ensures rest[j].mac != Some(mac) { assert rest[j] == agents[j + 1]; }
        }
      }
    }
  }

  lemma LoseDongleMoves(f: Fleet, agents: seq<Agent>, lost: Mac, live: seq<Mac>, s: Serial)
    requires Ok(f)
    ensures MacMoves(f, LoseDongle(agents, lost, live), DongleLost(f, agents, lost, live), s)
  {
    OrphanIs(agents, lost, s);
    UsedAre(f.file, s);
    FreeIsFirst(f.file, s, live, UsedMacs(f.file, s));
    var orphan := Orphan(agents, lost);
    if orphan.Some? {
      var spare := FirstFree(live, UsedMacs(f.file, orphan.value));
      if spare.Some? { AfterSaveMac(f.file, orphan.value, spare.value, s); }
    }
    hide Ok, FreeFor, UsedFirst;
  }

  lemma LosePhoneMoves(f: Fleet, serial: Serial, s: Serial)
    requires Ok(f)
    ensures MacMoves(f, LosePhone(serial), PhoneLost(f, serial), s)
  {
    SeededKeeps(f);
    PhoneLostKeeps(f, serial);
    var r := Seeded(f);
    assert Lookup(r.cache.value, serial) == MacOf(r.file, serial);
    if serial in r.cache.value {
      ReleaseKeeps(r, r.cache.value[serial]);
      assert MacsApart(f.file, serial, s);
    }
  }

  /** What every operation does to every phone's dongle and ports. */
  lemma EveryPhoneMoves(f: Fleet, step: Step, s: Serial)
    requires Ok(f)
    ensures MacMoves(f, step, Next(f, step), s)
    ensures IdxOf(Next(f, step).file, s) ==
              if step.AskPorts? && step.serial == s && IdxOf(f.file, s).None? && !Rejected(s)
              then Some(Allocate(f, s).value.1) else IdxOf(f.file, s)
  {
    match step
    case AskPorts(serial) =>
      if Allocate(f, serial).Some? { AfterSaveIdx(f.file, serial, Allocate(f, serial).value.1, s); }
    case AskDongle(serial, dongles) =>
      AskDongleMoves(f, serial, dongles, s);
      var mac := AllocateDongle(f, serial, dongles).1;
      if mac.Some? { AfterSaveMac(f.file, serial, mac.value, s); }
    case LosePhone(serial) => LosePhoneMoves(f, serial, s); PhoneLostKeeps(f, serial);
    case LoseDongle(agents, lost, live) =>
      LoseDongleMoves(f, agents, lost, live, s);
      if DongleLost(f, agents, lost, live) != f {
        var orphan := Orphan(agents, lost).value;
        AfterSaveMac(f.file, orphan, FirstFree(live, UsedMacs(f.file, orphan)).value, s);
      }
    case RestartAgent =>
      RestartKeeps(f);
      AfterPurge(f.file, s);
      if Rejected(s) { NotThere(Purged(f.file), s); }
  }

  /** A word in capitals, whatever the case it is written in. */
  predicate Reads(s: string, word: string)
  {
    |s| == |word| && forall i :: 0 <= i < |s| ==> s[i] == word[i] || ('a' <= s[i] <= 'z' && s[i] - 'a' + 'A' == word[i])
  }

  /** The serials that are turned away: none, a test fixture's name in any case, or anything that
      ends in "abc" in any case. */
  lemma RejectedIs(serial: Serial)
    ensures Rejected(serial) <==>
      serial == "" || Reads(serial, "TEST") || Reads(serial, "FAKE") || Reads(serial, "PHANTOM")
      || (|serial| >= 3 && Reads(serial[|serial| - 3..], "ABC"))
  {
    UpperReads(serial, "TEST");
    UpperReads(serial, "FAKE");
    UpperReads(serial, "PHANTOM");
    if |serial| >= 3 {
      UpperReads(serial[|serial| - 3..], "ABC");
      UpperEnd(serial, |serial| - 3);
    }
    hide Reads;
  }

  lemma {:induction false} UpperAt(s: string, i: nat)
    requires i < |s|
    ensures Upper(s)[i] == if 'a' <= s[i] <= 'z' then s[i] - 'a' + 'A' else s[i]
  {
    if i > 0 { UpperAt(s[1..], i - 1); }
  }

  lemma UpperReads(s: string, word: string)
    requires forall i :: 0 <= i < |word| ==> 'A' <= word[i] <= 'Z'
    ensures Upper(s) == word <==> Reads(s, word)
  {
    if |s| == |word| {
      forall i | 0 <= i < |s|
        ensures Upper(s)[i] == word[i] <==> s[i] == word[i] || ('a' <= s[i] <= 'z' && s[i] - 'a' + 'A' == word[i])
      {
        UpperAt(s, i);
      }
    }
  }

  lemma {:induction false} UpperEnd(s: string, i: nat)
    requires i <= |s|
    ensures Upper(s)[i..] == Upper(s[i..])
  {
    if i > 0 {
      UpperEnd(s[1..], i - 1);
      assert s[1..][i - 1..] == s[i..] && Upper(s)[1..] == Upper(s[1..]);
      assert Upper(s)[i..] == Upper(s)[1..][i - 1..];
    } else {
      assert s[0..] == s;
    }
  }

  // ---- the agent's files ----

  lemma FirstThenRest(file: seq<Entry>, i: nat, tail: seq<Entry>)
    requires 0 < i <= |file|
    ensures file[1..][i - 1..] == file[i..]
    ensures [file[0]] + (file[1..][..i - 1] + tail) == file[..i] + tail
  {
  }

  lemma {:induction false} SaveIdxFrom(file: seq<Entry>, serial: Serial, idx: nat, i: nat)
    requires i <= |file| && forall j :: 0 <= j < i ==> file[j].serial != serial
    ensures SaveIdx(file, serial, idx) == file[..i] + SaveIdx(file[i..], serial, idx)
  {
    if i == 0 {
      assert file[0..] == file;
    } else {
      var rest := file[1..];
      assert forall j :: 0 <= j < i - 1 ==> rest[j] == file[j + 1];
      SaveIdxFrom(rest, serial, idx, i - 1);
      FirstThenRest(file, i, SaveIdx(file[i..], serial, idx));
    }
  }

  lemma {:induction false} SaveMacFrom(file: seq<Entry>, serial: Serial, mac: Mac, i: nat)
    requires i <= |file| && forall j :: 0 <= j < i ==> file[j].serial != serial
    ensures SaveMac(file, serial, mac) == file[..i] + SaveMac(file[i..], serial, mac)
  {
    if i == 0 {
      assert file[0..] == file;
    } else {
      var rest := file[1..];
      assert forall j :: 0 <= j < i - 1 ==> rest[j] == file[j + 1];
      SaveMacFrom(rest, serial, mac, i - 1);
      FirstThenRest(file, i, SaveMac(file[i..], serial, mac));
    }
  }

  lemma {:induction false} ClearFrom(file: seq<Entry>, mac: Mac, i: nat)
    requires i <= |file| && forall j :: 0 <= j < i ==> file[j].mac != Some(mac)
    ensures ClearMac(file, mac) == file[..i] + ClearMac(file[i..], mac)
  {
    if i == 0 {
      assert file[0..] == file;
    } else {
      var rest := file[1..];
      assert forall j :: 0 <= j < i - 1 ==> rest[j] == file[j + 1];
      ClearFrom(rest, mac, i - 1);
      FirstThenRest(file, i, ClearMac(file[i..], mac));
    }
  }

  lemma {:induction false} SavedMacAt(file: seq<Entry>, serial: Serial, mac: Mac, i: nat)
    requires i <= |file| && (forall j :: 0 <= j < i ==> file[j].serial != serial) && (i < |file| ==> file[i].serial == serial)
    ensures SaveMac(file, serial, mac)
         == if i < |file| then file[i := file[i].(mac := Some(mac))] else file + [Entry(serial, None, Some(mac))]
  {
    SaveMacFrom(file, serial, mac, i);
    if i < |file| {
      assert file[..i] + ([file[i].(mac := Some(mac))] + file[i..][1..]) == file[i := file[i].(mac := Some(mac))];
    }
  }

  lemma {:induction false} ClearedAt(file: seq<Entry>, mac: Mac, i: nat)
    requires i <= |file| && (forall j :: 0 <= j < i ==> file[j].mac != Some(mac)) && (i < |file| ==> file[i].mac == Some(mac))
    ensures ClearMac(file, mac) == if i < |file| then file[i := file[i].(mac := None)] else file
  {
    ClearFrom(file, mac, i);
    if i < |file| {
      assert file[..i] + ([file[i].(mac := None)] + file[i..][1..]) == file[i := file[i].(mac := None)];
    } else {
      assert file[..i] + [] == file;
    }
  }

  lemma PurgeFirst(file: seq<Entry>, i: nat)
    requires i < |file|
    ensures Purged(file[i..]) == (if Rejected(file[i].serial) then [] else [file[i]]) + Purged(file[i + 1..])
  {
    assert file[i..][1..] == file[i + 1..];
  }

  /** The search for the next free index; it ends because the used ones are finitely many. */
  method FindIdx(used: set<nat>) returns (idx: nat)
    ensures idx == LeastFree(used)
  {
    ghost var free := SomeFree(used, 0);
    idx := 0;
    while idx in used
      invariant idx <= free && forall k :: 0 <= k < idx ==> k in used
      decreases free - idx
    {
      idx := idx + 1;
    }
  }

  class FleetFiles {
    var file: seq<Entry>
    var cache: Option<map<Serial, Mac>>

    ghost function State(): Fleet
      reads this
    {
      Fleet(file, cache)
    }

    constructor ()
      ensures State() == INIT
    {
      file, cache := [], None;
    }

    method SaveAssignment(serial: Serial, idx: nat)
      modifies this`file
      ensures file == SaveIdx(old(file), serial, idx)
    {
      var i := 0;
      while i < |file| && file[i].serial != serial
        invariant 0 <= i <= |file| && forall j :: 0 <= j < i ==> file[j].serial != serial
        modifies {}
      {
        i := i + 1;
      }
      SaveIdxFrom(file, serial, idx, i);
      if i < |file| {
        assert file[..i] + ([file[i].(idx := Some(idx))] + file[i..][1..]) == file[i := file[i].(idx := Some(idx))];
        file := file[i := file[i].(idx := Some(idx))];
      } else {
        file := file + [Entry(serial, Some(idx), None)];
      }
    }

    /** None: the serial is rejected. */
    method AllocatePorts(serial: Serial) returns (ports: Option<Ports>)
      modifies this`file
      ensures Allocate(old(State()), serial).None? ==> ports.None? && file == old(file)
      ensures Allocate(old(State()), serial).Some? ==>
                && State() == Allocate(old(State()), serial).value.0
                && ports == Some(PortsAt(Allocate(old(State()), serial).value.1))
    {
      if Rejected(serial) { return None; }
      var saved := IdxOf(file, serial);
      var idx;
      if saved.Some? { idx := saved.value; } else { idx := FindIdx(UsedIdx(file)); }
      SaveAssignment(serial, idx);
      ports := Some(PortsAt(idx));
    }

    method SeedCache()
      modifies this`cache
      ensures State() == Seeded(old(State()))
    {
      if cache.None? { cache := Some(Cached(file)); }
    }

    method SaveDongleAssignment(serial: Serial, mac: Mac)
      modifies this
      ensures State() == SaveDongle(old(State()), serial, mac)
    {
      if cache.Some? { cache := Some(cache.value[serial := mac]); }
      var i := 0;
      while i < |file| && file[i].serial != serial
        invariant 0 <= i <= |file| && forall j :: 0 <= j < i ==> file[j].serial != serial
        modifies {}
      {
        i := i + 1;
      }
      SavedMacAt(file, serial, mac, i);
      if i < |file| {
        file := file[i := file[i].(mac := Some(mac))];
      } else {
        file := file + [Entry(serial, None, Some(mac))];
      }
    }

    method PickFree(dongles: seq<Mac>, used: set<Mac>) returns (mac: Option<Mac>)
      ensures mac == FirstFree(dongles, used)
    {
      for i := 0 to |dongles|
        invariant FirstFree(dongles, used) == FirstFree(dongles[i..], used)
      {
        assert dongles[i..][1..] == dongles[i + 1..];
        if dongles[i] !in used { return Some(dongles[i]); }
      }
      mac := None;
    }

    method AllocateADongle(serial: Serial, dongles: seq<Mac>) returns (mac: Option<Mac>)
      modifies this
      ensures (State(), mac) == AllocateDongle(old(State()), serial, dongles)
    {
      if dongles == [] { return None; }
      SeedCache();
      if serial in cache.value && cache.value[serial] in dongles { return Some(cache.value[serial]); }
      mac := PickFree(dongles, TakenBy(cache.value, serial));
      if mac.Some? { SaveDongleAssignment(serial, mac.value); }
    }

    method ReleaseDongle(mac: Mac)
      modifies this
      ensures State() == Release(old(State()), mac)
    {
      if cache.Some? { cache := Some(Forgotten(cache.value, mac)); }
      var i := 0;
      while i < |file| && file[i].mac != Some(mac)
        invariant 0 <= i <= |file| && forall j :: 0 <= j < i ==> file[j].mac != Some(mac)
        modifies {}
      {
        i := i + 1;
      }
      ClearedAt(file, mac, i);
      if i < |file| { file := file[i := file[i].(mac := None)]; }
    }

    method HandlePhoneLost(serial: Serial)
      modifies this
      ensures State() == PhoneLost(old(State()), serial)
    {
      SeedCache();
      if serial in cache.value { ReleaseDongle(cache.value[serial]); }
    }

    method HandleDongleLost(agents: seq<Agent>, lost: Mac, live: seq<Mac>)
      modifies this
      ensures State() == DongleLost(old(State()), agents, lost, live)
    {
      var i := 0;
      while i < |agents| && agents[i].mac != Some(lost)
        invariant 0 <= i <= |agents| && Orphan(agents, lost) == Orphan(agents[i..], lost)
        modifies {}
      {
        assert agents[i..][1..] == agents[i + 1..];
        i := i + 1;
      }
      if i == |agents| || agents[i].serial == "" { return; }
      var spare := PickFree(live, UsedMacs(file, agents[i].serial));
      if spare.Some? { SaveDongleAssignment(agents[i].serial, spare.value); }
    }

    /** A new process: the file is cleaned and the cache is empty. */
    method Reopen()
      modifies this
      ensures State() == Restart(old(State()))
    {
      var kept := [];
      for i := 0 to |file|
        invariant Purged(file) == kept + Purged(file[i..])
        modifies {}
      {
        PurgeFirst(file, i);
        if !Rejected(file[i].serial) { kept := kept + [file[i]]; }
      }
      file, cache := kept, None;
    }
  }
}
