/** phones.json as the server keeps it (phone.rs): cleaned of duplicates when loaded, and merged
    with what other processes wrote when saved. Loading and saving are one step each. */
module Phones {
  import opened Wrappers
  import opened Text

  /** `rest` stands for the other fields. */
  datatype Phone = Phone(id: string, serial: string, rest: string)

  /** Registry ids are "phone-" and digits; local ones aren't. */
  predicate IsRegistryId(id: string)
  {
    var n := After(id, "phone-");
    n.Some? && n.value != "" && DigitRun(n.value) == |n.value|
  }

  predicate HasLocal(phones: seq<Phone>, serial: string)
  {
    serial != "" && exists i :: 0 <= i < |phones| && phones[i].serial == serial && !IsRegistryId(phones[i].id)
  }

  /** A registry-style entry of a phone that also has a local one. */
  predicate IsDuplicate(all: seq<Phone>, p: Phone) { IsRegistryId(p.id) && HasLocal(all, p.serial) }

  function Kept(phones: seq<Phone>, all: seq<Phone>): seq<Phone>
  {
    if phones == [] then []
    else if IsDuplicate(all, phones[|phones| - 1]) then Kept(phones[..|phones| - 1], all)
    else Kept(phones[..|phones| - 1], all) + [phones[|phones| - 1]]
  }

  function Cleaned(disk: seq<Phone>): seq<Phone> { Kept(disk, disk) }

  predicate Knows(phones: seq<Phone>, serial: string) { exists i :: 0 <= i < |phones| && phones[i].serial == serial }

  /** The disk's entries that memory doesn't know. */
  function Others(phones: seq<Phone>, disk: seq<Phone>): seq<Phone>
  {
    if disk == [] then []
    else
      var p := disk[|disk| - 1];
      if p.serial != "" && !Knows(phones, p.serial) then Others(phones, disk[..|disk| - 1]) + [p]
      else Others(phones, disk[..|disk| - 1])
  }

  function Merged(phones: seq<Phone>, disk: seq<Phone>): seq<Phone> { phones + Others(phones, disk) }

  // ---- what cleaning does ----

  lemma {:induction false} KeptIs(phones: seq<Phone>, all: seq<Phone>, p: Phone)
    ensures p in Kept(phones, all) <==> p in phones && !IsDuplicate(all, p)
  {
    if phones != [] {
      var n := |phones| - 1;
      KeptIs(phones[..n], all, p);
      assert phones == phones[..n] + [phones[n]];
    }
  }

  /** Nothing dropped: nothing changed. */
  lemma {:induction false} KeptLength(phones: seq<Phone>, all: seq<Phone>)
    ensures |Kept(phones, all)| <= |phones|
    ensures |Kept(phones, all)| == |phones| ==> Kept(phones, all) == phones
  {
    if phones != [] {
      var n := |phones| - 1;
      KeptLength(phones[..n], all);
      assert phones == phones[..n] + [phones[n]];
    }
  }

  lemma LocalStays(disk: seq<Phone>, serial: string)
    ensures HasLocal(Cleaned(disk), serial) <==> HasLocal(disk, serial)
  {
    if HasLocal(disk, serial) {
      var i :| 0 <= i < |disk| && disk[i].serial == serial && !IsRegistryId(disk[i].id);
      KeptIs(disk, disk, disk[i]);
      var j :| 0 <= j < |Cleaned(disk)| && Cleaned(disk)[j] == disk[i];
      assert Cleaned(disk)[j].serial == serial;
    }
    if HasLocal(Cleaned(disk), serial) {
      var j :| 0 <= j < |Cleaned(disk)| && Cleaned(disk)[j].serial == serial && !IsRegistryId(Cleaned(disk)[j].id);
      KeptIs(disk, disk, Cleaned(disk)[j]);
    }
  }

  /** No duplicate is left, and cleaning again changes nothing. */
  lemma CleanedIsClean(disk: seq<Phone>)
    ensures forall p :: p in Cleaned(disk) ==> !IsDuplicate(Cleaned(disk), p)
    ensures Cleaned(Cleaned(disk)) == Cleaned(disk)
  {
    forall p | p in Cleaned(disk) ensures !IsDuplicate(Cleaned(disk), p) {
      KeptIs(disk, disk, p);
      LocalStays(disk, p.serial);
    }
    KeptAll(Cleaned(disk), Cleaned(disk));
  }

  lemma {:induction false} KeptAll(phones: seq<Phone>, all: seq<Phone>)
    requires forall p :: p in phones ==> !IsDuplicate(all, p)
    ensures Kept(phones, all) == phones
  {
    if phones != [] {
      var n := |phones| - 1;
      KeptAll(phones[..n], all);
      assert phones == phones[..n] + [phones[n]];
    }
  }

  /** Every phone is still there. */
  lemma NoSerialLost(disk: seq<Phone>, serial: string)
    ensures Knows(Cleaned(disk), serial) <==> Knows(disk, serial)
  {
    if Knows(disk, serial) {
      var i :| 0 <= i < |disk| && disk[i].serial == serial;
      if IsDuplicate(disk, disk[i]) {
        LocalStays(disk, serial);
        var j :| 0 <= j < |Cleaned(disk)| && Cleaned(disk)[j].serial == serial && !IsRegistryId(Cleaned(disk)[j].id);
        assert Knows(Cleaned(disk), serial);
      } else {
        KeptIs(disk, disk, disk[i]);
        var j :| 0 <= j < |Cleaned(disk)| && Cleaned(disk)[j] == disk[i];
        assert Cleaned(disk)[j].serial == serial;
      }
    }
    if Knows(Cleaned(disk), serial) {
      var j :| 0 <= j < |Cleaned(disk)| && Cleaned(disk)[j].serial == serial;
      KeptIs(disk, disk, Cleaned(disk)[j]);
    }
  }

  /** What a registry id looks like. */
  lemma RegistryIdIs(id: string)
    ensures IsRegistryId(id) <==>
      |id| > 6 && id[..6] == "phone-" && forall i :: 6 <= i < |id| ==> '0' <= id[i] <= '9'
  {
    if StartsWith(id, "phone-") {
      var digits := id[6..];
      assert forall i :: 6 <= i < |id| ==> id[i] == digits[i - 6];
      if forall i :: 6 <= i < |id| ==> '0' <= id[i] <= '9' {
        DigitRunIs(digits, "");
        assert digits + "" == digits;
      } else {
        assert digits[..|digits|] == digits;
      }
    }
  }

  /** What cleaning keeps: everything but the registry's entry of a phone that is also there
      under another kind of id. */
  lemma CleanedMeans(disk: seq<Phone>, p: Phone)
    ensures p in Cleaned(disk) <==>
      p in disk && !(IsRegistryId(p.id) && p.serial != "" && exists q :: q in disk && q.serial == p.serial && !IsRegistryId(q.id))
  {
    KeptIs(disk, disk, p);
    hide IsRegistryId;
    if q :| q in disk && q.serial == p.serial && !IsRegistryId(q.id) {
      var i :| 0 <= i < |disk| && disk[i] == q;
      assert disk[i].serial == p.serial;
    }
  }

  // ---- what merging does ----

  /** Exactly the entries in memory and the disk's entries of phones memory doesn't know. */
  lemma {:induction false} OthersAre(phones: seq<Phone>, disk: seq<Phone>, p: Phone)
    ensures p in Others(phones, disk) <==> p in disk && p.serial != "" && !Knows(phones, p.serial)
  {
    if disk != [] {
      var n := |disk| - 1;
      OthersAre(phones, disk[..n], p);
      assert disk == disk[..n] + [disk[n]];
    }
  }

  lemma {:induction false} NoOthers(phones: seq<Phone>, disk: seq<Phone>)
    requires forall p :: p in disk ==> Knows(phones, p.serial)
    ensures Others(phones, disk) == []
  {
    if disk != [] { NoOthers(phones, disk[..|disk| - 1]); }
  }

  /** No phone is lost by a save, from memory or disk, except a disk entry with no serial. */
  lemma MergeLosesNothing(phones: seq<Phone>, disk: seq<Phone>, serial: string)
    requires serial != ""
    ensures Knows(Merged(phones, disk), serial) <==> Knows(phones, serial) || Knows(disk, serial)
  {
    var m := Merged(phones, disk);
    if Knows(phones, serial) {
      var i :| 0 <= i < |phones| && phones[i].serial == serial;
      assert m[i].serial == serial;
    } else if Knows(disk, serial) {
      var i :| 0 <= i < |disk| && disk[i].serial == serial;
      OthersAre(phones, disk, disk[i]);
      var j :| 0 <= j < |Others(phones, disk)| && Others(phones, disk)[j] == disk[i];
      assert m[|phones| + j].serial == serial;
    }
    if Knows(m, serial) && !Knows(phones, serial) {
      var k :| 0 <= k < |m| && m[k].serial == serial;
      OthersAre(phones, disk, m[k]);
    }
  }

  /** The save after a cleanup writes the cleaned list: the merge brings no dropped duplicate
      back, neither then nor in a later save of at least those phones. */
  lemma CleanupSticks(disk: seq<Phone>, phones: seq<Phone>)
    requires forall p :: p in Cleaned(disk) ==> Knows(phones, p.serial)
    ensures Merged(phones, disk) == phones
    ensures Merged(Cleaned(disk), disk) == Cleaned(disk)
  {
    forall p | p in disk ensures Knows(phones, p.serial) && Knows(Cleaned(disk), p.serial) {
      NoSerialLost(disk, p.serial);
      var j :| 0 <= j < |Cleaned(disk)| && Cleaned(disk)[j].serial == p.serial;
      assert Cleaned(disk)[j] in Cleaned(disk);
    }
    NoOthers(phones, disk);
    NoOthers(Cleaned(disk), disk);
  }

  // ---- the file ----

  lemma KeptNext(phones: seq<Phone>, i: nat, all: seq<Phone>)
    requires i < |phones|
    ensures Kept(phones[..i + 1], all)
         == if IsDuplicate(all, phones[i]) then Kept(phones[..i], all) else Kept(phones[..i], all) + [phones[i]]
  {
    assert phones[..i + 1][..i] == phones[..i];
  }

  lemma OthersNext(phones: seq<Phone>, disk: seq<Phone>, i: nat)
    requires i < |disk|
    ensures Others(phones, disk[..i + 1])
         == if disk[i].serial != "" && !Knows(phones, disk[i].serial)
            then Others(phones, disk[..i]) + [disk[i]]
            else Others(phones, disk[..i])
  {
    assert disk[..i + 1][..i] == disk[..i];
  }

  lemma KnowsOwn(phones: seq<Phone>)
    ensures forall p :: p in phones ==> Knows(phones, p.serial)
  {
  }

  class PhonesFile {
    /** None: missing or unreadable. */
    var disk: Option<seq<Phone>>

    constructor ()
      ensures disk == None
    {
      disk := None;
    }

    method Load() returns (phones: seq<Phone>)
      modifies this
      ensures old(disk).None? ==> phones == [] && disk == None
      ensures old(disk).Some? ==> phones == Cleaned(old(disk.value)) && disk == Some(phones)
    {
      if disk.None? { return []; }
      var all := disk.value;
      var locals: set<string> := {};
      for i := 0 to |all|
        invariant forall s :: s in locals <==> HasLocal(all[..i], s)
        modifies {}
      {
        LocalsNext(all, i);
        if all[i].serial != "" && !IsRegistryId(all[i].id) { locals := locals + {all[i].serial}; }
      }
      assert all[..|all|] == all;
      phones := [];
      for i := 0 to |all|
        invariant phones == Kept(all[..i], all)
        modifies {}
      {
        KeptNext(all, i, all);
        if !IsRegistryId(all[i].id) || all[i].serial !in locals { phones := phones + [all[i]]; }
      }
      assert all[..|all|] == all;
      KeptLength(all, all);
      if |phones| < |all| {
        KnowsOwn(phones);
        CleanupSticks(all, phones);
        Save(phones);
      }
    }

    method Save(phones: seq<Phone>)
      modifies this
      ensures disk == Some(Merged(phones, if old(disk).Some? then old(disk).value else []))
    {
      var onDisk := if disk.Some? then disk.value else [];
      var others := [];
      for i := 0 to |onDisk|
        invariant others == Others(phones, onDisk[..i])
      {
        OthersNext(phones, onDisk, i);
        if onDisk[i].serial != "" && !Knows(phones, onDisk[i].serial) { others := others + [onDisk[i]]; }
      }
      assert onDisk[..|onDisk|] == onDisk;
      disk := Some(phones + others);
    }
  }

  lemma LocalsNext(all: seq<Phone>, i: nat)
    requires i < |all|
    ensures forall s :: HasLocal(all[..i + 1], s) <==>
              HasLocal(all[..i], s) || (s != "" && all[i].serial == s && !IsRegistryId(all[i].id))
  {
    var now, was := all[..i + 1], all[..i];
    forall s ensures HasLocal(now, s) <==> HasLocal(was, s) || (s != "" && all[i].serial == s && !IsRegistryId(all[i].id)) {
      if HasLocal(was, s) {
        var k :| 0 <= k < |was| && was[k].serial == s && !IsRegistryId(was[k].id);
        assert now[k] == was[k];
      }
      if s != "" && all[i].serial == s && !IsRegistryId(all[i].id) { assert now[i].serial == s; }
      if HasLocal(now, s) {
        var k :| 0 <= k < |now| && now[k].serial == s && !IsRegistryId(now[k].id);
        if k < i { assert was[k] == now[k]; }
      }
    }
  }

  // ---- looking a value up until it is there ----

  /** Attempt k answers `answers(k)`. The attempts are made until one answers, one more than
      there are delays at most, and a delay is slept before each but the first. */
  method PopulateWithRetry(alreadyHave: bool, delays: seq<nat>, answers: nat -> Option<string>)
    returns (value: Option<string>, attempts: nat, slept: seq<nat>)
    ensures alreadyHave ==> value.None? && attempts == 0 && slept == []
    ensures !alreadyHave ==> 1 <= attempts <= |delays| + 1 && slept == delays[..attempts - 1] && value == answers(attempts - 1)
    ensures !alreadyHave ==> forall k :: 0 <= k < attempts - 1 ==> answers(k).None?
    ensures !alreadyHave && value.None? ==> attempts == |delays| + 1
  {
    if alreadyHave { return None, 0, []; }
    value, attempts, slept := answers(0), 1, [];
    if value.Some? { return; }
    for i := 0 to |delays|
      invariant attempts == i + 1 && slept == delays[..i] && value.None?
      invariant forall k :: 0 <= k <= i ==> answers(k).None?
    {
      slept := slept + [delays[i]];
      value, attempts := answers(i + 1), i + 2;
      if value.Some? { return; }
    }
  }
}
