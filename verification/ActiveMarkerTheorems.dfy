/** When the marker on disk names a rostered and enabled account, over every interleaving. */
module ActiveMarkerTheorems {
  import opened Wrappers
  import opened Journal
  import opened ActiveMarker

  lemma SwitchKeepsMarker(record: Record, memory: Memory, op: Op)
    requires MarkerHolds(record) && (op.Switch? || op.SwitchOff?)
    ensures Throughout(record, Plan(record, memory, op), Applied, MarkerHolds)
  {}

  lemma CreateKeepsMarker(record: Record, memory: Memory, op: Op)
    requires MarkerHolds(record) && (op.CreateBlank? || op.Capture?)
    ensures Throughout(record, Plan(record, memory, op), Applied, MarkerHolds)
  {}

  lemma OverwriteKeepsMarker(record: Record, memory: Memory, name: Name, clears: bool, links: bool)
    requires MarkerHolds(record) && name in record.roster
    ensures Throughout(record, OverwriteWrites(record, memory, name, clears, links), Applied, MarkerHolds)
  {
    var writes := OverwriteWrites(record, memory, name, clears, links);
    var cleared := if clears then [SaveState(None, record.roster)] else [];
    var next := if clears then record.(active := None) else record;
    var rest := writes[|cleared|..];
    assert writes == cleared + rest;
    if clears {
      ReplayOne(record, cleared[0], Applied);
      ThroughoutOne(record, cleared[0], Applied, MarkerHolds);
    }
    if name in memory.profiles {
      var saved := Applied(next, Resave(record, name));
      if |rest| == 2 {
        ThroughoutTwo(next, rest[0], rest[1], Applied, MarkerHolds);
      } else {
        ThroughoutOne(next, rest[0], Applied, MarkerHolds);
      }
    }
    ThroughoutBoth(record, cleared, rest, Applied, MarkerHolds);
  }

  lemma DeleteKeepsMarker(record: Record, name: Name)
    requires MarkerHolds(record)
    ensures Throughout(record, DeleteWrites(record, name), Applied, MarkerHolds)
  {
    var writes := DeleteWrites(record, name);
    if record.active.Some? {
      WithoutHas(record.roster, name, record.active.value);
    }
    if |writes| == 2 {
      ThroughoutTwo(record, writes[0], writes[1], Applied, MarkerHolds);
    } else {
      ThroughoutOne(record, writes[0], Applied, MarkerHolds);
    }
  }

  lemma RenameKeepsMarker(record: Record, from: Name, to: Name)
    requires MarkerHolds(record) && from in record.roster
    requires from in record.dirs && to in record.dirs ==> from == to
    requires record.active == Some(from) && from !in record.dirs ==> !record.Disabled(to)
    requires to in record.roster ==> to == from
    ensures Throughout(record, RenameWrites(record, from, to), Applied, MarkerHolds)
  {
    var writes := RenameWrites(record, from, to);
    RenamedHas(record.roster, from, to, from);
    if record.active.Some? {
      RenamedHas(record.roster, from, to, record.active.value);
    }
    if |writes| == 2 {
      ThroughoutTwo(record, writes[0], writes[1], Applied, MarkerHolds);
    } else {
      ThroughoutOne(record, writes[0], Applied, MarkerHolds);
    }
  }

  lemma NotTaken(roster: seq<Name>, from: Name, to: Name)
    requires !NameTaken(roster, to, Some(from))
    ensures to in roster ==> to == from
  {}

  /** Every operation keeps the marker at each of its writes, but for the two that can name a disabled
      account. */
  lemma StepKeepsMarker(record: Record, memory: Memory, op: Op)
    requires MarkerHolds(record)
    requires !AdoptsDisabled(record, op) && !RenamesOntoDisabled(record, op)
    ensures Throughout(record, Plan(record, memory, op), Applied, MarkerHolds)
  {
    var writes := Plan(record, memory, op);
    match op {
      case Switch(_, _, _) => SwitchKeepsMarker(record, memory, op);
      case SwitchOff(_) => SwitchKeepsMarker(record, memory, op);
      case CreateBlank(_, _) => CreateKeepsMarker(record, memory, op);
      case Capture(_, _, _) => CreateKeepsMarker(record, memory, op);
      case Overwrite(name, _, clears, links) =>
        if writes != [] {
          OverwriteKeepsMarker(record, memory, name, clears, links);
        }
      case Delete(name, _) =>
        if writes != [] {
          DeleteKeepsMarker(record, name);
        }
      case Rename(from, to, _) =>
        if writes != [] {
          NotTaken(record.roster, from, to);
          RenameKeepsMarker(record, from, to);
        }
      case Disable(_, _) =>
      case Enable(_) =>
      case ClearLogin(name) =>
        if |writes| == 2 {
          ThroughoutTwo(record, writes[0], writes[1], Applied, MarkerHolds);
        }
      case Adopt(_, _) =>
    }
  }

  /** The marker stops naming a rostered and enabled account in two cases only: an adopted overwrite
      whose account is disabled, and a rename of the active account that finds its directory gone and
      the new name's directory disabled. */
  lemma MarkerBreaksExactlyWhen(record: Record, memory: Memory, op: Op, room: nat)
    requires MarkerHolds(record)
    ensures !MarkerHolds(After(record, memory, op, room)) <==>
      room > 0 && (AdoptsDisabled(record, op) || RenamesOntoDisabled(record, op))
  {
    var writes := Plan(record, memory, op);
    if AdoptsDisabled(record, op) || RenamesOntoDisabled(record, op) {
      if room > 0 {
        assert Taken(writes, room) == [writes[0]];
        ReplayOne(record, writes[0], Applied);
      } else {
        assert Taken(writes, room) == [];
      }
    } else {
      StepKeepsMarker(record, memory, op);
      AtEveryCut(record, writes, Applied, MarkerHolds, room);
    }
  }

  /* ---------- whole runs ---------- */

  /** A rename of a disabled account stopped between its directory's move and its record. */
  predicate CutsDisabledRename(record: Record, memory: Memory, op: Op, room: nat) {
    && op.Rename? && room == 1 && |Plan(record, memory, op)| == 2
    && record.Disabled(op.from) && op.from != op.to
  }

  lemma DeleteKeepsOrphans(record: Record, name: Name)
    requires OrphansEnabled(record)
    ensures Throughout(record, DeleteWrites(record, name), Applied, OrphansEnabled)
  {
    var writes := DeleteWrites(record, name);
    forall other | other in record.dirs && other != name && record.dirs[other]
      ensures other in Without(record.roster, name)
    {
      WithoutHas(record.roster, name, other);
    }
    if |writes| == 2 {
      ThroughoutTwo(record, writes[0], writes[1], Applied, OrphansEnabled);
    } else {
      ThroughoutOne(record, writes[0], Applied, OrphansEnabled);
    }
  }

  lemma StepKeepsOrphans(record: Record, memory: Memory, op: Op)
    requires OrphansEnabled(record) && !op.Rename?
    ensures Throughout(record, Plan(record, memory, op), Applied, OrphansEnabled)
  {
    var writes := Plan(record, memory, op);
    if op.CreateBlank? || op.Capture? {
      if writes != [] {
        ThroughoutTwo(record, writes[0], writes[1], Applied, OrphansEnabled);
      }
    } else if op.Delete? {
      if op.allowed {
        DeleteKeepsOrphans(record, op.name);
      }
    } else {
      RosteredWritesKeepOrphans(record, writes);
    }
  }

  /** Writes that keep the roster, and put configs of rostered accounts only. */
  lemma {:induction false} RosteredWritesKeepOrphans(record: Record, writes: seq<Write>)
    requires OrphansEnabled(record)
    requires forall i :: 0 <= i < |writes| ==>
      || (writes[i].SaveState? && writes[i].roster == record.roster)
      || (writes[i].PutConfig? && writes[i].name in record.roster)
    ensures Throughout(record, writes, Applied, OrphansEnabled)
    decreases |writes|
  {
    if writes == [] {
    } else {
      RosteredWritesKeepOrphans(Applied(record, writes[0]), writes[1..]);
    }
  }

  lemma RenameKeepsOrphans(record: Record, memory: Memory, op: Op, room: nat)
    requires OrphansEnabled(record) && op.Rename?
    requires !CutsDisabledRename(record, memory, op, room)
    ensures OrphansEnabled(After(record, memory, op, room))
  {
    var writes := Plan(record, memory, op);
    if writes == [] || room == 0 {
      assert Taken(writes, room) == [];
    } else {
      forall name | name in record.dirs && record.dirs[name] && name != op.from
        ensures name in Renamed(record.roster, op.from, op.to)
      {
        RenamedHas(record.roster, op.from, op.to, name);
      }
      RenamedHas(record.roster, op.from, op.to, op.from);
      if |writes| == 2 && room == 1 {
        assert Taken(writes, room) == [writes[0]];
        ReplayOne(record, writes[0], Applied);
      } else if |writes| == 2 {
        ReplayTwo(record, writes[0], writes[1], Applied);
      } else {
        assert Taken(writes, room) == [writes[0]];
        ReplayOne(record, writes[0], Applied);
      }
    }
  }

  datatype Step = Step(memory: Memory, op: Op, room: nat)

  predicate Sound(record: Record, step: Step) {
    !AdoptsDisabled(record, step.op) && !CutsDisabledRename(record, step.memory, step.op, step.room)
  }

  function RunAll(record: Record, steps: seq<Step>): Record
    decreases |steps|
  {
    if steps == [] then record else RunAll(After(record, steps[0].memory, steps[0].op, steps[0].room), steps[1..])
  }

  predicate SoundRun(record: Record, steps: seq<Step>)
    decreases |steps|
  {
    steps != [] ==>
      && Sound(record, steps[0])
      && SoundRun(After(record, steps[0].memory, steps[0].op, steps[0].room), steps[1..])
  }

  /** Over every interleaving of the operations, by processes with any memories, stopped anywhere, the
      marker names a rostered and enabled account: unless an adopt named a disabled one, or a rename of
      a disabled account stopped between its two writes. */
  lemma {:induction false} RunKeepsMarker(record: Record, steps: seq<Step>)
    requires MarkerHolds(record) && OrphansEnabled(record)
    requires SoundRun(record, steps)
    ensures MarkerHolds(RunAll(record, steps))
    decreases |steps|
  {
    if steps == [] {
    } else {
      var memory, op, room := steps[0].memory, steps[0].op, steps[0].room;
      if RenamesOntoDisabled(record, op) {
        NotTaken(record.roster, op.from, op.to);
        assert false;
      }
      MarkerBreaksExactlyWhen(record, memory, op, room);
      if op.Rename? {
        RenameKeepsOrphans(record, memory, op, room);
      } else {
        StepKeepsOrphans(record, memory, op);
        AtEveryCut(record, Plan(record, memory, op), Applied, OrphansEnabled, room);
      }
      RunKeepsMarker(After(record, memory, op, room), steps[1..]);
    }
  }

  /* ---------- a rostered account, whatever happens ---------- */

  lemma DeleteKeepsRostered(record: Record, name: Name)
    requires MarkerRostered(record)
    ensures Throughout(record, DeleteWrites(record, name), Applied, MarkerRostered)
  {
    var writes := DeleteWrites(record, name);
    if record.active.Some? {
      WithoutHas(record.roster, name, record.active.value);
    }
    if |writes| == 2 {
      ThroughoutTwo(record, writes[0], writes[1], Applied, MarkerRostered);
    } else {
      ThroughoutOne(record, writes[0], Applied, MarkerRostered);
    }
  }

  lemma RenameKeepsRostered(record: Record, from: Name, to: Name)
    requires MarkerRostered(record) && from in record.roster
    ensures Throughout(record, RenameWrites(record, from, to), Applied, MarkerRostered)
  {
    var writes := RenameWrites(record, from, to);
    RenamedHas(record.roster, from, to, record.active.GetOr(from));
    if |writes| == 2 {
      ThroughoutTwo(record, writes[0], writes[1], Applied, MarkerRostered);
    } else {
      ThroughoutOne(record, writes[0], Applied, MarkerRostered);
    }
  }

  /** Writes that put no marker the roster they save does not have. */
  lemma {:induction false} SavesKeepRostered(record: Record, writes: seq<Write>)
    requires MarkerRostered(record)
    requires forall i :: 0 <= i < |writes| && writes[i].SaveState? ==>
      writes[i].active.Some? ==> writes[i].active.value in writes[i].roster
    ensures Throughout(record, writes, Applied, MarkerRostered)
    decreases |writes|
  {
    if writes == [] {
    } else {
      SavesKeepRostered(Applied(record, writes[0]), writes[1..]);
    }
  }

  lemma StepKeepsRostered(record: Record, memory: Memory, op: Op)
    requires MarkerRostered(record)
    ensures Throughout(record, Plan(record, memory, op), Applied, MarkerRostered)
  {
    var writes := Plan(record, memory, op);
    if op.Delete? {
      if writes != [] {
        DeleteKeepsRostered(record, op.name);
      }
    } else if op.Rename? {
      if writes != [] {
        RenameKeepsRostered(record, op.from, op.to);
      }
    } else {
      SavesKeepRostered(record, writes);
    }
  }

  /** Over every interleaving at all, adopts of disabled accounts and cut renames included, the marker
      names a rostered account. */
  lemma {:induction false} RunKeepsRostered(record: Record, steps: seq<Step>)
    requires MarkerRostered(record)
    ensures MarkerRostered(RunAll(record, steps))
    decreases |steps|
  {
    if steps == [] {
    } else {
      var memory, op, room := steps[0].memory, steps[0].op, steps[0].room;
      StepKeepsRostered(record, memory, op);
      AtEveryCut(record, Plan(record, memory, op), Applied, MarkerRostered, room);
      RunKeepsRostered(After(record, memory, op, room), steps[1..]);
    }
  }

  /** Such a stop does break it: the account reads as enabled while its directory is already under the
      new name, so it can be switched onto, and the rename's retry then marks the disabled directory
      active. */
  lemma CutRenameBreaksMarker()
    ensures var record := Record(None, ["x"], map["x" := true]);
      var memory := Memory(None, map["x" := false]);
      var rename := Rename("x", "yy", true);
      && MarkerHolds(record) && OrphansEnabled(record)
      && !MarkerHolds(RunAll(record, [Step(memory, rename, 1), Step(memory, Switch("x", false, true), 1),
                                      Step(memory, rename, 1)]))
  {
    var record := Record(None, ["x"], map["x" := true]);
    var memory := Memory(None, map["x" := false]);
    var rename := Rename("x", "yy", true);
    var switch := Switch("x", false, true);
    assert |Fold("x")| == 1 && |Fold("yy")| == 2;
    var moved := After(record, memory, rename, 1);
    assert Taken(Plan(record, memory, rename), 1) == [MoveDir("x", "yy")];
    ReplayOne(record, MoveDir("x", "yy"), Applied);
    assert moved == Record(None, ["x"], map["yy" := true]);
    var switched := After(moved, memory, switch, 1);
    assert Plan(moved, memory, switch) == [SaveState(Some("x"), ["x"])];
    ReplayOne(moved, SaveState(Some("x"), ["x"]), Applied);
    assert switched == Record(Some("x"), ["x"], map["yy" := true]);
    var marked := After(switched, memory, rename, 1);
    assert Plan(switched, memory, rename) == [SaveState(Some("yy"), Renamed(["x"], "x", "yy"))];
    ReplayOne(switched, SaveState(Some("yy"), Renamed(["x"], "x", "yy")), Applied);
    var steps := [Step(memory, rename, 1), Step(memory, switch, 1), Step(memory, rename, 1)];
    assert steps[1..] == [Step(memory, switch, 1), Step(memory, rename, 1)];
    assert steps[1..][1..] == [Step(memory, rename, 1)];
    assert RunAll(switched, [Step(memory, rename, 1)]) == marked;
    assert RunAll(record, steps) == RunAll(moved, steps[1..]) == RunAll(switched, steps[1..][1..]);
  }
}
