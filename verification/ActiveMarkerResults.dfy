/** What each operation on the accounts leaves once its writes land, told from the record's own fields,
    and the names it keeps apart. */
module ActiveMarkerResults {
  import opened Wrappers
  import opened Journal
  import opened ActiveMarker
  import opened ActiveMarkerTheorems

  /* ---------- names apart up to case ---------- */

  /** The same letter, but for its case. */
  predicate SameLetter(a: char, b: char) {
    || a == b
    || ('A' <= a <= 'Z' && b as int == a as int + 32)
    || ('A' <= b <= 'Z' && a as int == b as int + 32)
  }

  predicate SameName(a: Name, b: Name) {
    |a| == |b| && forall i :: 0 <= i < |a| ==> SameLetter(a[i], b[i])
  }

  lemma FoldsAlike(a: Name, b: Name)
    ensures Fold(a) == Fold(b) <==> SameName(a, b)
  {
    if Fold(a) == Fold(b) {
      forall i | 0 <= i < |a| ensures SameLetter(a[i], b[i]) {
        assert Fold(a)[i] == Lower(a[i]) && Fold(b)[i] == Lower(b[i]);
      }
    }
  }

  /** A name is free when no account, but for one that is let off, has it up to case. */
  predicate Free(roster: seq<Name>, name: Name, spare: Option<Name>) {
    forall other :: other in roster && Some(other) != spare ==> !SameName(other, name)
  }

  lemma TakenOrFree(roster: seq<Name>, name: Name, spare: Option<Name>)
    ensures NameTaken(roster, name, spare) <==> !Free(roster, name, spare)
  {
    forall other | other in roster ensures Fold(other) == Fold(name) <==> SameName(other, name) {
      FoldsAlike(other, name);
    }
  }

  /* ---------- what an operation leaves ---------- */

  /** Nothing but the marker is changed, and directories with no flag set may be written. */
  ghost predicate OnlyMarker(before: Record, after: Record) {
    && after.roster == before.roster && before.dirs.Keys <= after.dirs.Keys
    && forall name :: after.Disabled(name) == before.Disabled(name)
  }

  /** All the writes land, one after the other. */
  lemma AllLand(record: Record, writes: seq<Write>, room: nat)
    requires |writes| <= room && |writes| <= 3
    ensures Replay(record, Taken(writes, room), Applied) ==
      if writes == [] then record
      else if |writes| == 1 then Applied(record, writes[0])
      else if |writes| == 2 then Applied(Applied(record, writes[0]), writes[1])
      else Applied(Applied(Applied(record, writes[0]), writes[1]), writes[2])
  {
    if |writes| == 1 {
      ReplayOne(record, writes[0], Applied);
      assert writes == [writes[0]];
    } else if |writes| == 2 {
      ReplayTwo(record, writes[0], writes[1], Applied);
      assert writes == [writes[0], writes[1]];
    } else if |writes| == 3 {
      var next := Applied(record, writes[0]);
      ReplayTwo(next, writes[1], writes[2], Applied);
      assert writes[1..] == [writes[1], writes[2]];
    }
  }

  lemma SwitchResult(record: Record, memory: Memory, name: Name, captures: bool, proceeds: bool, room: nat)
    requires room >= 2
    ensures var after := After(record, memory, Switch(name, captures, proceeds), room);
      var may := name in record.roster && !record.Disabled(name) && name in memory.profiles && !memory.profiles[name];
      && OnlyMarker(record, after)
      && after.active == if may && proceeds then Some(name) else record.active
  {
    AllLand(record, Plan(record, memory, Switch(name, captures, proceeds)), room);
  }

  lemma SwitchOffResult(record: Record, memory: Memory, captures: bool, room: nat)
    requires room >= 2
    ensures var after := After(record, memory, SwitchOff(captures), room);
      OnlyMarker(record, after) && after.active.None?
  {
    AllLand(record, Plan(record, memory, SwitchOff(captures)), room);
  }

  lemma CreateResult(record: Record, memory: Memory, name: Name, allowed: bool, room: nat)
    requires room >= 2
    ensures After(record, memory, CreateBlank(name, allowed), room) ==
      if allowed && Free(record.roster, name, None)
      then Record(record.active, record.roster + [name], record.dirs[name := false]) else record
  {
    TakenOrFree(record.roster, name, None);
    if Free(record.roster, name, None) {
      FreeIsNew(record.roster, name);
    }
    AllLand(record, Plan(record, memory, CreateBlank(name, allowed)), room);
  }

  lemma FreeIsNew(roster: seq<Name>, name: Name)
    requires Free(roster, name, None)
    ensures With(roster, name) == roster + [name]
  {
    assert SameName(name, name);
  }

  /** A captured login's account is the active one where none was, and where it could not be linked
      everything is as before. */
  lemma CaptureResult(record: Record, memory: Memory, name: Name, allowed: bool, links: bool, room: nat)
    requires room >= 2
    ensures After(record, memory, Capture(name, allowed, links), room) ==
      if allowed && Free(record.roster, name, None) && (record.active.Some? || links)
      then Record(Some(record.active.GetOr(name)), record.roster + [name], record.dirs[name := false]) else record
  {
    TakenOrFree(record.roster, name, None);
    if Free(record.roster, name, None) {
      FreeIsNew(record.roster, name);
    }
    AllLand(record, Plan(record, memory, Capture(name, allowed, links)), room);
    var put := Applied(record, PutConfig(name, false));
    assert Applied(put, Undo(record, name)).dirs == record.dirs;
  }

  lemma OverwriteResult(record: Record, memory: Memory, name: Name, sameAccount: bool, clears: bool, links: bool,
                        room: nat)
    requires room >= 3
    ensures var after := After(record, memory, Overwrite(name, sameAccount, clears, links), room);
      && OnlyMarker(record, after)
      && after.active ==
           if name !in record.roster || !sameAccount then record.active
           else if record.active.Some? && !clears then record.active
           else if name in memory.profiles && links && !record.Disabled(name) then Some(name)
           else None
  {
    AllLand(record, Plan(record, memory, Overwrite(name, sameAccount, clears, links)), room);
  }

  /** A deleted account is gone from the directories, the roster and the marker; the others stay, in
      their order, and one of them stays active. */
  lemma DeleteResult(record: Record, memory: Memory, name: Name, room: nat)
    requires room >= 2
    ensures var after := After(record, memory, Delete(name, true), room);
      && name !in after.dirs && after.dirs == record.dirs - {name} && name !in after.roster
      && (forall other :: other != name ==> (other in after.roster <==> other in record.roster))
      && after.active == if record.active == Some(name) then None else record.active
  {
    AllLand(record, DeleteWrites(record, name), room);
    forall other ensures other in Without(record.roster, name) <==> other in record.roster && other != name {
      WithoutHas(record.roster, name, other);
    }
  }

  lemma RenameResult(record: Record, memory: Memory, from: Name, to: Name, room: nat)
    requires room >= 2 && from in record.roster && Free(record.roster, to, Some(from))
    requires from in record.dirs && to in record.dirs ==> from == to
    ensures var after := After(record, memory, Rename(from, to, true), room);
      && after.active == (if record.active == Some(from) then Some(to) else record.active)
      && (exists k :: 0 <= k < |record.roster| && record.roster[k] == from && after.roster == record.roster[k := to])
      && (forall other :: after.Disabled(other) ==
            if other == to && from in record.dirs then record.dirs[from]
            else record.Disabled(other) && (other == from ==> from !in record.dirs))
  {
    TakenOrFree(record.roster, to, Some(from));
    AllLand(record, RenameWrites(record, from, to), room);
    RenamedAt(record.roster, from, to);
  }

  lemma {:induction false} RenamedAt(roster: seq<Name>, from: Name, to: Name)
    requires from in roster
    ensures exists k :: 0 <= k < |roster| && roster[k] == from && from !in roster[..k]
                        && Renamed(roster, from, to) == roster[k := to]
    decreases |roster|
  {
    if roster[0] == from {
      assert Renamed(roster, from, to) == roster[0 := to];
    } else {
      RenamedAt(roster[1..], from, to);
      var k :| 0 <= k < |roster| - 1 && roster[1..][k] == from && from !in roster[1..][..k]
               && Renamed(roster[1..], from, to) == roster[1..][k := to];
      assert Renamed(roster, from, to) == roster[k + 1 := to];
      assert roster[..k + 1] == [roster[0]] + roster[1..][..k];
    }
  }

  /** A rename is refused, and changes nothing, unless the account is rostered, no other has the new name up
      to case and the new name's directory is not another's. */
  lemma RenameRefused(record: Record, memory: Memory, from: Name, to: Name, allowed: bool, room: nat)
    requires !allowed || from !in record.roster || !Free(record.roster, to, Some(from))
             || (from in record.dirs && to in record.dirs && from != to)
    ensures After(record, memory, Rename(from, to, allowed), room) == record
  {
    TakenOrFree(record.roster, to, Some(from));
    assert Plan(record, memory, Rename(from, to, allowed)) == [];
  }

  /** A disable takes an account active neither on disk nor in memory, with no session on it. */
  lemma DisableResult(record: Record, memory: Memory, name: Name, session: bool, room: nat)
    requires room >= 1
    ensures After(record, memory, Disable(name, session), room) ==
      if name in record.roster && name in memory.profiles && !session
         && record.active != Some(name) && memory.active != Some(name) && !record.Disabled(name)
      then record.(dirs := record.dirs[name := true]) else record
  {
    AllLand(record, Plan(record, memory, Disable(name, session)), room);
  }

  lemma EnableResult(record: Record, memory: Memory, name: Name, room: nat)
    requires room >= 1
    ensures After(record, memory, Enable(name), room) ==
      if name in record.roster && name in memory.profiles && record.Disabled(name)
      then record.(dirs := record.dirs[name := false]) else record
  {
    AllLand(record, Plan(record, memory, Enable(name)), room);
  }

  lemma ClearLoginResult(record: Record, memory: Memory, name: Name, room: nat)
    requires room >= 2
    ensures var after := After(record, memory, ClearLogin(name), room);
      && OnlyMarker(record, after)
      && after.active ==
           if name in record.roster && name in memory.profiles && record.active == Some(name) then None
           else record.active
  {
    AllLand(record, Plan(record, memory, ClearLogin(name)), room);
  }

  lemma AdoptResult(record: Record, memory: Memory, name: Name, sameAccount: bool, room: nat)
    requires room >= 1
    ensures After(record, memory, Adopt(name, sameAccount), room) ==
      if name in record.roster && sameAccount then record.(active := Some(name)) else record
  {
    AllLand(record, Plan(record, memory, Adopt(name, sameAccount)), room);
  }

  /* ---------- names stay apart ---------- */

  predicate Apart(roster: seq<Name>) {
    forall i, j :: 0 <= i < j < |roster| ==> !SameName(roster[i], roster[j])
  }

  /** No two accounts have one name up to case. */
  predicate NamesApart(record: Record) {
    Apart(record.roster)
  }

  lemma {:induction false} WithoutApart(roster: seq<Name>, name: Name)
    requires Apart(roster)
    ensures Apart(Without(roster, name))
    decreases |roster|
  {
    if roster == [] {
    } else {
      var rest := Without(roster[1..], name);
      WithoutApart(roster[1..], name);
      forall i | 0 <= i < |rest| ensures !SameName(roster[0], rest[i]) {
        WithoutHas(roster[1..], name, rest[i]);
      }
    }
  }

  lemma AppendApart(roster: seq<Name>, name: Name)
    requires Apart(roster) && Free(roster, name, None)
    ensures Apart(roster + [name])
  {}

  lemma RenamedApart(roster: seq<Name>, from: Name, to: Name)
    requires Apart(roster) && from in roster && Free(roster, to, Some(from))
    ensures Apart(Renamed(roster, from, to))
  {
    RenamedAt(roster, from, to);
    var k :| 0 <= k < |roster| && roster[k] == from && Renamed(roster, from, to) == roster[k := to];
    forall i | 0 <= i < |roster| && i != k ensures !SameName(roster[i], to) && !SameName(to, roster[i]) {
      assert SameName(from, from);
      assert roster[i] in roster && roster[i] != from;
      assert SameName(to, roster[i]) ==> SameName(roster[i], to);
    }
  }

  lemma {:induction false} SavesKeepApart(record: Record, writes: seq<Write>)
    requires NamesApart(record)
    requires forall i :: 0 <= i < |writes| && writes[i].SaveState? ==> Apart(writes[i].roster)
    ensures Throughout(record, writes, Applied, NamesApart)
    decreases |writes|
  {
    if writes == [] {
    } else {
      SavesKeepApart(Applied(record, writes[0]), writes[1..]);
    }
  }

  lemma StepKeepsNamesApart(record: Record, memory: Memory, op: Op)
    requires NamesApart(record)
    ensures Throughout(record, Plan(record, memory, op), Applied, NamesApart)
  {
    var writes := Plan(record, memory, op);
    if writes != [] {
      match op {
        case CreateBlank(name, _) =>
          TakenOrFree(record.roster, name, None);
          FreeIsNew(record.roster, name);
          AppendApart(record.roster, name);
        case Capture(name, _, _) =>
          TakenOrFree(record.roster, name, None);
          FreeIsNew(record.roster, name);
          AppendApart(record.roster, name);
        case Delete(name, _) =>
          WithoutApart(record.roster, name);
        case Rename(from, to, _) =>
          TakenOrFree(record.roster, to, Some(from));
          RenamedApart(record.roster, from, to);
        case _ =>
      }
    }
    SavesKeepApart(record, writes);
  }

  /** Over every interleaving, each operation cut anywhere, no two accounts come to have one name up to
      case. */
  lemma {:induction false} RunKeepsNamesApart(record: Record, steps: seq<Step>)
    requires NamesApart(record)
    ensures NamesApart(RunAll(record, steps))
    decreases |steps|
  {
    if steps == [] {
    } else {
      var memory, op, room := steps[0].memory, steps[0].op, steps[0].room;
      StepKeepsNamesApart(record, memory, op);
      AtEveryCut(record, Plan(record, memory, op), Applied, NamesApart, room);
      RunKeepsNamesApart(After(record, memory, op, room), steps[1..]);
    }
  }

  /* ---------- an operation that stopped, run again ---------- */

  /** A capture that could not be linked, stopped before it undid the directory it wrote, where that was not
      as it wrote it. */
  predicate LeavesDirectory(record: Record, op: Op, cut: nat) {
    && op.Capture? && !op.links && record.active.None? && cut == 1
    && (op.name in record.dirs ==> record.dirs[op.name])
  }

  lemma StoppedAt(record: Record, memory: Memory, op: Op, cut: nat)
    requires cut < |Plan(record, memory, op)|
    ensures |Plan(record, memory, op)| <= 3
    ensures After(record, memory, op, cut) ==
      if cut == 0 then record
      else if cut == 1 then Applied(record, Plan(record, memory, op)[0])
      else Applied(Applied(record, Plan(record, memory, op)[0]), Plan(record, memory, op)[1])
  {
    AllLand(record, Plan(record, memory, op)[..cut], cut);
  }

  lemma SwitchAgain(record: Record, memory: Memory, op: Op, room: nat)
    requires room >= 3 && |Plan(record, memory, op)| >= 2 && (op.Switch? || op.SwitchOff? || op.ClearLogin?)
    ensures After(Applied(record, Plan(record, memory, op)[0]), memory, op, room) == After(record, memory, op, room)
  {
    var stopped := Applied(record, Plan(record, memory, op)[0]);
    AllLand(record, Plan(record, memory, op), room);
    AllLand(stopped, Plan(stopped, memory, op), room);
  }

  lemma CreateAgain(record: Record, memory: Memory, op: Op, room: nat)
    requires room >= 3 && |Plan(record, memory, op)| >= 2
    requires op.CreateBlank? || op.Capture?
    ensures After(Applied(record, Plan(record, memory, op)[0]), memory, op, room) == After(record, memory, op, room)
      <==> !LeavesDirectory(record, op, 1)
  {
    var stopped := Applied(record, Plan(record, memory, op)[0]);
    AllLand(record, Plan(record, memory, op), room);
    AllLand(stopped, Plan(stopped, memory, op), room);
    if op.Capture? && !op.links && record.active.None? {
      TakenOrFree(record.roster, op.name, None);
      CaptureResult(record, memory, op.name, op.allowed, false, room);
      CaptureResult(stopped, memory, op.name, op.allowed, false, room);
    }
  }

  lemma RemoveAgain(record: Record, memory: Memory, op: Op, room: nat)
    requires room >= 3 && |Plan(record, memory, op)| >= 2 && (op.Delete? || op.Rename?)
    ensures After(Applied(record, Plan(record, memory, op)[0]), memory, op, room) == After(record, memory, op, room)
  {
    var stopped := Applied(record, Plan(record, memory, op)[0]);
    AllLand(record, Plan(record, memory, op), room);
    AllLand(stopped, Plan(stopped, memory, op), room);
  }

  /** Up to its last write an overwrite leaves the roster and the flags, and clears the marker or leaves it. */
  lemma OverwriteStopped(record: Record, memory: Memory, op: Op, cut: nat)
    requires 0 < cut < |Plan(record, memory, op)| && op.Overwrite?
    ensures var stopped := After(record, memory, op, cut);
      && stopped.roster == record.roster && stopped.Disabled(op.name) == record.Disabled(op.name)
      && stopped.active == (if op.clears then None else record.active)
      && (stopped.dirs == record.dirs || stopped.dirs == record.dirs[op.name := record.Disabled(op.name)])
      && (op.name in memory.profiles || stopped.dirs == record.dirs)
  {
    StoppedAt(record, memory, op, cut);
  }

  lemma OverwriteAgain(record: Record, stopped: Record, memory: Memory, op: Op, room: nat)
    requires room >= 3 && op.Overwrite? && Plan(record, memory, op) != []
    requires stopped.roster == record.roster && stopped.Disabled(op.name) == record.Disabled(op.name)
    requires stopped.active == if op.clears then None else record.active
    requires stopped.dirs == record.dirs || stopped.dirs == record.dirs[op.name := record.Disabled(op.name)]
    requires op.name in memory.profiles || stopped.dirs == record.dirs
    ensures After(stopped, memory, op, room) == After(record, memory, op, room)
  {
    AllLand(record, Plan(record, memory, op), room);
    AllLand(stopped, Plan(stopped, memory, op), room);
  }

  /** An operation that stopped after any of its writes and is run again, with the same answers from outside, leaves
      what it would have left uninterrupted exactly when it is no capture stopped before its undo. */
  lemma RetryLandsExactlyWhen(record: Record, memory: Memory, op: Op, cut: nat, room: nat)
    requires room >= 3 && cut < |Plan(record, memory, op)|
    ensures After(After(record, memory, op, cut), memory, op, room) == After(record, memory, op, room)
      <==> !LeavesDirectory(record, op, cut)
  {
    StoppedAt(record, memory, op, cut);
    if cut > 0 {
      match op {
        case Overwrite(_, _, _, _) =>
          OverwriteStopped(record, memory, op, cut);
          OverwriteAgain(record, After(record, memory, op, cut), memory, op, room);
        case CreateBlank(_, _) => CreateAgain(record, memory, op, room);
        case Capture(_, _, _) => CreateAgain(record, memory, op, room);
        case Delete(_, _) => RemoveAgain(record, memory, op, room);
        case Rename(_, _, _) => RemoveAgain(record, memory, op, room);
        case _ => SwitchAgain(record, memory, op, room);
      }
    }
  }
}
