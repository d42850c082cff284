/** The operations that change the roster, the directories and the marker, as a process runs them. */
module ActiveMarkerHome {
  import opened Wrappers
  import opened Journal
  import opened ActiveMarker

  /** A process's copy of the state, read some time ago. */
  class AppConfig {
    var active: Option<Name>
    var profiles: map<Name, bool>

    function Copy(): Memory
      reads this
    {
      Memory(active, profiles)
    }
  }

  /** The disk, which takes `room` more writes. */
  class Home {
    var active: Option<Name>
    var roster: seq<Name>
    var dirs: map<Name, bool>
    var room: nat

    function Disk(): Record
      reads this
    {
      Record(active, roster, dirs)
    }

    method Commit(write: Write) returns (ok: bool)
      modifies this
      ensures ok <==> old(room) > 0
      ensures Disk() == Replay(old(Disk()), Taken([write], old(room)), Applied)
      ensures room == Left([write], old(room))
    {
      if room == 0 {
        return false;
      }
      match write {
        case SaveState(marker, names) => active, roster := marker, names;
        case PutConfig(name, disabled) => dirs := dirs[name := disabled];
        case RemoveDir(name) => dirs := dirs - {name};
        case MoveDir(from, to) =>
          if from in dirs {
            dirs := (dirs - {from})[to := dirs[from]];
          }
      }
      ReplayOne(old(Disk()), write, Applied);
      room := room - 1;
      ok := true;
    }

    /** The active account saved with the live login just captured into it. */
    method CaptureLiveLogin(captures: bool) returns (ok: bool)
      modifies this
      ensures var writes := CaptureWrites(old(Disk()), captures);
        && Disk() == Replay(old(Disk()), Taken(writes, old(room)), Applied)
        && room == Left(writes, old(room))
        && (ok <==> old(room) >= |writes|)
    {
      if captures && active.Some? && active.value in roster {
        ok := Commit(PutConfig(active.value, Disk().Disabled(active.value)));
      } else {
        ok := true;
      }
    }

    /** A switch: the outgoing account is the one disk names, so memory is made equal to it first. */
    method SwitchProfile(config: AppConfig, name: Name, captures: bool, proceeds: bool) returns (moved: bool)
      modifies this, config
      ensures Disk() == After(old(Disk()), old(config.Copy()), Switch(name, captures, proceeds), old(room))
      ensures var ok := SwitchTargetOk(old(Disk()), old(config.Copy()), name);
        && (moved <==> ok && old(active) != Some(name) && active == Some(name))
        && config.Copy() == Memory(if moved then Some(name) else if ok then old(active) else old(config.active),
                                   old(config.profiles))
    {
      if !SwitchTargetOk(Disk(), config.Copy(), name) {
        return false;
      }
      config.active := active;
      if config.active == Some(name) && active == Some(name) {
        return false;
      }
      ghost var start, capture := Disk(), CaptureWrites(Disk(), captures);
      TakenTogether(start, capture, [SaveState(Some(name), roster)], Applied, room);
      var ok := CaptureLiveLogin(captures);
      if !ok || !proceeds {
        assert capture + [] == capture;
        return false;
      }
      ok := Commit(SaveState(Some(name), roster));
      if ok {
        config.active := Some(name);
      }
      moved := ok;
    }

    method SwitchOffAccount(config: AppConfig, captures: bool) returns (off: bool)
      modifies this, config
      ensures Disk() == After(old(Disk()), old(config.Copy()), SwitchOff(captures), old(room))
      ensures off <==> old(active).Some? && active.None?
      ensures var captured := old(room) >= |CaptureWrites(old(Disk()), captures)|;
        config.Copy() == Memory(if captured then None else old(active), old(config.profiles))
    {
      config.active := active;
      if config.active.None? {
        return false;
      }
      ghost var start, capture := Disk(), CaptureWrites(Disk(), captures);
      TakenTogether(start, capture, [SaveState(None, roster)], Applied, room);
      var ok := CaptureLiveLogin(captures);
      if !ok {
        return false;
      }
      config.active := None;
      off := Commit(SaveState(None, roster));
    }

    method CreateBlankProfile(config: AppConfig, name: Name, allowed: bool) returns (created: bool)
      modifies this, config
      ensures Disk() == After(old(Disk()), old(config.Copy()), CreateBlank(name, allowed), old(room))
      ensures created <==> allowed && !NameTaken(old(roster), name, None) && old(room) >= 2
      ensures created ==> name in roster
      ensures config.Copy() ==
        if created then Memory(active, old(config.profiles)[name := false]) else old(config.Copy())
    {
      if !allowed || NameTaken(roster, name, None) {
        return false;
      }
      ghost var start := Disk();
      var names := With(roster, name);
      TakenTogether(start, [PutConfig(name, false)], [SaveState(active, names)], Applied, room);
      assert [PutConfig(name, false)] + [SaveState(active, names)] == [PutConfig(name, false), SaveState(active, names)];
      var ok := Commit(PutConfig(name, false));
      if !ok {
        return false;
      }
      created := Commit(SaveState(active, names));
      if created {
        config.profiles := config.profiles[name := false];
        config.active := active;
      }
    }

    /** A captured login's new account, activated when no account is. */
    method CaptureIntoProfile(config: AppConfig, name: Name, allowed: bool, links: bool) returns (created: bool)
      modifies this, config
      ensures Disk() == After(old(Disk()), old(config.Copy()), Capture(name, allowed, links), old(room))
      ensures created <==>
        allowed && !NameTaken(old(roster), name, None) && (old(active).Some? || links) && old(room) >= 2
      ensures created ==> name in roster && active.Some? && (old(active).Some? ==> active == old(active))
      ensures config.Copy() ==
        if created then Memory(active, old(config.profiles)[name := false]) else old(config.Copy())
    {
      if !allowed || NameTaken(roster, name, None) {
        return false;
      }
      ghost var start := Disk();
      var undo := Undo(Disk(), name);
      var marker := if active.None? then Some(name) else active;
      var names := With(roster, name);
      var last := if active.None? && !links then undo else SaveState(marker, names);
      TakenTogether(start, [PutConfig(name, false)], [last], Applied, room);
      assert [PutConfig(name, false)] + [last] == [PutConfig(name, false), last];
      var ok := Commit(PutConfig(name, false));
      if !ok {
        return false;
      }
      if active.None? && !links {
        ok := Commit(undo);
        return false;
      }
      created := Commit(SaveState(marker, names));
      if created {
        config.profiles := config.profiles[name := false];
        config.active := active;
      }
    }

    /** A login overwritten into an account; disowning the active one first is best effort. */
    method OverwriteCapturedProfile(config: AppConfig, name: Name, sameAccount: bool, clears: bool, links: bool)
      returns (done: bool)
      modifies this, config
      ensures Disk() == After(old(Disk()), old(config.Copy()), Overwrite(name, sameAccount, clears, links), old(room))
      ensures var claimed := name in old(roster) && sameAccount;
        && (done <==> claimed && Activates(old(Disk()), old(config.Copy()), name, clears, links)
                      && old(room) >= if clears then 3 else 2)
        && config.Copy() == Memory(
             if done then active else if claimed && clears && old(room) > 0 then None else old(config.active),
             old(config.profiles))
    {
      if name !in roster || !sameAccount {
        return false;
      }
      ghost var start, memory := Disk(), config.Copy();
      ghost var cleared := if clears then [SaveState(None, roster)] else [];
      ghost var rest := OverwriteWrites(start, memory, name, clears, links)[|cleared|..];
      assert OverwriteWrites(start, memory, name, clears, links) == cleared + rest;
      TakenTogether(start, cleared, rest, Applied, room);
      if clears {
        var ok := Commit(SaveState(None, roster));
        if ok {
          config.active := None;
        }
      }
      ghost var left := OverwriteWrites(Disk(), config.Copy(), name, false, links);
      if clears && room == 0 {
        assert Taken(left, 0) == [];
      } else {
        assert left == rest;
      }
      done := OverwriteRest(config, name, links);
    }

    /** The overwrite once the marker is cleared or left. */
    method OverwriteRest(config: AppConfig, name: Name, links: bool) returns (done: bool)
      modifies this, config
      ensures Disk() == Replay(old(Disk()), Taken(OverwriteWrites(old(Disk()), old(config.Copy()), name, false, links),
                                                  old(room)), Applied)
      ensures done <==> Activates(old(Disk()), old(config.Copy()), name, false, links) && old(room) >= 2
      ensures config.Copy() == Memory(if done then active else old(config.active), old(config.profiles))
    {
      ghost var start, memory := Disk(), config.Copy();
      ghost var writes := OverwriteWrites(start, memory, name, false, links);
      if name !in config.profiles {
        return false;
      }
      var disabled := Disk().Disabled(name);
      TakenTogether(start, [PutConfig(name, disabled)], writes[1..], Applied, room);
      assert writes == [PutConfig(name, disabled)] + writes[1..];
      var ok := Commit(PutConfig(name, disabled));
      if !ok {
        return false;
      }
      var marker := active;
      if active.None? && !disabled {
        if !links {
          return false;
        }
        marker := Some(name);
      }
      done := Commit(SaveState(marker, roster));
      if done {
        config.active := active;
      }
    }

    method DeleteProfile(config: AppConfig, name: Name, allowed: bool) returns (deleted: bool)
      modifies this, config
      ensures Disk() == After(old(Disk()), old(config.Copy()), Delete(name, allowed), old(room))
      ensures deleted <==> allowed && old(room) >= |DeleteWrites(old(Disk()), name)|
      ensures deleted ==> name !in dirs && active != Some(name)
      ensures config.Copy() == if deleted then Memory(active, old(config.profiles) - {name}) else old(config.Copy())
    {
      if !allowed {
        return false;
      }
      ghost var start := Disk();
      var gone := if name in dirs then [RemoveDir(name)] else [];
      var save := SaveState(if active == Some(name) then None else active, Without(roster, name));
      TakenTogether(start, gone, [save], Applied, room);
      if name in dirs {
        var ok := Commit(RemoveDir(name));
        if !ok {
          return false;
        }
      }
      deleted := Commit(save);
      if deleted {
        config.profiles := config.profiles - {name};
        config.active := active;
      }
    }

    method RenameProfile(config: AppConfig, from: Name, to: Name, allowed: bool) returns (renamed: bool)
      modifies this, config
      ensures Disk() == After(old(Disk()), old(config.Copy()), Rename(from, to, allowed), old(room))
      ensures var plan := Plan(old(Disk()), old(config.Copy()), Rename(from, to, allowed));
        renamed <==> plan != [] && old(room) >= |plan|
      ensures renamed && from != to ==> active != Some(from)
      ensures var known := old(config.profiles);
        config.Copy() ==
          if renamed then Memory(active, if from in known then (known - {from})[to := known[from]] else known)
          else old(config.Copy())
    {
      if !allowed || from !in roster || NameTaken(roster, to, Some(from)) {
        return false;
      }
      if from in dirs && to in dirs && from != to {
        return false;
      }
      ghost var start := Disk();
      var moved := if from in dirs then [MoveDir(from, to)] else [];
      var save := SaveState(if active == Some(from) then Some(to) else active, Renamed(roster, from, to));
      TakenTogether(start, moved, [save], Applied, room);
      if from in dirs {
        var ok := Commit(MoveDir(from, to));
        if !ok {
          return false;
        }
      }
      renamed := Commit(save);
      if renamed {
        if from in config.profiles {
          config.profiles := (config.profiles - {from})[to := config.profiles[from]];
        }
        config.active := active;
      }
    }

    method DisableProfile(config: AppConfig, name: Name, session: bool) returns (changed: bool)
      modifies this, config
      ensures Disk() == After(old(Disk()), old(config.Copy()), Disable(name, session), old(room))
      ensures changed <==> Disk().Disabled(name) && !old(Disk().Disabled(name))
      ensures changed ==> active != Some(name)
      ensures var known := old(config.profiles);
        config.Copy() == Memory(
          old(config.active), if name in known && name in roster && Disk().Disabled(name) then known[name := true] else known)
    {
      if name !in config.profiles || name !in roster {
        return false;
      }
      if Disk().Disabled(name) {
        config.profiles := config.profiles[name := true];
        return false;
      }
      if config.active == Some(name) || active == Some(name) || session {
        return false;
      }
      changed := Commit(PutConfig(name, true));
      if changed {
        config.profiles := config.profiles[name := true];
      }
    }

    method EnableProfile(config: AppConfig, name: Name) returns (changed: bool)
      modifies this, config
      ensures Disk() == After(old(Disk()), old(config.Copy()), Enable(name), old(room))
      ensures changed <==> !Disk().Disabled(name) && old(Disk().Disabled(name))
      ensures config.Copy() ==
        Memory(old(config.active), if changed then old(config.profiles)[name := false] else old(config.profiles))
    {
      if name !in config.profiles || name !in roster || !Disk().Disabled(name) {
        return false;
      }
      changed := Commit(PutConfig(name, false));
      if changed {
        config.profiles := config.profiles[name := false];
      }
    }
  }
}
