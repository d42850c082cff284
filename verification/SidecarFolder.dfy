/** The profile directory the token operations change, one file at a time. */
module SidecarFolder {
  import opened Wrappers
  import opened Json
  import opened Credentials
  import opened NonLoginKeys
  import opened Sidecar
  import opened Journal

  /** What an operation reports: its plan's outcome, and never success when a write did not land. */
  predicate Ends(plan: Plan, room: nat, outcome: Outcome) {
    if room < |plan.writes| then outcome != Done else outcome == plan.outcome
  }

  /** `room` is how many more writes the disk takes: the next one after them fails, or the process
      dies there. */
  class Folder {
    var sidecar: Option<Content>
    var backup: Option<Content>
    var store: Option<Content>
    var quarantine: seq<Content>
    var room: nat

    function Disk(): Files
      reads this
    {
      Files(sidecar, backup, store, quarantine)
    }

    constructor (files: Files, room: nat)
      ensures Disk() == files && this.room == room
    {
      sidecar, backup, store, quarantine := files.sidecar, files.backup, files.store, files.quarantine;
      this.room := room;
    }

    method Commit(write: Write) returns (ok: bool)
      modifies this
      ensures ok <==> old(room) > 0
      ensures Disk() == Run(old(Disk()), Taken([write], old(room)))
      ensures room == Left([write], old(room))
    {
      if room == 0 {
        return false;
      }
      match write {
        case Put(slot, content) => SetSlot(slot, Some(content));
        case Remove(slot) => SetSlot(slot, None);
        case Quarantine(content) => quarantine := quarantine + [content];
      }
      assert Disk() == Applied(old(Disk()), write);
      ReplayOne(old(Disk()), write, Applied);
      room := room - 1;
      ok := true;
    }

    method SetSlot(slot: Slot, content: Option<Content>)
      modifies this
      ensures Disk() == old(Disk()).With(slot, content) && room == old(room)
    {
      match slot {
        case SessionToken => sidecar := content;
        case StaticToken => backup := content;
        case Store => store := content;
      }
    }

    method SyncLiveIntoInstallSource(world: World)
      modifies this
      ensures Disk() == Run(old(Disk()), Taken(SyncWrites(old(Disk()), world), old(room)))
      ensures room == Left(SyncWrites(old(Disk()), world), old(room))
    {
      if !world.preserve || world.live.None? {
        return;
      }
      var slot := InstallSource(Disk(), world);
      var held := Disk().At(slot);
      if held.None? || slot in world.unreadable || !held.value.Doc? {
        return;
      }
      var live := world.forget(world.live.value);
      var login := AccessToken(held.value.json);
      if login.None? || AccessToken(live) != login {
        return;
      }
      var synced, changed := CopyNonLoginKeys(held.value.json, live);
      if changed {
        var ok := Commit(Put(slot, Doc(synced)));
      }
    }

    method KeptNonLogin(rebuilt: Content, world: World) returns (kept: Content)
      ensures kept == KeepNonLogin(rebuilt, Disk(), world)
    {
      var slot := if sidecar.Some? then SessionToken else Store;
      var source := Disk().At(slot);
      if !world.preserve || source.None? || slot in world.unreadable || !source.value.Doc? || !rebuilt.Doc? {
        return rebuilt;
      }
      if slot.SessionToken? && HoldsKind(source.value, Misfilled) {
        return rebuilt;
      }
      var current := if slot.SessionToken? then source.value.json else world.forget(source.value.json);
      var merged, _ := CopyNonLoginKeys(rebuilt.json, current);
      kept := Doc(merged);
    }

    method PreserveStaticMint(world: World) returns (outcome: Outcome)
      modifies this
      ensures var plan := PreservePlan(old(Disk()), world);
        && Disk() == Run(old(Disk()), Taken(plan.writes, old(room)))
        && room == Left(plan.writes, old(room))
        && outcome == if old(room) < |plan.writes| then WriteFailed else plan.outcome
    {
      ghost var start := Disk();
      ghost var plan := PreservePlan(start, world);
      if sidecar.None? {
        return Done;
      }
      if SessionToken in world.unreadable {
        return ReadFailed;
      }
      var raw := sidecar.value;
      if !IsMint(raw) {
        return Done;
      }
      if backup.Some? {
        if StaticToken in world.unreadable {
          return ReadFailed;
        }
        if BackupStands(backup.value, ReadLogin(raw).oauth, world.now) {
          return Done;
        }
        if ClassifyBackup(backup.value, world.now).NoMint? {
          TakenTogether(start, [Quarantine(backup.value)], [Put(StaticToken, raw)], Applied, room);
          assert plan.writes == [Quarantine(backup.value)] + [Put(StaticToken, raw)];
          var ok := Commit(Quarantine(backup.value));
          if !ok {
            return WriteFailed;
          }
          ok := Commit(Put(StaticToken, raw));
          return if ok then Done else WriteFailed;
        }
      }
      var ok := Commit(Put(StaticToken, raw));
      outcome := if ok then Done else WriteFailed;
    }

    method StampRollingToken(world: World, chain: OAuth) returns (outcome: Outcome)
      modifies this
      ensures Disk() == After(old(Disk()), world, Stamp(chain), old(room))
      ensures Ends(StampPlan(old(Disk()), world, chain), old(room), outcome)
    {
      var rolled := RollingProjection(chain);
      if SidecarKindOf(rolled) == Mint {
        return Refused;
      }
      ghost var start, saved := Disk(), SyncWrites(Disk(), world);
      TakenTogether(start, saved, StampRest(Run(start, saved), world, rolled).writes, Applied, room);
      SyncLiveIntoInstallSource(world);
      outcome := StampSynced(world, rolled);
    }

    method StampSynced(world: World, rolled: OAuth) returns (outcome: Outcome)
      modifies this
      ensures var plan := StampRest(old(Disk()), world, rolled);
        && Disk() == Run(old(Disk()), Taken(plan.writes, old(room)))
        && Ends(plan, old(room), outcome)
      ensures old(room) == 0 ==> outcome != Done
    {
      ghost var preserved := PreservePlan(Disk(), world).writes;
      ghost var put := Put(SessionToken, KeepNonLogin(FileOf(rolled), Run(Disk(), preserved), world));
      TakenTogether(Disk(), preserved, [put], Applied, room);
      outcome := PreserveStaticMint(world);
      if outcome != Done {
        return;
      }
      var kept := KeptNonLogin(FileOf(rolled), world);
      var ok := Commit(Put(SessionToken, kept));
      outcome := if ok then Done else WriteFailed;
    }

    method WriteSessionToken(world: World, token: string) returns (outcome: Outcome)
      modifies this
      ensures Disk() == After(old(Disk()), world, Remint(token), old(room))
      ensures Ends(RemintPlan(old(Disk()), world, token), old(room), outcome)
    {
      ghost var start, saved := Disk(), SyncWrites(Disk(), world);
      SyncLiveIntoInstallSource(world);
      var kept := KeptNonLogin(FileOf(MintOf(token, world.now)), world);
      TakenTogether(start, saved, [Put(SessionToken, kept)], Applied, old(room));
      var ok := Commit(Put(SessionToken, kept));
      outcome := if ok then Done else WriteFailed;
    }

    method WriteSessionTokenWithBackup(world: World, token: string) returns (outcome: Outcome)
      modifies this
      ensures Disk() == After(old(Disk()), world, RemintWithBackup(token), old(room))
      ensures Ends(RemintWithBackupPlan(old(Disk()), world, token), old(room), outcome)
    {
      ghost var start, saved := Disk(), SyncWrites(Disk(), world);
      SyncLiveIntoInstallSource(world);
      ghost var synced, left := Disk(), room;
      var kept := KeptNonLogin(FileOf(MintOf(token, world.now)), world);
      TakenTogether(start, saved, [Put(SessionToken, kept), Put(StaticToken, kept)], Applied, old(room));
      TakenTogether(synced, [Put(SessionToken, kept)], [Put(StaticToken, kept)], Applied, left);
      var ok := Commit(Put(SessionToken, kept));
      if !ok {
        return WriteFailed;
      }
      ok := Commit(Put(StaticToken, kept));
      outcome := if ok then Done else WriteFailed;
    }

    /** The backup, when it holds a live mint to put back. */
    method LiveBackup(world: World) returns (outcome: Outcome)
      modifies this
      ensures var plan := BackupPlan(old(Disk()), world);
        && Disk() == Run(old(Disk()), Taken(plan.writes, old(room)))
        && room == Left(plan.writes, old(room))
        && outcome == if old(room) < |plan.writes| then WriteFailed else plan.outcome
    {
      if backup.None? {
        return NoLiveBackup;
      }
      if StaticToken in world.unreadable {
        return ReadFailed;
      }
      match ClassifyBackup(backup.value, world.now) {
        case LiveMint =>
          return Done;
        case Expired =>
          return NoLiveBackup;
        case NoMint =>
          TakenTogether(Disk(), [Quarantine(backup.value)], [Remove(StaticToken)], Applied, room);
          assert BackupPlan(Disk(), world).writes == [Quarantine(backup.value)] + [Remove(StaticToken)];
          var ok := Commit(Quarantine(backup.value));
          if !ok {
            return WriteFailed;
          }
          ok := Commit(Remove(StaticToken));
          return if ok then NoLiveBackup else WriteFailed;
      }
    }

    method HealMisfilledSidecar(world: World) returns (outcome: Outcome)
      modifies this
      ensures Disk() == After(old(Disk()), world, Heal, old(room))
      ensures Ends(HealPlan(old(Disk()), world), old(room), outcome)
    {
      if !SeenMisfilled(Disk(), world) {
        return NotMisfilled;
      }
      outcome := LiveBackup(world);
      if outcome != Done {
        return;
      }
      outcome := HealMisfill(world, sidecar.value, backup.value);
    }

    /** The heal of a mis-fill whose backup holds a live mint. */
    method HealMisfill(world: World, misfill: Content, mint: Content) returns (outcome: Outcome)
      modifies this
      ensures var writes := SyncWrites(old(Disk()), world)
          + [Quarantine(misfill), Put(SessionToken, mint), Remove(StaticToken)];
        && Disk() == Run(old(Disk()), Taken(writes, old(room)))
        && (if old(room) < |writes| then outcome != Done else outcome == Done)
    {
      ghost var start, saved := Disk(), SyncWrites(Disk(), world);
      ghost var rest := [Quarantine(misfill), Put(SessionToken, mint), Remove(StaticToken)];
      TakenTogether(start, saved, rest, Applied, room);
      SyncLiveIntoInstallSource(world);
      assert rest == [Quarantine(misfill)] + [Put(SessionToken, mint), Remove(StaticToken)];
      outcome := PutBack([Quarantine(misfill)], mint);
    }

    /** The writes that end a heal or a restore: `aside` first, then the mint back, then the consumed
        backup gone. */
    method PutBack(aside: seq<Write>, mint: Content) returns (outcome: Outcome)
      requires |aside| <= 1
      modifies this
      ensures var writes := aside + [Put(SessionToken, mint), Remove(StaticToken)];
        && Disk() == Run(old(Disk()), Taken(writes, old(room)))
        && outcome == if old(room) < |writes| then WriteFailed else Done
    {
      ghost var start := Disk();
      TakenTogether(start, aside, [Put(SessionToken, mint), Remove(StaticToken)], Applied, room);
      if |aside| == 1 {
        assert aside == [aside[0]];
        var ok := Commit(aside[0]);
        if !ok {
          return WriteFailed;
        }
      }
      TakenTogether(Disk(), [Put(SessionToken, mint)], [Remove(StaticToken)], Applied, room);
      assert [Put(SessionToken, mint)] + [Remove(StaticToken)] == [Put(SessionToken, mint), Remove(StaticToken)];
      var ok := Commit(Put(SessionToken, mint));
      if !ok {
        return WriteFailed;
      }
      ok := Commit(Remove(StaticToken));
      outcome := if ok then Done else WriteFailed;
    }

    method RestoreStaticMint(world: World) returns (outcome: Outcome)
      modifies this
      ensures Disk() == After(old(Disk()), world, Restore, old(room))
      ensures Ends(RestorePlan(old(Disk()), world), old(room), outcome)
    {
      outcome := LiveBackup(world);
      if outcome != Done {
        return;
      }
      var mint := backup.value;
      ghost var start, saved := Disk(), SyncWrites(Disk(), world);
      TakenTogether(start, saved, RestoreRest(Run(start, saved), world, mint).writes, Applied, room);
      SyncLiveIntoInstallSource(world);
      var aside := if SeenMisfilled(Disk(), world) then [Quarantine(sidecar.value)] else [];
      var kept := KeptNonLogin(mint, world);
      outcome := PutBack(aside, kept);
    }

    method QuarantineMisfilledSidecar(world: World) returns (outcome: Outcome)
      modifies this
      ensures Disk() == After(old(Disk()), world, QuarantineMisfill, old(room))
      ensures Ends(QuarantinePlan(old(Disk()), world), old(room), outcome)
    {
      if !SeenMisfilled(Disk(), world) {
        return NotMisfilled;
      }
      var misfill := sidecar.value;
      TakenTogether(Disk(), [Quarantine(misfill)], [Remove(SessionToken)], Applied, room);
      assert QuarantinePlan(Disk(), world).writes == [Quarantine(misfill)] + [Remove(SessionToken)];
      var ok := Commit(Quarantine(misfill));
      if !ok {
        return WriteFailed;
      }
      ok := Commit(Remove(SessionToken));
      outcome := if ok then Done else WriteFailed;
    }
  }
}
