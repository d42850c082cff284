/** When each operation on the long-lived token goes ahead, and what it leaves in the backup and the quarantine,
    told by the logins the files hold. */
module SidecarOutcomes {
  import opened Wrappers
  import opened Json
  import opened Credentials
  import opened Sidecar
  import opened SidecarTheorems
  import opened SidecarKeys
  import opened Journal

  /* ---------- the kinds of login ---------- */

  predicate MintScopes(scopes: Option<seq<string>>) {
    scopes.Some? ==> forall i :: 0 <= i < |scopes.value| ==>
      scopes.value[i] == "user:inference" || scopes.value[i] == "user:sessions:claude_code"
  }

  /** A setup token's login: no refresh token, no subscription, and no scope but a setup token's two. */
  predicate MintFile(content: Content) {
    && ReadLogin(content).Login? && ReadLogin(content).oauth.refreshToken.None?
    && ReadLogin(content).oauth.subscriptionType.None? && MintScopes(ReadLogin(content).oauth.scopes)
  }

  /** It names no expiry, or one more than five minutes off. */
  predicate StillLives(content: Content, now: int)
    requires ReadLogin(content).Login?
  {
    var expiry := ReadLogin(content).oauth.expiresAt;
    expiry.None? || expiry.value > now + 300_000
  }

  /** It expires no earlier, naming no expiry being never. */
  predicate Outlasts(content: Content, other: Content)
    requires ReadLogin(content).Login? && ReadLogin(other).Login?
  {
    var expiry, its := ReadLogin(content).oauth.expiresAt, ReadLogin(other).oauth.expiresAt;
    expiry.None? || (its.Some? && expiry.value >= its.value)
  }

  lemma MintFilesAre(content: Content)
    ensures IsMint(content) <==> MintFile(content)
  {}

  lemma VerdictIs(content: Content, now: Clock)
    ensures ClassifyBackup(content, now).NoMint? <==> !MintFile(content)
    ensures ClassifyBackup(content, now).LiveMint? <==> MintFile(content) && StillLives(content, now)
  {
    MintFilesAre(content);
  }

  /* ---------- how the operations end ---------- */

  /** The sidecar reads, and holds a refresh token, which no long-lived login has. */
  predicate Misfill(files: Files, world: World) {
    files.sidecar.Some? && SessionToken !in world.unreadable && HoldsRefreshToken(files.sidecar.value)
  }

  /** What of the backup says it may be put back. */
  function BackupSays(files: Files, world: World): Outcome {
    if files.backup.None? then NoLiveBackup
    else if StaticToken in world.unreadable then ReadFailed
    else if MintFile(files.backup.value) && StillLives(files.backup.value, world.now) then Done
    else NoLiveBackup
  }

  /** The files once the backup was looked at: one that holds no setup token is in the quarantine. */
  function BackupRead(files: Files, world: World): Files {
    if files.backup.Some? && StaticToken !in world.unreadable && !MintFile(files.backup.value)
    then files.(backup := None, quarantine := files.quarantine + [files.backup.value]) else files
  }

  lemma BackupIsRead(files: Files, world: World)
    ensures BackupPlan(files, world).outcome == BackupSays(files, world)
    ensures Run(files, BackupPlan(files, world).writes) == BackupRead(files, world)
  {
    if files.backup.Some? {
      VerdictIs(files.backup.value, world.now);
      ReplayTwo(files, Quarantine(files.backup.value), Remove(StaticToken), Applied);
    }
  }

  /** A heal goes ahead on a mis-fill with a living backup, which takes its place; the mis-fill is then in the
      quarantine and the backup slot empty. */
  lemma HealEnds(files: Files, world: World)
    ensures var plan, after := PlanOf(files, world, Heal), Finished(files, world, Heal);
      if !Misfill(files, world) then plan.outcome == NotMisfilled && after == files
      else
        && plan.outcome == BackupSays(files, world)
        && (if plan.outcome == Done then
              && after.sidecar == files.backup && after.backup.None?
              && after.quarantine == files.quarantine + [files.sidecar.value]
            else after == BackupRead(files, world))
  {
    BackupIsRead(files, world);
    if Misfill(files, world) && BackupSays(files, world) == Done {
      var saved := SyncWrites(files, world);
      var next := Run(files, saved);
      var rest := [Quarantine(files.sidecar.value), Put(SessionToken, files.backup.value), Remove(StaticToken)];
      SyncKeepsLogins(files, world);
      ReplayTogether(files, saved, rest, Applied);
      ReplayTwo(Applied(next, rest[0]), rest[1], rest[2], Applied);
      assert rest[1..] == [rest[1], rest[2]];
    }
  }

  /** A pre-clear goes ahead on a mis-fill, and leaves it in the quarantine alone. */
  lemma PreClearEnds(files: Files, world: World)
    ensures var plan, after := PlanOf(files, world, QuarantineMisfill), Finished(files, world, QuarantineMisfill);
      if Misfill(files, world) then
        plan.outcome == Done && after == files.(sidecar := None, quarantine := files.quarantine + [files.sidecar.value])
      else plan.outcome == NotMisfilled && after == files
  {
    if Misfill(files, world) {
      ReplayTwo(files, Quarantine(files.sidecar.value), Remove(SessionToken), Applied);
    }
  }

  /** A restore goes ahead on a living backup, which leaves its slot; a mis-fill it displaces is in the quarantine. */
  lemma RestoreEnds(files: Files, world: World)
    ensures var plan, after := PlanOf(files, world, Restore), Finished(files, world, Restore);
      && plan.outcome == BackupSays(files, world)
      && (if plan.outcome == Done then
            && after.sidecar.Some? && ReadLogin(after.sidecar.value) == ReadLogin(files.backup.value)
            && after.backup.None?
            && after.quarantine == files.quarantine + (if Misfill(files, world) then [files.sidecar.value] else [])
          else after == BackupRead(files, world))
  {
    BackupIsRead(files, world);
    if BackupSays(files, world) == Done {
      var saved := SyncWrites(files, world);
      var next := Run(files, saved);
      SyncKeepsLogins(files, world);
      ReplayTogether(files, saved, RestoreRest(next, world, files.backup.value).writes, Applied);
      RestPutsBack(next, world, files.backup.value);
    }
  }

  lemma RestPutsBack(files: Files, world: World, mint: Content)
    requires ReadLogin(mint).Login?
    ensures var after := Run(files, RestoreRest(files, world, mint).writes);
      && after.sidecar.Some? && ReadLogin(after.sidecar.value) == ReadLogin(mint) && after.backup.None?
      && after.quarantine == files.quarantine + (if Misfill(files, world) then [files.sidecar.value] else [])
  {
    var kept := KeepNonLogin(mint, files, world);
    var aside := if SeenMisfilled(files, world) then [Quarantine(files.sidecar.value)] else [];
    KeepKeepsLogin(mint, files, world);
    ReplayTogether(files, aside, [Put(SessionToken, kept), Remove(StaticToken)], Applied);
    if aside != [] {
      ReplayOne(files, aside[0], Applied);
    }
    ReplayTwo(Run(files, aside), Put(SessionToken, kept), Remove(StaticToken), Applied);
  }

  /* ---------- what a stamp keeps ---------- */

  /** The sidecar reads, and holds a setup token. */
  predicate HoldsMint(files: Files) {
    files.sidecar.Some? && MintFile(files.sidecar.value)
  }

  /** The backup in place is a living setup token that lasts as long as the sidecar's. */
  predicate BackupStays(files: Files, world: World)
    requires HoldsMint(files)
  {
    && files.backup.Some? && MintFile(files.backup.value)
    && StillLives(files.backup.value, world.now) && Outlasts(files.backup.value, files.sidecar.value)
  }

  /** The sidecar, or the backup it would displace, does not read. */
  predicate CannotPreserve(files: Files, world: World) {
    files.sidecar.Some? && (SessionToken in world.unreadable
                            || (MintFile(files.sidecar.value) && files.backup.Some? && StaticToken in world.unreadable))
  }

  /** A stamp before its own write: the sidecar's setup token is in the backup, unless the one there stays, and a
      backup it displaces that is none is in the quarantine. */
  predicate Preserved(files: Files, after: Files, world: World) {
    if !HoldsMint(files) || BackupStays(files, world) then
      after.backup == files.backup && after.quarantine == files.quarantine
    else
      && after.backup.Some? && ReadLogin(after.backup.value) == ReadLogin(files.sidecar.value)
      && after.quarantine == files.quarantine
           + (if files.backup.Some? && !MintFile(files.backup.value) then [files.backup.value] else [])
  }

  lemma PreserveEnds(files: Files, world: World)
    ensures var plan := PreservePlan(files, world);
      && plan.outcome == (if CannotPreserve(files, world) then ReadFailed else Done)
      && (plan.outcome == ReadFailed ==> plan.writes == [])
      && (plan.outcome == Done ==> Preserved(files, Run(files, plan.writes), world))
  {
    if files.sidecar.Some? {
      MintFilesAre(files.sidecar.value);
      if files.backup.Some? {
        VerdictIs(files.backup.value, world.now);
        ReplayTwo(files, Quarantine(files.backup.value), Put(StaticToken, files.sidecar.value), Applied);
      }
      ReplayOne(files, Put(StaticToken, files.sidecar.value), Applied);
    }
  }

  /** A stamp is refused for a chain that would read as a setup token, and fails where it cannot preserve one; else
      it leaves the chain's bearer in the sidecar, and the setup token that was there in the backup. */
  lemma StampEnds(files: Files, world: World, chain: OAuth)
    ensures var plan, after := PlanOf(files, world, Stamp(chain)), Finished(files, world, Stamp(chain));
      if chain.subscriptionType.None? && MintScopes(chain.scopes) then plan.outcome == Refused && after == files
      else if CannotPreserve(files, world) then
        && plan.outcome == ReadFailed && after.backup == files.backup && after.quarantine == files.quarantine
        && LoginAt(after.sidecar) == LoginAt(files.sidecar)
      else
        && plan.outcome == Done && Preserved(files, after, world)
        && after.sidecar.Some? && ReadLogin(after.sidecar.value) == Login(RollingProjection(chain))
  {
    var rolled := RollingProjection(chain);
    if SidecarKindOf(rolled) != Mint {
      var saved := SyncWrites(files, world);
      var next := Run(files, saved);
      SyncKeepsLogins(files, world);
      SavedAlike(files, next, world);
      PreserveEnds(next, world);
      ReplayTogether(files, saved, StampRest(next, world, rolled).writes, Applied);
      if !CannotPreserve(next, world) {
        StampRests(next, world, chain);
      }
    }
  }

  /** What a stamp does depends on the sidecar's login, which saving the live file keeps. */
  lemma SavedAlike(files: Files, next: Files, world: World)
    requires LoginAt(next.sidecar) == LoginAt(files.sidecar)
    requires next.backup == files.backup && next.quarantine == files.quarantine
    ensures CannotPreserve(next, world) == CannotPreserve(files, world)
    ensures HoldsMint(next) == HoldsMint(files)
    ensures forall after :: Preserved(next, after, world) ==> Preserved(files, after, world)
  {}

  lemma StampRests(files: Files, world: World, chain: OAuth)
    requires PreservePlan(files, world).outcome == Done
    ensures var rest := StampRest(files, world, RollingProjection(chain));
      var after, preserved := Run(files, rest.writes), Run(files, PreservePlan(files, world).writes);
      && rest.outcome == Done && after.backup == preserved.backup && after.quarantine == preserved.quarantine
      && after.sidecar.Some? && ReadLogin(after.sidecar.value) == Login(RollingProjection(chain))
  {
    var writes := PreservePlan(files, world).writes;
    var preserved := Run(files, writes);
    var kept := KeepNonLogin(FileOf(RollingProjection(chain)), preserved, world);
    WrittenRolling(chain);
    KeepKeepsLogin(FileOf(RollingProjection(chain)), preserved, world);
    ReplayTogether(files, writes, [Put(SessionToken, kept)], Applied);
    ReplayOne(preserved, Put(SessionToken, kept), Applied);
  }
}
