/** The keys a profile keeps beside its login, as they follow it into a sidecar that is written anew. */
module SidecarKeys {
  import opened Wrappers
  import opened Json
  import opened Credentials
  import opened TokenMerge
  import opened NonLoginKeys
  import opened Sidecar
  import opened SidecarTheorems
  import opened Journal

  /** The operations that write the sidecar anew and keep the keys beside the login. */
  predicate Rewrites(op: Op) {
    op.Stamp? || op.Remint? || op.RemintWithBackup? || op.Restore?
  }

  /** The file such an operation writes before any key is kept. */
  function NewFile(files: Files, world: World, op: Op): Content
    requires Rewrites(op) && (op.Restore? ==> files.backup.Some?)
  {
    match op
    case Stamp(chain) => FileOf(RollingProjection(chain))
    case Remint(token) => FileOf(MintOf(token, world.now))
    case RemintWithBackup(token) => FileOf(MintOf(token, world.now))
    case Restore => files.backup.value
  }

  predicate HoldsRefreshToken(content: Content) {
    ReadLogin(content).Login? && ReadLogin(content).oauth.refreshToken.Some?
  }

  /** What the keys come from: the sidecar, unless it is mis-filled; where there is none, the profile's store
      without the logins signed out of. */
  function KeysFrom(files: Files, world: World): Option<Json> {
    if !world.preserve then None
    else if files.sidecar.Some? then
      if SessionToken in world.unreadable || !files.sidecar.value.Doc? || HoldsRefreshToken(files.sidecar.value) then None
      else Some(files.sidecar.value.json)
    else if Store in world.unreadable || files.store.None? || !files.store.value.Doc? then None
    else Some(world.forget(files.store.value.json))
  }

  /** One key where `other`'s keys are merged over a file: a login key is the file's own, a key the file does
      not name is the other's, and where both name one the fresher copy stays. */
  function KeyWith(own: Option<Json>, other: Option<Json>, key: string): Option<Json> {
    if key in LOGIN_CREDENTIAL_KEYS || other.None? || other.value.Get(key).None? then own
    else if own.None? then other.value.Get(key)
    else Some(FresherCopyOf(own.value, other.value.Get(key).value))
  }

  /* ---------- saving the live file first ---------- */

  /** The file the live login's keys are saved in: the sidecar while it holds a long-lived login. */
  function SaveSlot(files: Files, world: World): Slot {
    if files.sidecar.Some? && SessionToken !in world.unreadable && ReadLogin(files.sidecar.value).Login?
       && !HoldsRefreshToken(files.sidecar.value) then SessionToken else Store
  }

  /** The live file's keys that are saved: none but beside the login the slot holds. */
  function SavedFrom(files: Files, world: World): Option<Json> {
    var slot := SaveSlot(files, world);
    if !world.preserve || world.live.None? || files.At(slot).None? || slot in world.unreadable
       || !files.At(slot).value.Doc? then None
    else
      var live, held := world.forget(world.live.value), files.At(slot).value.json;
      if AccessToken(held).Some? && AccessToken(held) == AccessToken(live) && live.Obj? then Some(live) else None
  }

  /** Saving the live file gives its slot the fresher copy of each key beside the login, and moves nothing
      else. */
  lemma LiveKeysAreSaved(files: Files, world: World, key: string)
    ensures var slot, saved := SaveSlot(files, world), Run(files, SyncWrites(files, world));
      && (forall other :: other != slot ==> saved.At(other) == files.At(other))
      && (SavedFrom(files, world).None? ==> saved == files)
      && (SavedFrom(files, world).Some? ==>
            && saved.At(slot).Some? && saved.At(slot).value.Doc?
            && saved.At(slot).value.json.Get(key) ==
                 KeyWith(files.At(slot).value.json.Get(key), SavedFrom(files, world), key))
  {
    var writes := SyncWrites(files, world);
    assert InstallSource(files, world) == SaveSlot(files, world);
    if SavedFrom(files, world).Some? {
      CopiedAt(files.At(SaveSlot(files, world)).value.json, SavedFrom(files, world).value, key);
    }
    if writes != [] {
      ReplayOne(files, writes[0], Applied);
    }
  }

  /* ---------- the file left behind ---------- */

  lemma KeptKey(rebuilt: Content, files: Files, world: World, key: string)
    requires rebuilt.Doc? && rebuilt.json.Obj?
    ensures var kept := KeepNonLogin(rebuilt, files, world);
      kept.Doc? && kept.json.Get(key) == KeyWith(rebuilt.json.Get(key), KeysFrom(files, world), key)
    ensures KeysFrom(files, world).None? ==> KeepNonLogin(rebuilt, files, world) == rebuilt
  {
    if KeysFrom(files, world).Some? {
      CopiedAt(rebuilt.json, KeysFrom(files, world).value, key);
    }
  }

  /** The sidecar a finished operation leaves is its new file with the keys kept, on the files as they are
      once the live file is saved. */
  lemma SidecarLeft(files: Files, world: World, op: Op)
    requires Rewrites(op) && PlanOf(files, world, op).outcome == Done
    ensures op.Restore? ==> files.backup.Some?
    ensures var saved := Run(files, SyncWrites(files, world));
      Finished(files, world, op).sidecar == Some(KeepNonLogin(NewFile(files, world, op), saved, world))
  {
    var writes := SyncWrites(files, world);
    var saved := Run(files, writes);
    match op {
      case Stamp(chain) => StampLeaves(files, world, chain);
      case Remint(token) =>
        var put := Put(SessionToken, KeepNonLogin(FileOf(MintOf(token, world.now)), saved, world));
        ReplayTogether(files, writes, [put], Applied);
        ReplayOne(saved, put, Applied);
      case RemintWithBackup(token) =>
        var kept := KeepNonLogin(FileOf(MintOf(token, world.now)), saved, world);
        ReplayTogether(files, writes, [Put(SessionToken, kept), Put(StaticToken, kept)], Applied);
        ReplayTwo(saved, Put(SessionToken, kept), Put(StaticToken, kept), Applied);
      case Restore =>
        SyncKeepsLogins(files, world);
        var kept := KeepNonLogin(files.backup.value, saved, world);
        var aside := if SeenMisfilled(saved, world) then [Quarantine(saved.sidecar.value)] else [];
        PutBackRun(saved, aside, kept);
        ReplayTogether(files, writes, aside + [Put(SessionToken, kept), Remove(StaticToken)], Applied);
    }
  }

  lemma StampLeaves(files: Files, world: World, chain: OAuth)
    requires StampPlan(files, world, chain).outcome == Done
    ensures var saved := Run(files, SyncWrites(files, world));
      Finished(files, world, Stamp(chain)).sidecar
      == Some(KeepNonLogin(FileOf(RollingProjection(chain)), saved, world))
  {
    var writes := SyncWrites(files, world);
    var saved := Run(files, writes);
    var preserved := PreservePlan(saved, world).writes;
    var done := Run(saved, preserved);
    PreserveResult(saved, world);
    PreserveLeavesStore(saved, world);
    var kept := KeepNonLogin(FileOf(RollingProjection(chain)), done, world);
    assert kept == KeepNonLogin(FileOf(RollingProjection(chain)), saved, world);
    ReplayTogether(saved, preserved, [Put(SessionToken, kept)], Applied);
    ReplayOne(done, Put(SessionToken, kept), Applied);
    ReplayTogether(files, writes, preserved + [Put(SessionToken, kept)], Applied);
  }

  lemma PreserveLeavesStore(files: Files, world: World)
    ensures Run(files, PreservePlan(files, world).writes).store == files.store
  {
    var writes := PreservePlan(files, world).writes;
    if |writes| == 2 {
      ReplayTwo(files, writes[0], writes[1], Applied);
    } else if |writes| == 1 {
      ReplayOne(files, writes[0], Applied);
    }
  }

  lemma NewFileParses(files: Files, world: World, op: Op)
    requires Rewrites(op) && PlanOf(files, world, op).outcome == Done && (op.Restore? ==> files.backup.Some?)
    ensures NewFile(files, world, op).Doc? && NewFile(files, world, op).json.Obj?
  {}

  /** Every key of the sidecar a finished stamp, re-mint or restore leaves: the new file's own, with the keys
      beside the old login merged over it. */
  lemma KeysFollowTheLogin(files: Files, world: World, op: Op, key: string)
    requires Rewrites(op) && PlanOf(files, world, op).outcome == Done
    ensures op.Restore? ==> files.backup.Some?
    ensures var left := Finished(files, world, op).sidecar;
      var rebuilt := NewFile(files, world, op);
      && left.Some? && left.value.Doc? && rebuilt.Doc?
      && left.value.json.Get(key) ==
           KeyWith(rebuilt.json.Get(key), KeysFrom(Run(files, SyncWrites(files, world)), world), key)
  {
    SidecarLeft(files, world, op);
    NewFileParses(files, world, op);
    KeptKey(NewFile(files, world, op), Run(files, SyncWrites(files, world)), world, key);
  }

  lemma KeyWithKeeps(own: Option<Json>, other: Option<Json>, key: string)
    ensures var merged := KeyWith(own, other, key);
      && (own.Some? ==> merged.Some? && !Below(merged.value, own.value))
      && (key !in LOGIN_CREDENTIAL_KEYS && other.Some? && other.value.Get(key).Some? ==>
            && merged.Some? && !Below(merged.value, other.value.Get(key).value)
            && (own.None? ==> merged == other.value.Get(key)))
  {
    if own.Some? && other.Some? && other.value.Get(key).Some? {
      NeverRegresses(own.value, other.value.Get(key).value);
    }
  }

  /** Through the save of the live file a key of the sidecar stays and never comes to rank lower. */
  lemma SaveKeepsSidecarKey(files: Files, world: World, key: string)
    requires files.sidecar.Some? && files.sidecar.value.Doc? && files.sidecar.value.json.Get(key).Some?
    ensures var saved, held := Run(files, SyncWrites(files, world)).sidecar, files.sidecar.value.json.Get(key);
      && saved.Some? && saved.value.Doc? && saved.value.json.Get(key).Some?
      && !Below(saved.value.json.Get(key).value, held.value)
      && (SavedFrom(files, world).None? ==> saved.value.json.Get(key) == held)
  {
    LiveKeysAreSaved(files, world, key);
    KeyWithKeeps(files.sidecar.value.json.Get(key), SavedFrom(files, world), key);
    assert Run(files, SyncWrites(files, world)).At(SessionToken) == Run(files, SyncWrites(files, world)).sidecar;
  }

  lemma SavedSidecarIsSource(files: Files, world: World)
    requires files.sidecar.Some? && files.sidecar.value.Doc? && world.preserve
    requires SessionToken !in world.unreadable && !HoldsRefreshToken(files.sidecar.value)
    ensures var saved := Run(files, SyncWrites(files, world));
      && saved.sidecar.Some?
      && (saved.sidecar.value.Doc? ==> KeysFrom(saved, world) == Some(saved.sidecar.value.json))
  {
    SyncKeepsLogins(files, world);
  }

  /** With the setting on, no key beside the login of a sidecar that reads and is no mis-fill is lost by a
      finished stamp, re-mint or restore, and none comes to rank below what it was; where nothing is saved
      from the live file and the new file names no such key, it keeps its value. */
  lemma SidecarKeysSurvive(files: Files, world: World, op: Op, key: string)
    requires Rewrites(op) && PlanOf(files, world, op).outcome == Done && world.preserve
    requires files.sidecar.Some? && files.sidecar.value.Doc? && SessionToken !in world.unreadable
    requires !HoldsRefreshToken(files.sidecar.value)
    requires key !in LOGIN_CREDENTIAL_KEYS && files.sidecar.value.json.Get(key).Some?
    ensures op.Restore? ==> files.backup.Some?
    ensures var left, held := Finished(files, world, op).sidecar, files.sidecar.value.json.Get(key);
      && left.Some? && left.value.Doc? && left.value.json.Get(key).Some?
      && !Below(left.value.json.Get(key).value, held.value)
      && (SavedFrom(files, world).None? && NamesNo(NewFile(files, world, op), key) ==>
            left.value.json.Get(key) == held)
  {
    var saved := Run(files, SyncWrites(files, world)).sidecar;
    SaveKeepsSidecarKey(files, world, key);
    SavedSidecarIsSource(files, world);
    KeysFollowTheLogin(files, world, op, key);
    var own, left := NewFile(files, world, op).json.Get(key), Finished(files, world, op).sidecar;
    KeyWithKeeps(own, Some(saved.value.json), key);
    BelowTransitive(files.sidecar.value.json.Get(key).value, saved.value.json.Get(key).value,
                    left.value.json.Get(key).value);
  }

  predicate NamesNo(content: Content, key: string) {
    content.Doc? && content.json.Get(key).None?
  }

  /** Where there is no sidecar the profile's store stands in for it, without what was signed out of. */
  lemma StoreKeysComeAlong(files: Files, world: World, op: Op, key: string)
    requires Rewrites(op) && PlanOf(files, world, op).outcome == Done && world.preserve
    requires files.sidecar.None? && files.store.Some? && files.store.value.Doc? && Store !in world.unreadable
    requires SavedFrom(files, world).None?
    requires key !in LOGIN_CREDENTIAL_KEYS && world.forget(files.store.value.json).Get(key).Some?
    ensures op.Restore? ==> files.backup.Some?
    ensures var left, held := Finished(files, world, op).sidecar, world.forget(files.store.value.json).Get(key);
      && left.Some? && left.value.Doc? && left.value.json.Get(key).Some?
      && !Below(left.value.json.Get(key).value, held.value)
      && (NamesNo(NewFile(files, world, op), key) ==>
            left.value.json.Get(key) == held)
  {
    LiveKeysAreSaved(files, world, key);
    KeysFollowTheLogin(files, world, op, key);
    KeyWithKeeps(NewFile(files, world, op).json.Get(key), KeysFrom(files, world), key);
  }

  /** The keys beside a mis-filled login do not come along, nor does any with the setting off: the sidecar
      left is the new file itself. */
  lemma NothingElseComesAlong(files: Files, world: World, op: Op)
    requires Rewrites(op) && PlanOf(files, world, op).outcome == Done
    requires !world.preserve || (files.sidecar.Some? && HoldsRefreshToken(files.sidecar.value))
    ensures op.Restore? ==> files.backup.Some?
    ensures Finished(files, world, op).sidecar == Some(NewFile(files, world, op))
  {
    SidecarLeft(files, world, op);
    NewFileParses(files, world, op);
    NoSource(files, world);
    KeptKey(NewFile(files, world, op), Run(files, SyncWrites(files, world)), world, "");
  }

  lemma NoSource(files: Files, world: World)
    requires !world.preserve || (files.sidecar.Some? && HoldsRefreshToken(files.sidecar.value))
    ensures KeysFrom(Run(files, SyncWrites(files, world)), world).None?
  {
    SyncKeepsLogins(files, world);
  }

  /* ---------- whose login the new file holds ---------- */

  /** A stamp writes the chain's own bearer and expiry, and no refresh token; a re-mint the token given, for
      the assumed lifetime. */
  lemma NewLogins(chain: OAuth, token: string, now: Clock)
    ensures var rolled := ReadLogin(FileOf(RollingProjection(chain)));
      && rolled.Login? && rolled.oauth.accessToken == chain.accessToken && rolled.oauth.expiresAt == chain.expiresAt
      && rolled.oauth.scopes == chain.scopes && rolled.oauth.subscriptionType == chain.subscriptionType
      && rolled.oauth.refreshToken == None
      && (forall key :: key in rolled.oauth.extra ==> key == "rateLimitTier" && key in chain.extra
                                                       && rolled.oauth.extra[key] == chain.extra[key])
      && ("rateLimitTier" in chain.extra && chain.extra["rateLimitTier"].Str? ==> "rateLimitTier" in rolled.oauth.extra)
    ensures var minted := ReadLogin(FileOf(MintOf(token, now)));
      && minted.Login? && minted.oauth.accessToken == token && minted.oauth.refreshToken == None
      && minted.oauth.expiresAt == Some(now + 31_536_000_000)
      && minted.oauth.scopes == Some(["user:inference", "user:sessions:claude_code"])
      && minted.oauth.subscriptionType == None
  {
    WrittenRolling(chain);
    WrittenMint(token, now);
  }
}
