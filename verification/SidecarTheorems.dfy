/** What every run of the token operations keeps, wherever a run stops. */
module SidecarTheorems {
  import opened Wrappers
  import opened Json
  import opened Credentials
  import opened NonLoginKeys
  import opened Sidecar
  import opened Journal

  /* ---------- keeping keys never moves a login ---------- */

  lemma CopyKeepsLogin(target: Json, source: Json)
    ensures ReadLogin(Doc(Copied(target, source))) == ReadLogin(Doc(target))
  {}

  lemma KeepKeepsLogin(rebuilt: Content, files: Files, world: World)
    ensures ReadLogin(KeepNonLogin(rebuilt, files, world)) == ReadLogin(rebuilt)
  {}

  /** What a slot's file reads as. */
  function LoginAt(slot: Option<Content>): Option<Parsed> {
    if slot.Some? then Some(ReadLogin(slot.value)) else None
  }

  /** Saving the live file moves no login, and no file but the install source. */
  lemma SyncKeepsLogins(files: Files, world: World)
    ensures var synced := Run(files, SyncWrites(files, world));
      && LoginAt(synced.sidecar) == LoginAt(files.sidecar)
      && synced.backup == files.backup && synced.quarantine == files.quarantine
      && (SeenMisfilled(files, world) ==> synced.sidecar == files.sidecar)
  {
    var writes := SyncWrites(files, world);
    if writes != [] {
      var slot := InstallSource(files, world);
      CopyKeepsLogin(files.At(slot).value.json, world.forget(world.live.value));
      ReplayOne(files, writes[0], Applied);
    }
  }

  lemma SyncThroughout(files: Files, world: World, p: Files -> bool)
    requires p(files) && p(Run(files, SyncWrites(files, world)))
    ensures Throughout(files, SyncWrites(files, world), Applied, p)
  {
    var writes := SyncWrites(files, world);
    if writes != [] {
      ReplayOne(files, writes[0], Applied);
    }
  }

  /* ---------- a live mint is never lost ---------- */

  /** The expiry of the mint a slot holds. */
  function MintExpiry(slot: Option<Content>): Option<Option<I64>> {
    if slot.Some? && IsMint(slot.value) then Some(ReadLogin(slot.value).oauth.expiresAt) else None
  }

  predicate MintThrough(slot: Option<Content>, expiry: Option<I64>) {
    MintExpiry(slot).Some? && AtLeast(MintExpiry(slot).value, expiry)
  }

  /** The sidecar or the backup holds a mint that lasts at least to `expiry`. */
  predicate HoldsMint(files: Files, expiry: Option<I64>) {
    MintThrough(files.sidecar, expiry) || MintThrough(files.backup, expiry)
  }

  /** The first expiry that is past the grace. */
  function SoonestLive(now: Clock): Option<I64> {
    Some(now + BACKUP_EXPIRY_GRACE_MS + 1)
  }

  predicate HoldsLiveMint(files: Files, now: Clock) {
    HoldsMint(files, SoonestLive(now))
  }

  lemma SameLoginSameMint(a: Option<Content>, b: Option<Content>)
    requires LoginAt(a) == LoginAt(b)
    ensures MintExpiry(a) == MintExpiry(b)
  {}

  lemma SyncKeepsMint(files: Files, world: World, expiry: Option<I64>)
    requires HoldsMint(files, expiry)
    ensures Throughout(files, SyncWrites(files, world), Applied, x => HoldsMint(x, expiry))
    ensures HoldsMint(Run(files, SyncWrites(files, world)), expiry)
  {
    SyncKeepsLogins(files, world);
    SameLoginSameMint(files.sidecar, Run(files, SyncWrites(files, world)).sidecar);
    SyncThroughout(files, world, x => HoldsMint(x, expiry));
  }

  /** Preserving loses no mint, and where it ends well the backup alone holds one as good. */
  lemma PreserveKeepsMint(files: Files, world: World, expiry: Option<I64>)
    requires HoldsMint(files, expiry) && Lives(expiry, world.now)
    ensures var plan := PreservePlan(files, world);
      && Throughout(files, plan.writes, Applied, x => HoldsMint(x, expiry))
      && (plan.outcome == Done ==> MintThrough(Run(files, plan.writes).backup, expiry))
  {
    var writes := PreservePlan(files, world).writes;
    if |writes| == 2 {
      ReplayTwo(files, writes[0], writes[1], Applied);
    } else if |writes| == 1 {
      ReplayOne(files, writes[0], Applied);
    }
  }

  lemma StampKeepsMint(files: Files, world: World, chain: OAuth, expiry: Option<I64>)
    requires HoldsMint(files, expiry) && Lives(expiry, world.now)
    ensures Throughout(files, StampPlan(files, world, chain).writes, Applied, x => HoldsMint(x, expiry))
  {
    var p := x => HoldsMint(x, expiry);
    var saved := SyncWrites(files, world);
    var synced := Run(files, saved);
    SyncKeepsMint(files, world, expiry);
    PreserveKeepsMint(synced, world, expiry);
    var preserved := PreservePlan(synced, world);
    var rolled := RollingProjection(chain);
    if SidecarKindOf(rolled) != Mint {
      var rest := StampRest(synced, world, rolled);
      if preserved.outcome == Done {
        var done := Run(synced, preserved.writes);
        AtEveryCut(synced, preserved.writes, Applied, p, |preserved.writes|);
        ThroughoutBoth(synced, preserved.writes, [Put(SessionToken, KeepNonLogin(FileOf(rolled), done, world))], Applied, p);
      }
      assert Throughout(synced, rest.writes, Applied, p);
      ThroughoutBoth(files, saved, rest.writes, Applied, p);
    }
  }

  lemma WrittenMint(token: string, now: Clock)
    ensures ReadLogin(FileOf(MintOf(token, now))) == Login(MintOf(token, now))
    ensures SidecarKindOf(MintOf(token, now)) == Mint
  {
    WrittenLoginReadsBack(MintOf(token, now));
  }

  /** The mint a re-mint publishes is live, whatever keys are kept beside it. */
  lemma KeptMintLives(files: Files, world: World, token: string)
    ensures MintThrough(Some(KeepNonLogin(FileOf(MintOf(token, world.now)), files, world)), SoonestLive(world.now))
  {
    WrittenMint(token, world.now);
    KeepKeepsLogin(FileOf(MintOf(token, world.now)), files, world);
  }

  lemma RemintKeepsLive(files: Files, world: World, token: string, withBackup: bool)
    requires HoldsLiveMint(files, world.now)
    ensures var plan := if withBackup then RemintWithBackupPlan(files, world, token) else RemintPlan(files, world, token);
      Throughout(files, plan.writes, Applied, x => HoldsMint(x, SoonestLive(world.now)))
  {
    var p := x => HoldsMint(x, SoonestLive(world.now));
    var saved := SyncWrites(files, world);
    var synced := Run(files, saved);
    SyncKeepsMint(files, world, SoonestLive(world.now));
    KeptMintLives(synced, world, token);
    var kept := KeepNonLogin(FileOf(MintOf(token, world.now)), synced, world);
    var rest := if withBackup then [Put(SessionToken, kept), Put(StaticToken, kept)] else [Put(SessionToken, kept)];
    assert Throughout(synced, rest, Applied, p);
    ThroughoutBoth(files, saved, rest, Applied, p);
  }

  /** Reading the backup to put it back empties no slot a live mint is in. */
  lemma BackupReadKeepsMint(files: Files, world: World, expiry: Option<I64>)
    requires HoldsMint(files, expiry)
    ensures Throughout(files, BackupPlan(files, world).writes, Applied, x => HoldsMint(x, expiry))
  {}

  /** Putting the backup's mint back keeps a live mint in a slot at each of its writes. */
  lemma PutBackKeepsLive(files: Files, world: World, mint: Content, aside: seq<Write>)
    requires aside == [] || (|aside| == 1 && aside[0].Quarantine?)
    requires MintThrough(files.backup, SoonestLive(world.now)) && MintThrough(Some(mint), SoonestLive(world.now))
    ensures Throughout(files, aside + [Put(SessionToken, mint), Remove(StaticToken)], Applied,
                       x => HoldsMint(x, SoonestLive(world.now)))
  {
    var p := x => HoldsMint(x, SoonestLive(world.now));
    var back := [Put(SessionToken, mint), Remove(StaticToken)];
    if aside == [] {
      assert aside + back == back;
      ThroughoutTwo(files, back[0], back[1], Applied, p);
    } else {
      var moved := Applied(files, aside[0]);
      ThroughoutTwo(moved, back[0], back[1], Applied, p);
      assert (aside + back)[1..] == back;
    }
  }

  lemma HealKeepsLive(files: Files, world: World)
    requires HoldsLiveMint(files, world.now)
    ensures Throughout(files, HealPlan(files, world).writes, Applied, x => HoldsMint(x, SoonestLive(world.now)))
  {
    BackupReadKeepsMint(files, world, SoonestLive(world.now));
    if SeenMisfilled(files, world) && BackupPlan(files, world).outcome == Done {
      var saved := SyncWrites(files, world);
      SyncKeepsLogins(files, world);
      SyncKeepsMint(files, world, SoonestLive(world.now));
      var aside, mint := [Quarantine(files.sidecar.value)], files.backup.value;
      PutBackKeepsLive(Run(files, saved), world, mint, aside);
      var rest := [Quarantine(files.sidecar.value), Put(SessionToken, mint), Remove(StaticToken)];
      assert rest == aside + [Put(SessionToken, mint), Remove(StaticToken)];
      ThroughoutBoth(files, saved, rest, Applied, x => HoldsMint(x, SoonestLive(world.now)));
    }
  }

  lemma RestoreKeepsLive(files: Files, world: World)
    requires HoldsLiveMint(files, world.now)
    ensures Throughout(files, RestorePlan(files, world).writes, Applied, x => HoldsMint(x, SoonestLive(world.now)))
  {
    BackupReadKeepsMint(files, world, SoonestLive(world.now));
    if BackupPlan(files, world).outcome == Done {
      var saved := SyncWrites(files, world);
      var synced := Run(files, saved);
      SyncKeepsLogins(files, world);
      SyncKeepsMint(files, world, SoonestLive(world.now));
      var mint := files.backup.value;
      var kept := KeepNonLogin(mint, synced, world);
      KeepKeepsLogin(mint, synced, world);
      SameLoginSameMint(Some(kept), Some(mint));
      var aside := if SeenMisfilled(synced, world) then [Quarantine(synced.sidecar.value)] else [];
      PutBackKeepsLive(synced, world, kept, aside);
      ThroughoutBoth(files, saved, RestoreRest(synced, world, mint).writes, Applied, x => HoldsMint(x, SoonestLive(world.now)));
    }
  }

  lemma QuarantineKeepsMint(files: Files, world: World, expiry: Option<I64>)
    requires HoldsMint(files, expiry)
    ensures Throughout(files, QuarantinePlan(files, world).writes, Applied, x => HoldsMint(x, expiry))
  {}

  /** A step that starts with a live mint in the sidecar or the backup leaves one in one of them,
      wherever it is cut. */
  lemma LiveMintSurvives(files: Files, world: World, op: Op, room: nat)
    requires HoldsLiveMint(files, world.now)
    ensures HoldsLiveMint(After(files, world, op, room), world.now)
  {
    var writes := PlanOf(files, world, op).writes;
    match op {
      case Stamp(chain) => StampKeepsMint(files, world, chain, SoonestLive(world.now));
      case Remint(token) => RemintKeepsLive(files, world, token, false);
      case RemintWithBackup(token) => RemintKeepsLive(files, world, token, true);
      case Heal => HealKeepsLive(files, world);
      case Restore => RestoreKeepsLive(files, world);
      case QuarantineMisfill => QuarantineKeepsMint(files, world, SoonestLive(world.now));
    }
    AtEveryCut(files, writes, Applied, x => HoldsMint(x, SoonestLive(world.now)), room);
  }

  /* ---------- what stamps and restores do to the best mint ---------- */

  datatype StampStep = StampStep(world: World, chain: OAuth, room: nat)

  function Stamped(files: Files, steps: seq<StampStep>): Files
    decreases |steps|
  {
    if steps == [] then files
    else Stamped(After(files, steps[0].world, Stamp(steps[0].chain), steps[0].room), steps[1..])
  }

  /** No run of stamps, whatever cuts it, lowers the mint held: an expiry some mint reached, and that
      lives at each of the stamps, is reached by a mint at the end. */
  lemma {:induction false} StampsNeverLowerTheMint(files: Files, steps: seq<StampStep>, expiry: Option<I64>)
    requires HoldsMint(files, expiry)
    requires forall i :: 0 <= i < |steps| ==> Lives(expiry, steps[i].world.now)
    ensures HoldsMint(Stamped(files, steps), expiry)
    decreases |steps|
  {
    if steps == [] {
    } else {
      var step := steps[0];
      StampKeepsMint(files, step.world, step.chain, expiry);
      AtEveryCut(files, StampPlan(files, step.world, step.chain).writes, Applied, x => HoldsMint(x, expiry), step.room);
      StampsNeverLowerTheMint(After(files, step.world, Stamp(step.chain), step.room), steps[1..], expiry);
    }
  }

  /** The disk once every write of an operation landed. */
  function Finished(files: Files, world: World, op: Op): Files {
    Run(files, PlanOf(files, world, op).writes)
  }

  lemma WrittenRolling(chain: OAuth)
    ensures ReadLogin(FileOf(RollingProjection(chain))) == Login(RollingProjection(chain))
  {
    WrittenLoginReadsBack(RollingProjection(chain));
  }

  lemma PreserveResult(files: Files, world: World)
    requires PreservePlan(files, world).outcome == Done
    ensures var done := Run(files, PreservePlan(files, world).writes);
      && done.sidecar == files.sidecar
      && done.backup == if files.sidecar.Some? && IsMint(files.sidecar.value)
                           && !(files.backup.Some?
                                && BackupStands(files.backup.value, ReadLogin(files.sidecar.value).oauth, world.now))
                        then files.sidecar else files.backup
  {
    var writes := PreservePlan(files, world).writes;
    if |writes| == 2 {
      ReplayTwo(files, writes[0], writes[1], Applied);
    } else if |writes| == 1 {
      ReplayOne(files, writes[0], Applied);
    }
  }

  /** A stamp that ends well leaves exactly the chain's bearer in the sidecar, classified as rolling
      even with the kept keys merged over it, and the longer-lived of the mints in the backup unless
      the one there had expired. */
  lemma StampResult(files: Files, world: World, chain: OAuth)
    requires StampPlan(files, world, chain).outcome == Done
    ensures var after := Finished(files, world, Stamp(chain));
      && LoginAt(after.sidecar) == Some(Login(RollingProjection(chain)))
      && HoldsKind(after.sidecar.value, Rolling)
      && MintExpiry(after.backup) ==
           if MintExpiry(files.sidecar).Some?
              && !(MintExpiry(files.backup).Some? && Lives(MintExpiry(files.backup).value, world.now)
                   && AtLeast(MintExpiry(files.backup).value, MintExpiry(files.sidecar).value))
           then MintExpiry(files.sidecar) else MintExpiry(files.backup)
  {
    var rolled := RollingProjection(chain);
    var saved := SyncWrites(files, world);
    var synced := Run(files, saved);
    SyncKeepsLogins(files, world);
    SameLoginSameMint(synced.sidecar, files.sidecar);
    PreserveResult(synced, world);
    var preserved := PreservePlan(synced, world).writes;
    var done := Run(synced, preserved);
    var kept := KeepNonLogin(FileOf(rolled), done, world);
    KeepKeepsLogin(FileOf(rolled), done, world);
    WrittenRolling(chain);
    ReplayTogether(synced, preserved, [Put(SessionToken, kept)], Applied);
    ReplayOne(done, Put(SessionToken, kept), Applied);
    ReplayTogether(files, saved, preserved + [Put(SessionToken, kept)], Applied);
  }

  /** Some mint reached an expiry that none reaches afterwards. */
  ghost predicate Lowers(before: Files, after: Files) {
    exists expiry :: HoldsMint(before, expiry) && !HoldsMint(after, expiry)
  }

  /** Whether the mint of a slot is outlasted by none of `after`'s. */
  predicate Outlasts(mint: Option<Option<I64>>, after: Files) {
    mint.Some? && !HoldsMint(after, mint.value)
  }

  lemma LowersBySlot(before: Files, after: Files)
    ensures Lowers(before, after) <==>
      Outlasts(MintExpiry(before.sidecar), after) || Outlasts(MintExpiry(before.backup), after)
  {}

  /** A stamp lowers the best mint in one case: the backup's mint has expired, and outlasted the
      sidecar's, which takes its place. */
  lemma StampLowersExactlyWhen(files: Files, world: World, chain: OAuth)
    requires StampPlan(files, world, chain).outcome == Done
    ensures Lowers(files, Finished(files, world, Stamp(chain))) <==>
      && MintExpiry(files.sidecar).Some? && MintExpiry(files.backup).Some?
      && !Lives(MintExpiry(files.backup).value, world.now)
      && !AtLeast(MintExpiry(files.sidecar).value, MintExpiry(files.backup).value)
  {
    StampResult(files, world, chain);
    LowersBySlot(files, Finished(files, world, Stamp(chain)));
  }

  lemma StampGoesThrough(files: Files, world: World, chain: OAuth)
    requires world.unreadable == {} && SidecarKindOf(RollingProjection(chain)) != Mint
    ensures StampPlan(files, world, chain).outcome == Done
  {}

  function DeadMint(expiry: I64): OAuth {
    OAuth("sk-ant-oat", None, Some(expiry), Some(SETUP_TOKEN_SCOPES), None, map[])
  }

  /** It happens: of two expired mints the stamp keeps the sidecar's, the one that expired first. */
  lemma StampCanLowerTheMint(world: World, chain: OAuth)
    requires world.now == 0 && world.unreadable == {} && chain.subscriptionType.Some?
    ensures var files := Files(Some(FileOf(DeadMint(1))), Some(FileOf(DeadMint(2))), None, []);
      Lowers(files, Finished(files, world, Stamp(chain)))
  {
    var files := Files(Some(FileOf(DeadMint(1))), Some(FileOf(DeadMint(2))), None, []);
    WrittenLoginReadsBack(DeadMint(1));
    WrittenLoginReadsBack(DeadMint(2));
    StampGoesThrough(files, world, chain);
    StampLowersExactlyWhen(files, world, chain);
  }

  /** A re-mint leaves the new mint in the sidecar; the one that also writes the backup leaves the
      same file in both. */
  lemma RemintResult(files: Files, world: World, token: string)
    ensures LoginAt(Finished(files, world, Remint(token)).sidecar) == Some(Login(MintOf(token, world.now)))
    ensures var after := Finished(files, world, RemintWithBackup(token));
      LoginAt(after.sidecar) == Some(Login(MintOf(token, world.now))) && after.backup == after.sidecar
  {
    var saved := SyncWrites(files, world);
    var synced := Run(files, saved);
    var kept := KeepNonLogin(FileOf(MintOf(token, world.now)), synced, world);
    KeepKeepsLogin(FileOf(MintOf(token, world.now)), synced, world);
    WrittenMint(token, world.now);
    ReplayTogether(files, saved, [Put(SessionToken, kept)], Applied);
    ReplayOne(synced, Put(SessionToken, kept), Applied);
    ReplayTogether(files, saved, [Put(SessionToken, kept), Put(StaticToken, kept)], Applied);
    ReplayTwo(synced, Put(SessionToken, kept), Put(StaticToken, kept), Applied);
  }

  /** A heal or a restore that ends well leaves the backup's login in the sidecar, a live mint, and
      the backup's slot empty; a heal leaves the backup's file itself. */
  lemma PutBackResult(files: Files, world: World, op: Op)
    requires op.Heal? || op.Restore?
    requires PlanOf(files, world, op).outcome == Done
    ensures var after := Finished(files, world, op);
      && files.backup.Some? && ClassifyBackup(files.backup.value, world.now).LiveMint?
      && LoginAt(after.sidecar) == LoginAt(files.backup) && IsMint(after.sidecar.value)
      && (op.Heal? ==> after.sidecar == files.backup)
      && after.backup == None
  {
    var saved := SyncWrites(files, world);
    var synced := Run(files, saved);
    SyncKeepsLogins(files, world);
    var mint := files.backup.value;
    var kept := if op.Heal? then mint else KeepNonLogin(mint, synced, world);
    KeepKeepsLogin(mint, synced, world);
    var aside := if SeenMisfilled(synced, world) then [Quarantine(synced.sidecar.value)] else [];
    PutBackRun(synced, aside, kept);
    if op.Heal? {
      assert aside + [Put(SessionToken, kept), Remove(StaticToken)] ==
        [Quarantine(files.sidecar.value), Put(SessionToken, mint), Remove(StaticToken)];
    }
    ReplayTogether(files, saved, aside + [Put(SessionToken, kept), Remove(StaticToken)], Applied);
  }

  lemma PutBackRun(files: Files, aside: seq<Write>, mint: Content)
    requires aside == [] || (|aside| == 1 && aside[0].Quarantine?)
    ensures var after := Run(files, aside + [Put(SessionToken, mint), Remove(StaticToken)]);
      && after.sidecar == Some(mint) && after.backup == None
      && after.quarantine == files.quarantine + if aside == [] then [] else [aside[0].content]
  {
    var moved := if aside == [] then files else Applied(files, aside[0]);
    if aside != [] {
      ReplayOne(files, aside[0], Applied);
      assert aside == [aside[0]];
    }
    ReplayTogether(files, aside, [Put(SessionToken, mint), Remove(StaticToken)], Applied);
    ReplayTwo(moved, Put(SessionToken, mint), Remove(StaticToken), Applied);
  }

  /** A restore lowers the best mint exactly when the sidecar holds one that outlasts the backup's. */
  lemma RestoreLowersExactlyWhen(files: Files, world: World)
    requires RestorePlan(files, world).outcome == Done
    ensures Lowers(files, Finished(files, world, Restore)) <==>
      && MintExpiry(files.sidecar).Some?
      && !AtLeast(MintExpiry(files.backup).value, MintExpiry(files.sidecar).value)
  {
    PutBackResult(files, world, Restore);
    SameLoginSameMint(Finished(files, world, Restore).sidecar, files.backup);
    LowersBySlot(files, Finished(files, world, Restore));
  }

  /* ---------- evidence ---------- */

  /** The bytes are still where they were, or in the quarantine. */
  predicate KeptAside(slot: Option<Content>, was: Content, files: Files) {
    slot == Some(was) || was in files.quarantine
  }

  /** A heal, a restore or the pre-clear overwrites a mis-filled sidecar only once its bytes are in
      the quarantine, wherever it is cut. */
  lemma MisfillIsKept(files: Files, world: World, op: Op, room: nat)
    requires op.Heal? || op.Restore? || op.QuarantineMisfill?
    requires SeenMisfilled(files, world)
    ensures var cut := After(files, world, op, room); KeptAside(cut.sidecar, files.sidecar.value, cut)
  {
    var misfill := files.sidecar.value;
    var p := (x: Files) => KeptAside(x.sidecar, misfill, x);
    var writes := PlanOf(files, world, op).writes;
    if op.QuarantineMisfill? {
      ThroughoutTwo(files, writes[0], writes[1], Applied, p);
    } else if BackupPlan(files, world).outcome == Done {
      var saved := SyncWrites(files, world);
      var synced := Run(files, saved);
      SyncKeepsLogins(files, world);
      SyncThroughout(files, world, p);
      var mint := if op.Heal? then files.backup.value else KeepNonLogin(files.backup.value, synced, world);
      var rest := [Quarantine(misfill), Put(SessionToken, mint), Remove(StaticToken)];
      PutBackKeepsMisfill(synced, misfill, mint);
      ThroughoutBoth(files, saved, rest, Applied, p);
      assert writes == saved + rest;
    }
    AtEveryCut(files, writes, Applied, p, room);
  }

  lemma PutBackKeepsMisfill(files: Files, misfill: Content, mint: Content)
    requires files.sidecar == Some(misfill)
    ensures Throughout(files, [Quarantine(misfill), Put(SessionToken, mint), Remove(StaticToken)], Applied,
                       (x: Files) => KeptAside(x.sidecar, misfill, x))
  {
    var p := (x: Files) => KeptAside(x.sidecar, misfill, x);
    var back := [Put(SessionToken, mint), Remove(StaticToken)];
    ThroughoutTwo(Applied(files, Quarantine(misfill)), back[0], back[1], Applied, p);
    assert ([Quarantine(misfill)] + back)[1..] == back;
    assert Throughout(files, [Quarantine(misfill)] + back, Applied, p);
    assert [Quarantine(misfill)] + back == [Quarantine(misfill), Put(SessionToken, mint), Remove(StaticToken)];
  }

  /** Over a read that fails the mis-fill goes unseen, and a restore that ends well overwrites it with
      nothing in the quarantine. */
  lemma RestoreLosesMisfillExactlyWhen(files: Files, world: World)
    requires files.sidecar.Some? && HoldsKind(files.sidecar.value, Misfilled)
    requires files.sidecar.value !in files.quarantine && files.sidecar != files.backup
    requires RestorePlan(files, world).outcome == Done
    ensures var after := Finished(files, world, Restore);
      files.sidecar.value !in after.quarantine && after.sidecar != files.sidecar
      <==> SessionToken in world.unreadable
  {
    var saved := SyncWrites(files, world);
    var synced := Run(files, saved);
    SyncKeepsLogins(files, world);
    PutBackResult(files, world, Restore);
    var kept := KeepNonLogin(files.backup.value, synced, world);
    var aside := if SeenMisfilled(synced, world) then [Quarantine(synced.sidecar.value)] else [];
    PutBackRun(synced, aside, kept);
    ReplayTogether(files, saved, aside + [Put(SessionToken, kept), Remove(StaticToken)], Applied);
    if SessionToken !in world.unreadable {
      assert synced.sidecar == files.sidecar;
    }
  }

  lemma {:induction false} QuarantineOnlyGrows(files: Files, writes: seq<Write>)
    ensures files.quarantine <= Run(files, writes).quarantine
    decreases |writes|
  {
    if writes == [] {
    } else {
      QuarantineOnlyGrows(Applied(files, writes[0]), writes[1..]);
    }
  }

  /** Only a mint is ever written as the backup. */
  predicate BackupWritesAreMints(writes: seq<Write>) {
    forall i :: 0 <= i < |writes| && writes[i].Put? && writes[i].slot.StaticToken? ==> IsMint(writes[i].content)
  }

  /** The slot holds what it held, nothing, or a mint. */
  predicate HoldsMintOr(slot: Option<Content>, was: Option<Content>) {
    slot == was || slot.None? || IsMint(slot.value)
  }

  lemma {:induction false} OnlyMintsBecomeBackup(files: Files, writes: seq<Write>)
    requires BackupWritesAreMints(writes)
    ensures HoldsMintOr(Run(files, writes).backup, files.backup)
    decreases |writes|
  {
    if writes == [] {
    } else {
      OnlyMintsBecomeBackup(Applied(files, writes[0]), writes[1..]);
    }
  }

  lemma OnlyMintsBoth(first: seq<Write>, second: seq<Write>)
    requires BackupWritesAreMints(first) && BackupWritesAreMints(second)
    ensures BackupWritesAreMints(first + second)
  {}

  lemma StampWritesOnlyMints(files: Files, world: World, rolled: OAuth)
    ensures BackupWritesAreMints(StampRest(files, world, rolled).writes)
  {}

  lemma RemintWritesMint(files: Files, world: World, token: string)
    ensures IsMint(KeepNonLogin(FileOf(MintOf(token, world.now)), files, world))
  {
    KeepKeepsLogin(FileOf(MintOf(token, world.now)), files, world);
    WrittenMint(token, world.now);
  }

  lemma PlansWriteOnlyMints(files: Files, world: World, op: Op)
    ensures BackupWritesAreMints(PlanOf(files, world, op).writes)
  {
    var saved := SyncWrites(files, world);
    var synced := Run(files, saved);
    assert BackupWritesAreMints(saved);
    match op {
      case Stamp(chain) =>
        var rolled := RollingProjection(chain);
        StampWritesOnlyMints(synced, world, rolled);
        OnlyMintsBoth(saved, StampRest(synced, world, rolled).writes);
      case Remint(token) =>
      case RemintWithBackup(token) =>
        RemintWritesMint(synced, world, token);
        var kept := KeepNonLogin(FileOf(MintOf(token, world.now)), synced, world);
        OnlyMintsBoth(saved, [Put(SessionToken, kept), Put(StaticToken, kept)]);
      case Heal =>
        if SeenMisfilled(files, world) {
          OnlyMintsBoth(saved, [Quarantine(files.sidecar.value), Put(SessionToken, files.backup.GetOr(files.sidecar.value)),
                                Remove(StaticToken)]);
        }
      case Restore =>
        if files.backup.Some? {
          OnlyMintsBoth(saved, RestoreRest(synced, world, files.backup.value).writes);
        }
      case QuarantineMisfill =>
    }
  }

  datatype Step = Step(world: World, op: Op, room: nat)

  function RunAll(files: Files, steps: seq<Step>): Files
    decreases |steps|
  {
    if steps == [] then files else RunAll(After(files, steps[0].world, steps[0].op, steps[0].room), steps[1..])
  }

  /** Over every run of the operations, each cut anywhere, the quarantine only grows, and the backup
      holds nothing, what it held at first, or a mint: no mis-fill and no rolling bearer gets there. */
  lemma {:induction false} RunKeepsBackupAMint(files: Files, steps: seq<Step>)
    ensures files.quarantine <= RunAll(files, steps).quarantine
    ensures HoldsMintOr(RunAll(files, steps).backup, files.backup)
    decreases |steps|
  {
    if steps == [] {
    } else {
      var writes := Taken(PlanOf(files, steps[0].world, steps[0].op).writes, steps[0].room);
      PlansWriteOnlyMints(files, steps[0].world, steps[0].op);
      OnlyMintsBecomeBackup(files, writes);
      QuarantineOnlyGrows(files, writes);
      RunKeepsBackupAMint(Run(files, writes), steps[1..]);
    }
  }

  /** A backup that is no mint is displaced only once its bytes are in the quarantine; the re-mint
      that writes both files is the one writer that overwrites it unread. */
  lemma NoMintBackupIsKept(files: Files, world: World, op: Op, room: nat)
    requires !op.RemintWithBackup?
    requires files.backup.Some? && !IsMint(files.backup.value)
    ensures var cut := After(files, world, op, room); KeptAside(cut.backup, files.backup.value, cut)
  {
    var held := files.backup.value;
    var p := (x: Files) => KeptAside(x.backup, held, x);
    var writes := PlanOf(files, world, op).writes;
    var saved := SyncWrites(files, world);
    var synced := Run(files, saved);
    SyncKeepsLogins(files, world);
    SyncThroughout(files, world, p);
    match op {
      case Stamp(chain) =>
        var rolled := RollingProjection(chain);
        if SidecarKindOf(rolled) != Mint {
          StampKeepsEvidence(synced, world, rolled);
          ThroughoutBoth(files, saved, StampRest(synced, world, rolled).writes, Applied, p);
        }
      case Remint(token) =>
        ThroughoutBoth(files, saved, [Put(SessionToken, KeepNonLogin(FileOf(MintOf(token, world.now)), synced, world))], Applied, p);
      case Heal =>
        if |writes| == 2 {
          ThroughoutTwo(files, writes[0], writes[1], Applied, p);
        }
      case Restore =>
        if |writes| == 2 {
          ThroughoutTwo(files, writes[0], writes[1], Applied, p);
        }
      case QuarantineMisfill =>
        if |writes| == 2 {
          ThroughoutTwo(files, writes[0], writes[1], Applied, p);
        }
    }
    AtEveryCut(files, writes, Applied, p, room);
  }

  lemma StampKeepsEvidence(files: Files, world: World, rolled: OAuth)
    requires files.backup.Some? && !IsMint(files.backup.value)
    ensures Throughout(files, StampRest(files, world, rolled).writes, Applied,
                       (x: Files) => KeptAside(x.backup, files.backup.value, x))
  {
    var p := (x: Files) => KeptAside(x.backup, files.backup.value, x);
    PreserveKeepsEvidence(files, world);
    var preserved := PreservePlan(files, world);
    if preserved.outcome == Done {
      var put := [Put(SessionToken, KeepNonLogin(FileOf(rolled), Run(files, preserved.writes), world))];
      AtEveryCut(files, preserved.writes, Applied, p, |preserved.writes|);
      ThroughoutBoth(files, preserved.writes, put, Applied, p);
    }
  }

  lemma PreserveKeepsEvidence(files: Files, world: World)
    requires files.backup.Some? && !IsMint(files.backup.value)
    ensures Throughout(files, PreservePlan(files, world).writes, Applied, (x: Files) => KeptAside(x.backup, files.backup.value, x))
  {}
}
