/**
 * When an apply or a put-back is refused, what a failing write leaves, and whose values a judgment goes by,
 * told by the files themselves.
 */
module BaseEnvConditions {
  import opened Wrappers
  import opened Json
  import opened BaseEnv
  import opened BaseEnvHome
  import opened BaseEnvCells
  import opened BaseEnvTheorems
  import opened BaseEnvMigration

  /* ---------- which keys are the user's ---------- */

  /** A key no profile field owns. */
  predicate UserKey(key: Key) {
    key !in {"ANTHROPIC_BASE_URL", "ANTHROPIC_AUTH_TOKEN", "CLAUDE_CODE_EFFORT_LEVEL", "ANTHROPIC_DEFAULT_OPUS_MODEL",
             "ANTHROPIC_DEFAULT_SONNET_MODEL", "ANTHROPIC_DEFAULT_HAIKU_MODEL", "ANTHROPIC_DEFAULT_FABLE_MODEL",
             "CLAUDE_CODE_SUBAGENT_MODEL"}
  }

  /** Every key but the eight that profile fields own is the user's. */
  lemma UserKeysAre(key: Key)
    ensures KeepsBaseValue(key) <==> UserKey(key)
  {}

  /* ---------- when a job is refused ---------- */

  /** The account's env names a key of the user's. */
  predicate CoversSome(job: Job) {
    job.Apply? && exists key :: key in job.account.env && UserKey(key)
  }

  /** A key of the user's that the job takes away is listed and in the file. */
  predicate GivesBackSome(job: Job, env: JsonMap) {
    exists key :: key in job.prev && key in env && UserKey(key) && (job.Apply? ==> key !in job.account.env)
  }

  /** An apply of an account with nothing set, over no live file and with no keys listed. */
  predicate NothingToApply(disk: Disk, job: Job) {
    && job.Apply? && disk.live.NoLive? && job.prev == []
    && job.account == Account(map[], Fields(None, None, None, None, None, None), None, false)
  }

  /** A job is refused over a live file it cannot read, over a roster it cannot read, unless the record cannot
      be read either, and over a record it cannot read where some key needs it. */
  lemma RefusedExactlyWhen(disk: Disk, job: Job)
    ensures var refusal := PlanJob(disk, job);
      if NothingToApply(disk, job) then
        refusal == Err(RosterUnreadable) <==> disk.record.NoRecord? && disk.accounts.state.None?
      else
        && (refusal == Err(LiveUnreadable) <==> disk.live.BadLive?)
        && (refusal == Err(RosterUnreadable) <==>
              !disk.live.BadLive? && !disk.record.TornRecord? && disk.accounts.state.None?)
        && (refusal == Err(RecordUnreadable) <==>
              && !disk.live.BadLive? && disk.record.TornRecord?
              && (CoversSome(job) || GivesBackSome(job, EnvOf(disk.live))))
    ensures PlanJob(disk, job).Err? ==> PlanJob(disk, job).error in {LiveUnreadable, RosterUnreadable, RecordUnreadable}
    ensures NothingToApply(disk, job) && PlanJob(disk, job).Err? ==> PlanJob(disk, job).error == RosterUnreadable
  {
    forall key ensures KeepsBaseValue(key) <==> UserKey(key) {
      UserKeysAre(key);
    }
    assert CoversSome(job) <==> CoveringKeys(ProfileEnv(job), true) != {} by {
      if CoversSome(job) {
        var key :| key in job.account.env && UserKey(key);
        assert key in CoveringKeys(ProfileEnv(job), true);
      }
    }
    assert OnlyStamps(disk, job) <==> NothingToApply(disk, job);
  }

  /* ---------- what a failing write leaves ---------- */

  /** A failed first write leaves both files, a failed live write the live file and the record written first,
      and a failed last write the live file as built; that one is no error, nor is a fault of a write that
      is not made. */
  lemma FaultLeaves(disk: Disk, writes: Writes, fault: Fault)
    ensures var after, first := Written(disk, writes, Reached(writes, fault)),
                               if writes.pre.Some? then RecordOn(writes.pre.value) else disk.record;
      var built := if writes.content.Some? then Live(writes.content.value) else disk.live;
      && after.accounts == disk.accounts
      && (if fault == PreWriteFails && writes.pre.Some? then Stops(writes, fault) && after == disk
          else if fault == LiveWriteFails && writes.content.Some? then
            Stops(writes, fault) && after.live == disk.live && after.record == first
          else
            && !Stops(writes, fault) && after.live == built
            && after.record == (if writes.post.Some? && fault != LandingFails then RecordOn(writes.post.value)
                                else first))
  {}

  /** A marker move that fails leaves the marker; a failed note of the record leaves that too. */
  lemma MoveFaultLeaves(disk: Disk, active: Option<Name>, fault: MoveFault)
    ensures var after := MarkerMoved(disk, active, MoveReached(disk, active, fault));
      var agreed := disk.record.RecordOn? && disk.accounts.state.Some?
                    && disk.record.record.active == disk.accounts.state.value.active;
      var noted := if agreed then RecordOn(disk.record.record.(active := active)) else disk.record;
      if disk.accounts.state.None? || (fault.RecordFails? && noted != disk.record) then after == disk
      else
        && after.live == disk.live && after.record == noted
        && after.accounts.configs == disk.accounts.configs
        && after.accounts.state ==
             if fault.MarkerFails? then disk.accounts.state
             else Some(disk.accounts.state.value.(active := active))
  {}

  /* ---------- whose values a judgment goes by ---------- */

  /** The accounts asked before the stamp: none when an edit brings its own maps, else the active account if
      it is rostered, and every rostered account when none is active. */
  lemma AskedAre(accounts: Accounts, before: seq<EnvMap>, name: Name)
    requires accounts.state.Some?
    ensures name in Asked(accounts, before) <==>
      && before == [] && name in accounts.state.value.profiles
      && (accounts.state.value.active.None? || accounts.state.value.active == Some(name))
  {}

  /** Some account's own env, or the edited one's before the edit, gives the key this value. */
  predicate SomebodysValue(disk: Disk, job: Job, key: Key, live: Json) {
    EditHolds(BeforeOf(job), key, live) || SomeHolds(disk.accounts, Roster(disk.accounts), key, live)
  }

  /** The record was stamped, by an apply that saw another active account. */
  predicate MarkerMovedUnseen(disk: Disk) {
    disk.record.RecordOn? && !disk.record.record.migrating && disk.record.record.active != MarkerOf(disk.accounts)
  }

  /** After a switch the record did not see, a job takes from the user exactly a saved value whose key is gone
      from the live file, and a live value clauth did not write there that some account gives the key, where it is
      not the saved one. */
  lemma UnseenMovesExactlyWhen(disk: Disk, job: Job, key: Key)
    requires Lands(disk, job) && UserKey(key) && RoleOf(disk, job, key) != Untouched && MarkerMovedUnseen(disk)
    ensures var cell := CellOf(disk, key);
      UserValue(CellOf(AfterJob(disk, job, 3), key)) != UserValue(cell) <==>
        match cell.live
        case None => cell.entry.Some? && cell.entry.value.base.Some?
        case Some(live) =>
          && SomebodysValue(disk, job, key, live)
          && (cell.entry.Some? ==>
                !cell.entry.value.WroteLive(live) && cell.entry.value.base != Some(live))
  {
    UserKeysAre(key);
    UserValueMovesExactlyWhenMisjudged(disk, job, key);
    if CellOf(disk, key).live.Some? {
      EditMaps(BeforeOf(job), key, CellOf(disk, key).live.value);
      DiskMaps(disk.accounts, Roster(disk.accounts), key, CellOf(disk, key).live.value);
    }
  }

  /* ---------- a second apply ---------- */

  /** The entry of a key that is covered again with the same value is the one it has. */
  lemma CoveredAgain(cell: Cell, owner: LiveOwner, value: Json, key: Key, out: Outgoing)
    ensures var once := CellAfter(cell, Cover(value), owner, 3);
      NextEntry(LiveOwnerOf(once.entry, Recorded, key, once.live, out), once.live, value) == once.entry.value
  {}

  lemma SecondCaptures(disk: Disk, job: Job, again: Job, key: Key)
    requires job.Apply? && again.Apply? && job.account == again.account
    requires Lands(disk, job) && Lands(AfterJob(disk, job, 3), again)
    ensures var once := AfterJob(disk, job, 3);
      Lookup(SettledIn(once, again).plan.captured.keys, key) == CellOf(once, key).entry
  {
    var once := AfterJob(disk, job, 3);
    if KeepsBaseValue(key) {
      LandedJudge(disk, job);
      JobByCell(disk, job, 3, key);
      CapturedLookup(once, again, key);
      if key in job.account.env {
        CoveredAgain(CellOf(disk, key), OwnerIn(disk, job, key), Str(job.account.env[key]), key,
                     OutgoingIn(once, again));
      }
    } else if !once.record.TornRecord? {
      FieldKeyCaptured(once, again, key);
    }
  }

  lemma SecondLands(disk: Disk, job: Job, again: Job, key: Key)
    requires job.Apply? && again.Apply? && job.account == again.account
    requires Lands(disk, job) && Lands(AfterJob(disk, job, 3), again) && !disk.record.TornRecord?
    ensures var once := AfterJob(disk, job, 3);
      Lookup(SettledIn(once, again).plan.landed.keys, key) == CellOf(once, key).entry
  {
    var once := AfterJob(disk, job, 3);
    ApplyTwiceCell(disk, job, again, key);
    AfterLanding(disk, job, 3);
    AfterLanding(once, again, 3);
  }

  /** An apply over what the same apply left writes neither record, and the live file as it is. */
  lemma SecondApplyWritesNoRecord(disk: Disk, job: Job, again: Job)
    requires job.Apply? && again.Apply? && job.account == again.account
    requires Lands(disk, job) && Lands(AfterJob(disk, job, 3), again)
    ensures var writes := PlanJob(AfterJob(disk, job, 3), again).value;
      && writes.pre.None? && writes.post.None?
      && writes.content == Some(EnvOf(AfterJob(disk, job, 3).live))
  {
    var once := AfterJob(disk, job, 3);
    PlanOf(once, again);
    AfterLanding(disk, job, 3);
    AfterLanding(once, again, 3);
    LandedJudge(disk, job);
    ApplyTwice(disk, job, again);
    if !disk.record.TornRecord? {
      var plan, saved := SettledIn(once, again).plan, once.record.record;
      forall key
        ensures Lookup(plan.captured.keys, key) == Lookup(saved.keys, key)
        ensures Lookup(plan.landed.keys, key) == Lookup(saved.keys, key)
      {
        SecondCaptures(disk, job, again, key);
        SecondLands(disk, job, again, key);
      }
      EqualByLookup(plan.captured.keys, saved.keys);
      EqualByLookup(plan.landed.keys, saved.keys);
    }
  }

  /* ---------- a build beside the live file ---------- */

  /** A build of another file is refused only where a key of the user's is to be given back there. */
  lemma AsideRefusedExactlyWhen(env: JsonMap, profileEnv: EnvMap, prev: seq<Key>, file: RecordFile, accounts: Accounts)
    ensures var settled := Settle(env, profileEnv, prev, None, file, accounts);
      && (settled == Err(RecordUnreadable) <==>
            file.TornRecord? && exists key :: key in prev && key in env && key !in profileEnv && UserKey(key))
      && (settled == Err(RosterUnreadable) <==>
            !file.TornRecord? && accounts.state.None? && exists key :: key in env && key !in profileEnv && UserKey(key))
      && (settled.Err? ==> settled.error == RecordUnreadable || settled.error == RosterUnreadable)
  {
    forall key ensures Leaving(profileEnv, key) <==> key !in profileEnv && UserKey(key) {
      UserKeysAre(key);
    }
  }

  /** It covers nothing: what it would record is the record as found, less the keys it gives back. */
  lemma AsideKeepsTheRecord(env: JsonMap, profileEnv: EnvMap, prev: seq<Key>, found: Found, accounts: Accounts,
                            key: Key)
    ensures var plan := SettleFound(env, profileEnv, prev, None, found, accounts).plan;
      && plan.captured == SavedOf(found)
      && plan.landed.active == SavedOf(found).active && plan.landed.migrating == SavedOf(found).migrating
      && Lookup(plan.landed.keys, key) ==
           if key in profileEnv || !UserKey(key) then Lookup(SavedOf(found).keys, key) else None
  {
    UserKeysAre(key);
  }
}
