/**
 * What the record guarantees: the user's value of a covered key survives every run with a crash
 * after any write, a retried apply lands as an uninterrupted one does, and a record an older clauth
 * went behind still gives its base values back.
 */
module BaseEnvTheorems {
  import opened Wrappers
  import opened Json
  import opened BaseEnv
  import opened BaseEnvHome
  import opened BaseEnvCells

  /* ---------- the user's own value ---------- */

  /** The user's own value of a key: the saved one while the live value is clauth's, else the
      live one. */
  function UserValue(cell: Cell): Option<Json> {
    if cell.entry.Some? && cell.live.Some? && cell.entry.value.WroteLive(cell.live.value)
    then cell.entry.value.base
    else cell.live
  }

  /** The live values a judgment wrongly, or by design, takes from the user: a key an unseen switch
      is thought to have deleted or overwritten, and a live value with no entry that an account
      carries. */
  predicate Misjudges(judge: Judge, cell: Cell, key: Key, out: Outgoing) {
    match (cell.entry, cell.live)
    case (None, None) => false
    case (Some(e), None) => judge == Unseen && e.base.Some?
    case (Some(e), Some(v)) =>
      judge == Unseen && !e.WroteLive(v) && out.AnyAccountValue(key, v) && e.base != Some(v)
    case (None, Some(v)) =>
      (judge == Migrating && out.Carry(key, v)) || (judge == Unseen && out.AnyAccountValue(key, v))
  }

  /** A job that lands moves the user's value of a key it covers or uncovers exactly when its
      judgment misreads the live value, whichever way the record was found. */
  lemma UserValueMovesExactlyWhenMisjudged(disk: Disk, job: Job, key: Key)
    requires Lands(disk, job) && KeepsBaseValue(key) && RoleOf(disk, job, key) != Untouched
    ensures UserValue(CellOf(AfterJob(disk, job, 3), key)) != UserValue(CellOf(disk, key))
      <==> Misjudges(JudgeIn(disk), CellOf(disk, key), key, OutgoingIn(disk, job))
  {
    JobByCell(disk, job, 3, key);
    CellMovesExactlyWhenMisjudged(CellOf(disk, key), RoleOf(disk, job, key), JudgeIn(disk), key, OutgoingIn(disk, job));
  }

  lemma CellMovesExactlyWhenMisjudged(cell: Cell, role: Role, judge: Judge, key: Key, out: Outgoing)
    requires role != Untouched
    ensures UserValue(CellAfter(cell, role, LiveOwnerOf(cell.entry, judge, key, cell.live, out), 3)) != UserValue(cell)
      <==> Misjudges(judge, cell, key, out)
  {}

  /** While only clauths that keep the record wrote, no stage of a job moves the user's value. */
  lemma CellKeepsUserValue(cell: Cell, role: Role, key: Key, out: Outgoing, stage: nat)
    ensures UserValue(CellAfter(cell, role, LiveOwnerOf(cell.entry, Recorded, key, cell.live, out), stage))
         == UserValue(cell)
  {}

  /* ---------- runs ---------- */

  /** The record is stamped, agrees with the active marker, and the files read. */
  predicate Trusted(disk: Disk) {
    && disk.record.RecordOn? && !disk.record.record.migrating
    && disk.accounts.state.Some? && disk.record.record.active == MarkerOf(disk.accounts)
    && !disk.live.BadLive?
  }

  datatype Step =
    | RunJob(job: Job, stage: nat)
    | MarkerTo(active: Option<Name>)
    | UserEdit(env: JsonMap)
    | Reconfigure(profiles: seq<Name>, configs: map<Name, Account>)

  function Next(disk: Disk, step: Step): Disk {
    match step
    case RunJob(job, stage) => AfterJob(disk, job, stage)
    case MarkerTo(active) => MoveMarker(disk, active)
    case UserEdit(env) => disk.(live := Live(env))
    case Reconfigure(profiles, configs) =>
      if disk.accounts.state.None? then disk
      else disk.(accounts := Accounts(Some(disk.accounts.state.value.(profiles := profiles)), configs))
  }

  function Run(disk: Disk, steps: seq<Step>): Disk
    decreases |steps|
  {
    if steps == [] then disk else Run(Next(disk, steps[0]), steps[1..])
  }

  /** The value the user means a key to have after one step: an edit that moves it says so. */
  function Meant(disk: Disk, step: Step, key: Key, meant: Option<Json>): Option<Json> {
    if step.UserEdit? && Lookup(step.env, key) != Lookup(EnvOf(disk.live), key)
    then Lookup(step.env, key)
    else meant
  }

  function MeantAfter(disk: Disk, steps: seq<Step>, key: Key, meant: Option<Json>): Option<Json>
    decreases |steps|
  {
    if steps == [] then meant
    else MeantAfter(Next(disk, steps[0]), steps[1..], key, Meant(disk, steps[0], key, meant))
  }

  /** An edit of a key is told apart from clauth's own writes: it is not one of the values the
      key's entry names. */
  predicate ToldApart(disk: Disk, step: Step, key: Key) {
    step.UserEdit? && Lookup(step.env, key) != Lookup(EnvOf(disk.live), key)
      && key in RecordKeys(disk.record) && key in step.env
    ==> !RecordKeys(disk.record)[key].WroteLive(step.env[key])
  }

  predicate EditsToldApart(disk: Disk, steps: seq<Step>, key: Key)
    decreases |steps|
  {
    steps != [] ==>
      ToldApart(disk, steps[0], key) && EditsToldApart(Next(disk, steps[0]), steps[1..], key)
  }

  lemma TrustedJudge(disk: Disk)
    requires Trusted(disk)
    ensures JudgeIn(disk) == Recorded
  {}

  /** A job that stamps the record, or finds nothing to do, leaves every key as it was. */
  lemma StampKeepsCells(disk: Disk, job: Job, stage: nat, key: Key)
    requires !Lands(disk, job)
    ensures CellOf(AfterJob(disk, job, stage), key) == CellOf(disk, key)
  {}

  lemma JobKeepsUserValue(disk: Disk, job: Job, stage: nat, key: Key)
    requires Trusted(disk) && KeepsBaseValue(key)
    ensures UserValue(CellOf(AfterJob(disk, job, stage), key)) == UserValue(CellOf(disk, key))
  {
    if Lands(disk, job) {
      TrustedJudge(disk);
      JobByCell(disk, job, stage, key);
      CellKeepsUserValue(CellOf(disk, key), RoleOf(disk, job, key), key, OutgoingIn(disk, job), stage);
    } else {
      StampKeepsCells(disk, job, stage, key);
    }
  }

  lemma JobKeepsTrust(disk: Disk, job: Job, stage: nat)
    requires Trusted(disk)
    ensures Trusted(AfterJob(disk, job, stage))
  {
    if Lands(disk, job) {
      AfterLanding(disk, job, stage);
      TrustedJudge(disk);
    }
  }

  lemma StepKeepsUserValue(disk: Disk, step: Step, key: Key)
    requires Trusted(disk) && KeepsBaseValue(key) && ToldApart(disk, step, key)
    ensures Trusted(Next(disk, step))
    ensures UserValue(CellOf(Next(disk, step), key)) == Meant(disk, step, key, UserValue(CellOf(disk, key)))
  {
    if step.RunJob? {
      JobKeepsTrust(disk, step.job, step.stage);
      JobKeepsUserValue(disk, step.job, step.stage, key);
    }
  }

  /** Over every run of applies and put-backs cut short after any write, marker moves, account
      edits and user edits, the user's own value of a key stays recoverable: it is the one the user
      last gave it, or the one it had. */
  lemma {:induction false} RunKeepsUserValue(disk: Disk, steps: seq<Step>, key: Key)
    requires Trusted(disk) && KeepsBaseValue(key) && EditsToldApart(disk, steps, key)
    ensures Trusted(Run(disk, steps))
    ensures UserValue(CellOf(Run(disk, steps), key)) == MeantAfter(disk, steps, key, UserValue(CellOf(disk, key)))
    decreases |steps|
  {
    if steps == [] {
    } else {
      StepKeepsUserValue(disk, steps[0], key);
      RunKeepsUserValue(Next(disk, steps[0]), steps[1..], key);
    }
  }

  /** After any such run a switch-off that lands puts the user's own value of every covered key
      back into the live file. */
  lemma ReleaseGivesUserValuesBack(disk: Disk, steps: seq<Step>, prev: seq<Key>, key: Key)
    requires Trusted(disk) && KeepsBaseValue(key) && EditsToldApart(disk, steps, key)
    ensures Lookup(EnvOf(AfterJob(Run(disk, steps), Release(prev), 3).live), key)
         == MeantAfter(disk, steps, key, UserValue(CellOf(disk, key)))
  {
    RunKeepsUserValue(disk, steps, key);
    var end := Run(disk, steps);
    TrustedJudge(end);
    JobByCell(end, Release(prev), 3, key);
  }

  /* ---------- a crash and its retry ---------- */

  /** Running a job again on the cell a crash left ends where the first run would have. */
  lemma CellRetry(cell: Cell, role: Role, judge: Judge, key: Key, out: Outgoing, stage: nat)
    requires stage < 3
    ensures
      var crashed := CellAfter(cell, role, LiveOwnerOf(cell.entry, judge, key, cell.live, out), stage);
      CellAfter(crashed, role, LiveOwnerOf(crashed.entry, judge, key, crashed.live, out), 3)
      == CellAfter(cell, role, LiveOwnerOf(cell.entry, judge, key, cell.live, out), 3)
  {}

  /** What a crash leaves is judged as before it: the evidence moves only after the live write. */
  lemma CrashKeepsEvidence(disk: Disk, job: Job, stage: nat)
    requires Lands(disk, job) && stage < 3
    ensures var crashed := AfterJob(disk, job, stage);
      && Lands(crashed, job)
      && JudgeIn(crashed) == JudgeIn(disk)
      && OutgoingIn(crashed, job) == OutgoingIn(disk, job)
  {
    PlanOf(disk, job);
    AfterLanding(disk, job, stage);
    if disk.record.TornRecord? {
      TornCrashStillLands(disk, job, stage);
    }
  }

  lemma TornCrashStillLands(disk: Disk, job: Job, stage: nat)
    requires Lands(disk, job) && disk.record.TornRecord?
    ensures Lands(AfterJob(disk, job, stage), job)
  {
    PlanOf(disk, job);
    AfterLanding(disk, job, stage);
    var crashed := AfterJob(disk, job, stage);
    forall key | key in job.prev && Leaving(ProfileEnv(job), key) ensures key !in EnvOf(crashed.live) {
      JobByCell(disk, job, stage, key);
    }
  }

  lemma CrashKeepsRole(disk: Disk, job: Job, stage: nat, key: Key)
    requires Lands(disk, job) && stage < 3 && KeepsBaseValue(key)
    ensures RoleOf(AfterJob(disk, job, stage), job, key) == RoleOf(disk, job, key)
  {
    JobByCell(disk, job, stage, key);
  }

  lemma RetryCell(disk: Disk, job: Job, stage: nat, key: Key)
    requires Lands(disk, job) && stage < 3
    ensures CellOf(AfterJob(AfterJob(disk, job, stage), job, 3), key) == CellOf(AfterJob(disk, job, 3), key)
  {
    var crashed := AfterJob(disk, job, stage);
    CrashKeepsEvidence(disk, job, stage);
    if KeepsBaseValue(key) {
      JobByCell(disk, job, stage, key);
      JobByCell(crashed, job, 3, key);
      JobByCell(disk, job, 3, key);
      CrashKeepsRole(disk, job, stage, key);
      CellRetry(CellOf(disk, key), RoleOf(disk, job, key), JudgeIn(disk), key, OutgoingIn(disk, job), stage);
    } else {
      FieldKeyAfter(disk, job, stage, key);
      FieldKeyAfter(crashed, job, 3, key);
      FieldKeyAfter(disk, job, 3, key);
    }
  }

  /** A record is its header and its cells; so are two files that agree on both. */
  lemma SameFiles(a: Disk, b: Disk)
    requires forall key :: CellOf(a, key) == CellOf(b, key)
    requires a.accounts == b.accounts && a.live.NoLive? == b.live.NoLive? && !a.live.BadLive? && !b.live.BadLive?
    requires (a.record.RecordOn? && b.record.RecordOn?
              && a.record.record.(keys := map[]) == b.record.record.(keys := map[]))
             || (a.record == b.record)
    ensures a == b
  {
    forall key ensures Lookup(EnvOf(a.live), key) == Lookup(EnvOf(b.live), key)
                    && Lookup(RecordKeys(a.record), key) == Lookup(RecordKeys(b.record), key) {
      assert CellOf(a, key) == CellOf(b, key);
    }
    EqualByLookup(EnvOf(a.live), EnvOf(b.live));
    EqualByLookup(RecordKeys(a.record), RecordKeys(b.record));
  }

  lemma RetryHeader(disk: Disk, job: Job, stage: nat)
    requires Lands(disk, job) && stage < 3
    ensures var again, once := AfterJob(AfterJob(disk, job, stage), job, 3), AfterJob(disk, job, 3);
      if disk.record.TornRecord? then again.record == once.record
      else again.record.RecordOn? && once.record.RecordOn?
           && again.record.record.(keys := map[]) == once.record.record.(keys := map[])
  {
    CrashKeepsEvidence(disk, job, stage);
    AfterLanding(disk, job, stage);
    AfterLanding(AfterJob(disk, job, stage), job, 3);
    AfterLanding(disk, job, 3);
  }

  lemma RetryLiveKind(disk: Disk, job: Job, stage: nat)
    requires Lands(disk, job) && stage < 3
    ensures AfterJob(AfterJob(disk, job, stage), job, 3).live.NoLive? == AfterJob(disk, job, 3).live.NoLive?
  {
    var crashed := AfterJob(disk, job, stage);
    CrashKeepsEvidence(disk, job, stage);
    AfterLanding(disk, job, stage);
    AfterLanding(crashed, job, 3);
    AfterLanding(disk, job, 3);
    if job.Release? && disk.live.NoLive? {
      forall key ensures Lookup(EnvAfter(crashed, job, 3), key) == Lookup(EnvAfter(disk, job, 3), key) {
        RetryCell(disk, job, stage, key);
      }
      EqualByLookup(EnvAfter(crashed, job, 3), EnvAfter(disk, job, 3));
    }
  }

  /** A job retried after a crash at either point ends in exactly the files an uninterrupted run
      reaches, however the record was found. */
  lemma RetryLands(disk: Disk, job: Job, stage: nat)
    requires stage < 3
    ensures AfterJob(AfterJob(disk, job, stage), job, 3) == AfterJob(disk, job, 3)
  {
    if Lands(disk, job) {
      var again, once := AfterJob(AfterJob(disk, job, stage), job, 3), AfterJob(disk, job, 3);
      forall key ensures CellOf(again, key) == CellOf(once, key) {
        RetryCell(disk, job, stage, key);
      }
      CrashKeepsEvidence(disk, job, stage);
      AfterLanding(disk, job, stage);
      AfterLanding(AfterJob(disk, job, stage), job, 3);
      AfterLanding(disk, job, 3);
      RetryHeader(disk, job, stage);
      RetryLiveKind(disk, job, stage);
      SameFiles(again, once);
    }
  }

  /** Any number of crashes, each at its own point, and then a run that lands. */
  function CrashesThen(disk: Disk, job: Job, stages: seq<nat>): Disk
    decreases |stages|
  {
    if stages == [] then AfterJob(disk, job, 3) else CrashesThen(AfterJob(disk, job, stages[0]), job, stages[1..])
  }

  lemma {:induction false} RetriesLand(disk: Disk, job: Job, stages: seq<nat>)
    requires forall i :: 0 <= i < |stages| ==> stages[i] < 3
    ensures CrashesThen(disk, job, stages) == AfterJob(disk, job, 3)
    decreases |stages|
  {
    if stages == [] {
    } else {
      var crashed := AfterJob(disk, job, stages[0]);
      RetryLands(disk, job, stages[0]);
      RetriesLand(crashed, job, stages[1..]);
    }
  }

  /** An apply that does not fail leaves the account's own env in the live file, and the values of its
      profile fields where its env names no such key, though it may find nothing to write. */
  lemma ApplyServesAccount(disk: Disk, job: Job, key: Key)
    requires job.Apply? && PlanJob(disk, job).Ok?
    ensures var live, account := CellOf(AfterJob(disk, job, 3), key).live, job.account;
      && (key in account.env ==> live == Some(Str(account.env[key])))
      && (key !in account.env && key != EFFORT_LEVEL && key in FIELD_KEYS && FieldFor(account.fields, key).Some? ==>
            live == Some(Str(FieldFor(account.fields, key).value)))
      && (key == EFFORT_LEVEL && account.effort.Some? ==> live == Some(Str(EffectiveEffort(account))))
  {
    if Lands(disk, job) {
      AfterLanding(disk, job, 3);
    }
  }

  lemma LandedJudge(disk: Disk, job: Job)
    requires Lands(disk, job)
    ensures JudgeIn(AfterJob(disk, job, 3)) == Recorded
  {
    PlanOf(disk, job);
    AfterLanding(disk, job, 3);
  }

  /** A cell a landed apply left is one the same apply keeps, judged by the record alone. */
  lemma CellApplyTwice(cell: Cell, role: Role, owner: LiveOwner, again: Role, key: Key, out: Outgoing)
    requires if role.Cover? then again == role else !again.Cover?
    requires role.Untouched? ==> cell.entry.None?
    ensures var once := CellAfter(cell, role, owner, 3);
      CellAfter(once, again, LiveOwnerOf(once.entry, Recorded, key, once.live, out), 3) == once
  {}

  lemma ApplyTwiceCell(disk: Disk, job: Job, again: Job, key: Key)
    requires job.Apply? && again.Apply? && job.account == again.account
    requires Lands(disk, job) && Lands(AfterJob(disk, job, 3), again)
    ensures CellOf(AfterJob(AfterJob(disk, job, 3), again, 3), key) == CellOf(AfterJob(disk, job, 3), key)
  {
    var once := AfterJob(disk, job, 3);
    if KeepsBaseValue(key) {
      LandedJudge(disk, job);
      JobByCell(disk, job, 3, key);
      JobByCell(once, again, 3, key);
      CellApplyTwice(CellOf(disk, key), RoleOf(disk, job, key), OwnerIn(disk, job, key),
                     RoleOf(once, again, key), key, OutgoingIn(once, again));
    } else {
      FieldKeyAfter(disk, job, 3, key);
      FieldKeyAfter(once, again, 3, key);
    }
  }

  /** Applying an account that is already applied changes nothing, whatever outgoing keys and
      pre-edit maps the second apply is given. */
  lemma ApplyTwice(disk: Disk, job: Job, again: Job)
    requires job.Apply? && again.Apply? && job.account == again.account
    requires Lands(disk, job)
    ensures AfterJob(AfterJob(disk, job, 3), again, 3) == AfterJob(disk, job, 3)
  {
    var once := AfterJob(disk, job, 3);
    AfterLanding(disk, job, 3);
    if Lands(once, again) {
      var twice := AfterJob(once, again, 3);
      AfterLanding(once, again, 3);
      forall key ensures CellOf(twice, key) == CellOf(once, key) {
        ApplyTwiceCell(disk, job, again, key);
      }
      SameFiles(twice, once);
    }
  }
}
