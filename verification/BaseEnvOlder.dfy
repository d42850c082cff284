/**
 * A clauth that predates the record, left running across an update, switches behind its back: it
 * moves the marker, deletes covered keys on its way out and writes the incoming account's values
 * with no entry. The marker it moved is the evidence a later apply judges by.
 */
module BaseEnvOlder {
  import opened Wrappers
  import opened Json
  import opened BaseEnv
  import opened BaseEnvHome
  import opened BaseEnvCells
  import opened BaseEnvTheorems

  datatype Step =
    /** An older clauth's switch, dropping whichever keys it believes the departing account set. */
    | OldSwitch(target: Name, dropped: set<Key>)
    /** An older clauth's switch-off: the live file stays as the departed account wrote it. */
    | OldSwitchOff
    /** A marker move of this clauth's own. */
    | MarkerTo(active: Option<Name>)
    /** An apply or put-back of this clauth's own that does not get through its last write. */
    | CutShort(job: Job, stage: nat)

  function Next(disk: Disk, step: Step): Disk
    requires Possible(disk, step)
  {
    match step
    case OldSwitch(target, dropped) =>
      disk.(live := Live(BuiltEnv(EnvOf(disk.live) - dropped, disk.accounts.configs[target])),
            accounts := disk.accounts.(state := Some(disk.accounts.state.value.(active := Some(target)))))
    case OldSwitchOff =>
      disk.(accounts := disk.accounts.(state := Some(disk.accounts.state.value.(active := None))))
    case MarkerTo(active) => MoveMarker(disk, active)
    case CutShort(job, stage) => AfterJob(disk, job, stage)
  }

  predicate Possible(disk: Disk, step: Step) {
    && disk.accounts.state.Some?
    && (step.OldSwitch? ==>
          step.target in disk.accounts.state.value.profiles && step.target in disk.accounts.configs)
    && (step.CutShort? ==> step.stage < 3)
  }

  /** The marker differs from the record's account: an unseen switch is on record. */
  predicate Evidence(disk: Disk) {
    && disk.record.RecordOn? && !disk.record.record.migrating
    && disk.accounts.state.Some? && disk.record.record.active != MarkerOf(disk.accounts)
    && !disk.live.BadLive?
  }

  predicate RosterHolds(disk: Disk, key: Key, live: Json) {
    live.Str? && OutgoingOf(disk.accounts, [], []).AnyAccountValue(key, live)
  }

  /** The key's entry holds `base`, and the live value is none, one the entry names, some account's
      own, or the base itself. */
  predicate Traced(disk: Disk, key: Key, base: Option<Json>) {
    var cell := CellOf(disk, key);
    && cell.entry.Some? && cell.entry.value.base == base
    && (cell.live.Some? ==>
          cell.entry.value.WroteLive(cell.live.value) || RosterHolds(disk, key, cell.live.value) || cell.live == base)
  }

  /** A key clauth covers at the moment an older clauth takes over is traced. */
  lemma CoveredIsTraced(disk: Disk, key: Key)
    requires Trusted(disk)
    requires var cell := CellOf(disk, key);
      cell.entry.Some? && (cell.live.Some? ==> cell.entry.value.WroteLive(cell.live.value))
    ensures Traced(disk, key, CellOf(disk, key).entry.value.base)
  {}

  lemma CutShortKeepsBase(disk: Disk, job: Job, stage: nat, key: Key, base: Option<Json>)
    requires Evidence(disk) && Traced(disk, key, base) && KeepsBaseValue(key) && stage < 3
    ensures Traced(AfterJob(disk, job, stage), key, base)
  {
    if Lands(disk, job) {
      JobByCell(disk, job, stage, key);
      AfterLanding(disk, job, stage);
      TracedCell(disk, job, stage, key, base);
    }
  }

  lemma TracedCell(disk: Disk, job: Job, stage: nat, key: Key, base: Option<Json>)
    requires Evidence(disk) && Traced(disk, key, base) && KeepsBaseValue(key)
    ensures
      var cell := CellOf(disk, key);
      var after := CellAfter(cell, RoleOf(disk, job, key), OwnerIn(disk, job, key), stage);
      && (stage < 3 ==>
            && after.entry.Some? && after.entry.value.base == base
            && (after.live.Some? ==>
                  after.entry.value.WroteLive(after.live.value) || after.live == cell.live || after.live == base)
            && (after.live == cell.live && cell.live.Some? ==>
                  after.entry.value.WroteLive(cell.live.value) || RosterHolds(disk, key, cell.live.value) || after.live == base))
      && (stage >= 3 ==> UserValue(after) == base)
  {}

  /** Neither marker move nor cut-short job ends the evidence, unless the marker comes back to the
      account the record names; a landed job always does. */
  lemma EvidenceEndsExactlyWhen(disk: Disk, active: Option<Name>, job: Job, stage: nat)
    requires Evidence(disk)
    ensures Evidence(MoveMarker(disk, active)) <==> active != disk.record.record.active
    ensures Lands(disk, job) ==> (Evidence(AfterJob(disk, job, stage)) <==> stage < 3)
  {
    if Lands(disk, job) {
      AfterLanding(disk, job, stage);
    }
  }

  /** Whether a step moves the marker onto the account the record names. */
  predicate Returns(record: RecordFile, step: Step) {
    && record.RecordOn?
    && ((step.OldSwitch? && Some(step.target) == record.record.active)
        || (step.OldSwitchOff? && None == record.record.active)
        || (step.MarkerTo? && step.active == record.record.active))
  }

  predicate Plausible(disk: Disk, steps: seq<Step>)
    decreases |steps|
  {
    steps != [] ==>
      && Possible(disk, steps[0]) && !Returns(disk.record, steps[0])
      && Plausible(Next(disk, steps[0]), steps[1..])
  }

  function Run(disk: Disk, steps: seq<Step>): Disk
    requires Plausible(disk, steps)
    decreases |steps|
  {
    if steps == [] then disk else Run(Next(disk, steps[0]), steps[1..])
  }

  lemma StepKeepsBase(disk: Disk, step: Step, key: Key, base: Option<Json>)
    requires Evidence(disk) && Traced(disk, key, base) && KeepsBaseValue(key)
    requires Possible(disk, step) && !Returns(disk.record, step)
    ensures Evidence(Next(disk, step)) && Traced(Next(disk, step), key, base)
  {
    match step
    case OldSwitch(target, dropped) =>
      OldValueIsHeld(disk, target, key);
    case OldSwitchOff =>
    case MarkerTo(active) =>
    case CutShort(job, stage) =>
      CutShortKeepsBase(disk, job, stage, key, base);
      EvidenceEndsExactlyWhen(disk, None, job, stage);
  }

  /** A roster account's own value is one the roster holds. */
  lemma OldValueIsHeld(disk: Disk, target: Name, key: Key)
    requires disk.accounts.state.Some?
    requires target in disk.accounts.state.value.profiles && target in disk.accounts.configs
    ensures key in disk.accounts.configs[target].env ==>
      RosterHolds(disk, key, Str(disk.accounts.configs[target].env[key]))
  {}

  lemma {:induction false} RunKeepsBase(disk: Disk, steps: seq<Step>, key: Key, base: Option<Json>)
    requires Evidence(disk) && Traced(disk, key, base) && KeepsBaseValue(key) && Plausible(disk, steps)
    ensures Evidence(Run(disk, steps)) && Traced(Run(disk, steps), key, base)
    decreases |steps|
  {
    if steps == [] {
    } else {
      StepKeepsBase(disk, steps[0], key, base);
      RunKeepsBase(Next(disk, steps[0]), steps[1..], key, base);
    }
  }

  lemma LandedGivesBase(disk: Disk, job: Job, key: Key, base: Option<Json>)
    requires Evidence(disk) && Traced(disk, key, base) && KeepsBaseValue(key) && Lands(disk, job)
    ensures UserValue(CellOf(AfterJob(disk, job, 3), key)) == base
  {
    JobByCell(disk, job, 3, key);
    TracedCell(disk, job, 3, key, base);
  }

  /** After any number of switches an older clauth made, and marker moves and crashed applies of
      this one between them, the next job that lands gives a covered key's base back: it is the
      user's value again, kept behind a new cover or put into the live file. */
  lemma BaseComesBack(disk: Disk, first: Step, steps: seq<Step>, job: Job, key: Key)
    requires Trusted(disk) && KeepsBaseValue(key)
    requires var cell := CellOf(disk, key);
      cell.entry.Some? && (cell.live.Some? ==> cell.entry.value.WroteLive(cell.live.value))
    requires (first.OldSwitch? || first.OldSwitchOff?) && Plausible(disk, [first] + steps)
    requires Lands(Run(disk, [first] + steps), job)
    ensures UserValue(CellOf(AfterJob(Run(disk, [first] + steps), job, 3), key))
         == CellOf(disk, key).entry.value.base
  {
    var base := CellOf(disk, key).entry.value.base;
    assert ([first] + steps)[1..] == steps;
    if first.OldSwitch? {
      OldValueIsHeld(disk, first.target, key);
    }
    RunKeepsBase(Next(disk, first), steps, key, base);
    LandedGivesBase(Run(disk, [first] + steps), job, key, base);
  }

  /** An older clauth that comes back to the recorded account leaves nothing to judge by, and loses
      nothing: the key is covered again by the value its entry names. */
  lemma {:induction false} ReturnTripKeepsBase(disk: Disk, legs: seq<(Name, set<Key>)>, home: Name, dropped: set<Key>, key: Key)
    requires Trusted(disk) && KeepsBaseValue(key) && MarkerOf(disk.accounts) == Some(home)
    requires var state := disk.accounts.state.value;
      && home in state.profiles && home in disk.accounts.configs
      && forall leg <- legs :: leg.0 in state.profiles && leg.0 in disk.accounts.configs
    requires var cell := CellOf(disk, key);
      && key in disk.accounts.configs[home].env && cell.entry.Some?
      && cell.entry.value.WroteLive(Str(disk.accounts.configs[home].env[key]))
    ensures var back := Next(Legs(disk, legs), OldSwitch(home, dropped));
      Trusted(back) && UserValue(CellOf(back, key)) == CellOf(disk, key).entry.value.base
  {
    LegsKeepRecord(disk, legs);
  }

  function Legs(disk: Disk, legs: seq<(Name, set<Key>)>): (after: Disk)
    requires disk.accounts.state.Some?
    requires forall leg <- legs :: leg.0 in disk.accounts.state.value.profiles && leg.0 in disk.accounts.configs
    ensures after.accounts.state.Some?
    ensures after.accounts.state.value.profiles == disk.accounts.state.value.profiles
    ensures after.accounts.configs == disk.accounts.configs
    decreases |legs|
  {
    if legs == [] then disk else Legs(Next(disk, OldSwitch(legs[0].0, legs[0].1)), legs[1..])
  }

  lemma {:induction false} LegsKeepRecord(disk: Disk, legs: seq<(Name, set<Key>)>)
    requires disk.accounts.state.Some?
    requires forall leg <- legs :: leg.0 in disk.accounts.state.value.profiles && leg.0 in disk.accounts.configs
    ensures Legs(disk, legs).record == disk.record
    decreases |legs|
  {
    if legs == [] {
    } else {
      LegsKeepRecord(Next(disk, OldSwitch(legs[0].0, legs[0].1)), legs[1..]);
    }
  }
}
