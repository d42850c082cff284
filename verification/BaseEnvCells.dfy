/**
 * One key at a time: a job acts on every env key alone, through the key's record entry and its
 * live value. The lemmas here say so; `BaseEnvTheorems` reasons on the cells.
 */
module BaseEnvCells {
  import opened Wrappers
  import opened Json
  import opened BaseEnv
  import opened BaseEnvHome

  /** What the files hold of one key. */
  datatype Cell = Cell(entry: Option<Entry>, live: Option<Json>)

  function RecordKeys(file: RecordFile): map<Key, Entry> {
    if file.RecordOn? then file.record.keys else map[]
  }

  function CellOf(disk: Disk, key: Key): Cell {
    Cell(Lookup(RecordKeys(disk.record), key), Lookup(EnvOf(disk.live), key))
  }

  /** What a job does to a key. */
  datatype Role = Cover(value: Json) | Uncover | Untouched

  function ProfileEnv(job: Job): EnvMap {
    if job.Apply? then job.account.env else map[]
  }

  function RoleOf(disk: Disk, job: Job, key: Key): Role {
    if key in ProfileEnv(job) then Cover(Str(ProfileEnv(job)[key]))
    else if key in job.prev || key in RecordKeys(disk.record) then Uncover
    else Untouched
  }

  function FoundOf(file: RecordFile): Found {
    match file
    case RecordOn(saved) => Read(saved)
    case NoRecord => Absent
    case TornRecord => Unread
  }

  function JudgeIn(disk: Disk): Judge {
    JudgeOf(FoundOf(disk.record), MarkerOf(disk.accounts))
  }

  function OutgoingIn(disk: Disk, job: Job): Outgoing {
    OutgoingOf(disk.accounts, if job.Apply? then job.before else [], job.prev)
  }

  function OwnerIn(disk: Disk, job: Job, key: Key): LiveOwner {
    LiveOwnerOf(CellOf(disk, key).entry, JudgeIn(disk), key, CellOf(disk, key).live, OutgoingIn(disk, job))
  }

  /** A key's cell once `stage` of a job's three writes are through. */
  function CellAfter(cell: Cell, role: Role, owner: LiveOwner, stage: nat): Cell {
    match role
    case Untouched => cell
    case Cover(value) =>
      Cell(
        if stage == 0 then cell.entry
        else if stage < 3 then Some(NextEntry(owner, cell.live, value))
        else Some(LandedEntry(owner, cell.live, value)),
        if stage < 2 then cell.live else Some(value))
    case Uncover =>
      Cell(if stage < 3 then cell.entry else None, if stage < 2 then cell.live else Uncovered(owner, cell.live))
  }

  /** What the settle of a job works out, once it has found the record. */
  function SettledIn(disk: Disk, job: Job): Settled {
    SettleFound(EnvOf(disk.live), ProfileEnv(job), job.prev,
                Some(if job.Apply? then job.before else []), FoundOf(disk.record), disk.accounts)
  }

  predicate Lands(disk: Disk, job: Job) {
    PlanJob(disk, job).Ok? && !OnlyStamps(disk, job)
  }

  function ContentIn(disk: Disk, job: Job): Option<JsonMap> {
    if job.Apply? then Some(BuiltEnv(SettledIn(disk, job).env, job.account))
    else if SettledIn(disk, job).env == EnvOf(disk.live) then None
    else Some(SettledIn(disk, job).env)
  }

  lemma PlanOf(disk: Disk, job: Job)
    requires Lands(disk, job)
    ensures PlanJob(disk, job).value == LandWrites(SettledIn(disk, job).plan, ContentIn(disk, job))
    ensures FindRecord(EnvOf(disk.live), ProfileEnv(job), job.prev, true, disk.record) == Ok(FoundOf(disk.record))
  {}

  /** The record file a landing job leaves after `stage` writes. */
  function RecordAfter(disk: Disk, job: Job, stage: nat): RecordFile {
    if disk.record.TornRecord? || stage == 0 then disk.record
    else if stage < 3 then RecordOn(SettledIn(disk, job).plan.captured)
    else RecordOn(SettledIn(disk, job).plan.landed)
  }

  /** The env a landing job leaves after `stage` writes. */
  function EnvAfter(disk: Disk, job: Job, stage: nat): JsonMap {
    if stage < 2 then EnvOf(disk.live) else ContentIn(disk, job).GetOr(EnvOf(disk.live))
  }

  lemma AfterLanding(disk: Disk, job: Job, stage: nat)
    requires Lands(disk, job)
    ensures var after := AfterJob(disk, job, stage);
      && after.accounts == disk.accounts
      && after.record == RecordAfter(disk, job, stage)
      && EnvOf(after.live) == EnvAfter(disk, job, stage)
      && (after.live.NoLive? <==> disk.live.NoLive? && (stage < 2 || ContentIn(disk, job).None?))
      && !after.live.BadLive?
  {
    PlanOf(disk, job);
  }

  lemma CapturedLookup(disk: Disk, job: Job, key: Key)
    requires KeepsBaseValue(key)
    ensures Lookup(SettledIn(disk, job).plan.captured.keys, key) ==
      if key in ProfileEnv(job)
      then Some(NextEntry(OwnerIn(disk, job, key), CellOf(disk, key).live, Str(ProfileEnv(job)[key])))
      else CellOf(disk, key).entry
  {}

  lemma LandedLookup(disk: Disk, job: Job, key: Key)
    requires KeepsBaseValue(key)
    ensures Lookup(SettledIn(disk, job).plan.landed.keys, key) ==
      if key in ProfileEnv(job)
      then Some(LandedEntry(OwnerIn(disk, job, key), CellOf(disk, key).live, Str(ProfileEnv(job)[key])))
      else None
  {}

  lemma EntryByCell(disk: Disk, job: Job, stage: nat, key: Key)
    requires Lands(disk, job) && KeepsBaseValue(key)
    ensures CellOf(AfterJob(disk, job, stage), key).entry
         == CellAfter(CellOf(disk, key), RoleOf(disk, job, key), OwnerIn(disk, job, key), stage).entry
  {
    AfterLanding(disk, job, stage);
    if disk.record.TornRecord? {
      TornCoversNothing(disk, job, key);
    } else if 1 <= stage < 3 {
      CapturedLookup(disk, job, key);
    } else if stage >= 3 {
      LandedLookup(disk, job, key);
    }
  }

  lemma TornCoversNothing(disk: Disk, job: Job, key: Key)
    requires Lands(disk, job) && KeepsBaseValue(key) && disk.record.TornRecord?
    ensures key !in ProfileEnv(job)
  {
    PlanOf(disk, job);
    assert key !in CoveringKeys(ProfileEnv(job), true);
  }

  lemma SettledLookup(disk: Disk, job: Job, key: Key)
    requires KeepsBaseValue(key)
    ensures Lookup(SettledIn(disk, job).env, key) ==
      if RoleOf(disk, job, key) == Uncover
      then Uncovered(OwnerIn(disk, job, key), CellOf(disk, key).live)
      else CellOf(disk, key).live
  {
    var saved := SavedOf(FoundOf(disk.record));
    assert key in UncoveringKeys(ProfileEnv(job), job.prev, saved) <==> RoleOf(disk, job, key) == Uncover;
  }

  lemma LiveByCell(disk: Disk, job: Job, stage: nat, key: Key)
    requires Lands(disk, job) && KeepsBaseValue(key)
    ensures CellOf(AfterJob(disk, job, stage), key).live
         == CellAfter(CellOf(disk, key), RoleOf(disk, job, key), OwnerIn(disk, job, key), stage).live
  {
    AfterLanding(disk, job, stage);
    SettledLookup(disk, job, key);
  }

  /** A job acts on a key that keeps a base value through its cell alone. */
  lemma JobByCell(disk: Disk, job: Job, stage: nat, key: Key)
    requires Lands(disk, job) && KeepsBaseValue(key)
    ensures CellOf(AfterJob(disk, job, stage), key)
         == CellAfter(CellOf(disk, key), RoleOf(disk, job, key), OwnerIn(disk, job, key), stage)
  {
    EntryByCell(disk, job, stage, key);
    LiveByCell(disk, job, stage, key);
  }

  /** A key a profile field owns has no entry of its own, and the live value the job gives it does
      not depend on the one it had. */
  lemma FieldKeyAfter(disk: Disk, job: Job, stage: nat, key: Key)
    requires Lands(disk, job) && !KeepsBaseValue(key)
    ensures CellOf(AfterJob(disk, job, stage), key).entry == CellOf(disk, key).entry
    ensures CellOf(AfterJob(disk, job, stage), key).live ==
      if stage < 2 then CellOf(disk, key).live
      else if job.Apply? then BuiltValue(map[], job.account, key)
      else if key in job.prev then None
      else CellOf(disk, key).live
  {
    PlanOf(disk, job);
    AfterLanding(disk, job, stage);
    FieldKeyInRecord(disk, job, stage, key);
  }

  lemma FieldKeyInRecord(disk: Disk, job: Job, stage: nat, key: Key)
    requires Lands(disk, job) && !KeepsBaseValue(key)
    ensures Lookup(RecordKeys(RecordAfter(disk, job, stage)), key) == CellOf(disk, key).entry
  {
    if !disk.record.TornRecord? && 0 < stage < 3 {
      FieldKeyCaptured(disk, job, key);
    } else if !disk.record.TornRecord? && stage >= 3 {
      FieldKeyLanded(disk, job, key);
    }
  }

  lemma FieldKeyCaptured(disk: Disk, job: Job, key: Key)
    requires !KeepsBaseValue(key) && !disk.record.TornRecord?
    ensures Lookup(SettledIn(disk, job).plan.captured.keys, key) == CellOf(disk, key).entry
  {}

  lemma FieldKeyLanded(disk: Disk, job: Job, key: Key)
    requires !KeepsBaseValue(key) && !disk.record.TornRecord?
    ensures Lookup(SettledIn(disk, job).plan.landed.keys, key) == CellOf(disk, key).entry
  {}
}
