/**
 * The live settings file and the record beside it, and the writes an apply and a switch-off make
 * to them. Every write can be the last one: a crash, or a failure the program reports, leaves the
 * files as the writes before it left them.
 */
module BaseEnvHome {
  import opened Wrappers
  import opened Json
  import opened BaseEnv

  /* ---------- building the env block ---------- */

  function EnvOf(live: LiveFile): JsonMap {
    if live.Live? then live.env else map[]
  }

  /** A profile's own `[env]` entry outranks its effort field. */
  function EffectiveEffort(account: Account): string {
    if EFFORT_LEVEL in account.env then account.env[EFFORT_LEVEL] else account.effort.GetOr("")
  }

  /** The field that owns a key. */
  function FieldFor(fields: Fields, key: Key): Option<string> {
    if key == SUBAGENT_MODEL then fields.subagent
    else if key == FABLE_MODEL then fields.fable
    else if key == HAIKU_MODEL then fields.haiku
    else if key == SONNET_MODEL then fields.sonnet
    else if key == OPUS_MODEL then fields.opus
    else if key == BASE_URL then fields.baseUrl
    else None
  }

  function FieldOf(account: Account, key: Key): Option<Json> {
    var field := FieldFor(account.fields, key);
    if field.Some? then Some(Str(field.value)) else None
  }

  /** The value a build writes, or clears, for a key a profile field owns. The api key is never
      written into the env block. */
  function FieldValue(account: Account, key: Key): Option<Json> {
    if key == EFFORT_LEVEL then Some(Str(EffectiveEffort(account)))
    else if key in FIELD_KEYS then FieldOf(account, key)
    else None
  }

  /** One key of the env block a build writes over the settled one. */
  function BuiltValue(settled: JsonMap, account: Account, key: Key): Option<Json> {
    if key in account.env then Some(Str(account.env[key]))
    else if !KeepsBaseValue(key) then FieldValue(account, key)
    else Lookup(settled, key)
  }

  function BuiltEnv(settled: JsonMap, account: Account): JsonMap {
    map key | key in settled.Keys + account.env.Keys + FIELD_KEYS + {EFFORT_LEVEL}
              && BuiltValue(settled, account, key).Some?
      :: BuiltValue(settled, account, key).value
  }

  function SetOrClear(env: JsonMap, key: Key, value: Option<string>): JsonMap {
    if value.Some? then env[key := Str(value.value)] else env - {key}
  }

  function SetAll(env: JsonMap, pairs: seq<(Key, Option<string>)>): JsonMap {
    if pairs == [] then env
    else
      var last := pairs[|pairs| - 1];
      SetOrClear(SetAll(env, pairs[..|pairs| - 1]), last.0, last.1)
  }

  /** The model keys a profile field sets or clears, one by one. */
  method SetModelKeys(env0: JsonMap, pairs: seq<(Key, Option<string>)>) returns (env: JsonMap)
    ensures env == SetAll(env0, pairs)
  {
    env := env0;
    for i := 0 to |pairs|
      invariant env == SetAll(env0, pairs[..i])
    {
      assert pairs[..i + 1][..i] == pairs[..i];
      env := SetOrClear(env, pairs[i].0, pairs[i].1);
    }
    assert pairs[..|pairs|] == pairs;
  }

  function ModelPairs(fields: Fields): seq<(Key, Option<string>)> {
    [(OPUS_MODEL, fields.opus), (SONNET_MODEL, fields.sonnet), (HAIKU_MODEL, fields.haiku),
     (FABLE_MODEL, fields.fable), (SUBAGENT_MODEL, fields.subagent)]
  }

  lemma SetAllSnoc(env: JsonMap, pairs: seq<(Key, Option<string>)>, last: (Key, Option<string>))
    ensures SetAll(env, pairs + [last]) == SetOrClear(SetAll(env, pairs), last.0, last.1)
  {
    assert (pairs + [last])[..|pairs|] == pairs;
  }

  /** Each model key gets its own field, and no other key moves. */
  lemma ModelKeysSet(env: JsonMap, fields: Fields, key: Key)
    ensures Lookup(SetAll(env, ModelPairs(fields)), key) ==
      if key in {OPUS_MODEL, SONNET_MODEL, HAIKU_MODEL, FABLE_MODEL, SUBAGENT_MODEL}
      then (var field := FieldFor(fields, key); if field.Some? then Some(Str(field.value)) else None)
      else Lookup(env, key)
  {
    var one := [(OPUS_MODEL, fields.opus)];
    var two := one + [(SONNET_MODEL, fields.sonnet)];
    var three := two + [(HAIKU_MODEL, fields.haiku)];
    var four := three + [(FABLE_MODEL, fields.fable)];
    assert [] + one == one;
    SetAllSnoc(env, [], (OPUS_MODEL, fields.opus));
    SetAllSnoc(env, one, (SONNET_MODEL, fields.sonnet));
    SetAllSnoc(env, two, (HAIKU_MODEL, fields.haiku));
    SetAllSnoc(env, three, (FABLE_MODEL, fields.fable));
    SetAllSnoc(env, four, (SUBAGENT_MODEL, fields.subagent));
    assert ModelPairs(fields) == four + [(SUBAGENT_MODEL, fields.subagent)];
  }

  /** The build after the settle: the field-owned keys, then the account's own env last. */
  method BuildEnv(settled: JsonMap, account: Account) returns (env: JsonMap)
    ensures env == BuiltEnv(settled, account)
  {
    var based := SetOrClear(settled, BASE_URL, account.fields.baseUrl) - {AUTH_TOKEN};
    env := SetModelKeys(based, ModelPairs(account.fields));
    forall key ensures Lookup(env, key) == if key in FIELD_KEYS then FieldOf(account, key)
                                           else if key == AUTH_TOKEN then None else Lookup(settled, key) {
      ModelKeysSet(based, account.fields, key);
      assert |BASE_URL| == 18 && |AUTH_TOKEN| == 20;
    }
    env := env[EFFORT_LEVEL := Str(EffectiveEffort(account))];
    env := env + map key | key in account.env :: Str(account.env[key]);
    BuiltByLookup(env, settled, account);
  }

  lemma BuiltByLookup(env: JsonMap, settled: JsonMap, account: Account)
    requires forall key :: Lookup(env, key) == BuiltValue(settled, account, key)
    ensures env == BuiltEnv(settled, account)
  {
    EqualByLookup(env, BuiltEnv(settled, account));
  }

  /* ---------- jobs and the writes they plan ---------- */

  /** A live apply of an account, or the put-back of a switch-off. */
  datatype Job = Apply(account: Account, prev: seq<Key>, before: seq<EnvMap>) | Release(prev: seq<Key>)

  /** The record before the live write, the live env, and the record after it. */
  datatype Writes = Writes(pre: Option<Record>, content: Option<JsonMap>, post: Option<Record>)

  predicate HasAnything(account: Account, prev: seq<Key>) {
    account.fields != NO_FIELDS || account.otherFields || account.env != map[] || account.effort.Some? || prev != []
  }

  function LandWrites(plan: Plan, content: Option<JsonMap>): Writes {
    Writes(
      if plan.found == Absent || (plan.found.Read? && plan.captured != plan.found.saved)
      then Some(plan.captured) else None,
      content,
      if plan.found != Unread && plan.landed != plan.captured then Some(plan.landed) else None)
  }

  /** An apply with nothing to write into a file that is not there only stamps the record. */
  predicate OnlyStamps(disk: Disk, job: Job) {
    job.Apply? && !HasAnything(job.account, job.prev) && disk.live.NoLive?
  }

  function PlanJob(disk: Disk, job: Job): Result<Writes, Failure> {
    if OnlyStamps(disk, job) then
      if !disk.record.NoRecord? then Ok(Writes(None, None, None))
      else if disk.accounts.state.None? then Err(RosterUnreadable)
      else Ok(Writes(Some(EMPTY_RECORD.(active := MarkerOf(disk.accounts))), None, None))
    else if disk.live.BadLive? then Err(LiveUnreadable)
    else
      var env := EnvOf(disk.live);
      match job
      case Apply(account, prev, before) =>
        (match Settle(env, account.env, prev, Some(before), disk.record, disk.accounts)
         case Err(e) => Err(e)
         case Ok(settled) => Ok(LandWrites(settled.plan, Some(BuiltEnv(settled.env, account)))))
      case Release(prev) =>
        (match Settle(env, map[], prev, Some([]), disk.record, disk.accounts)
         case Err(e) => Err(e)
         case Ok(settled) =>
           Ok(LandWrites(settled.plan, if settled.env == env then None else Some(settled.env))))
  }

  /** The files once the first `stage` of the three writes are through. */
  function Written(disk: Disk, writes: Writes, stage: nat): Disk {
    var pre := if stage >= 1 && writes.pre.Some? then disk.(record := RecordOn(writes.pre.value)) else disk;
    var live := if stage >= 2 && writes.content.Some? then pre.(live := Live(writes.content.value)) else pre;
    if stage >= 3 && writes.post.Some? then live.(record := RecordOn(writes.post.value)) else live
  }

  /** The files a job leaves when it stops after `stage` writes; 3 is a job that landed. */
  function AfterJob(disk: Disk, job: Job, stage: nat): Disk {
    match PlanJob(disk, job)
    case Err(_) => disk
    case Ok(writes) => Written(disk, writes, stage)
  }

  /* ---------- the program's writes ---------- */

  datatype Fault = NoFault | PreWriteFails | LiveWriteFails | LandingFails

  predicate Stops(writes: Writes, fault: Fault) {
    (fault == PreWriteFails && writes.pre.Some?) || (fault == LiveWriteFails && writes.content.Some?)
  }

  function Reached(writes: Writes, fault: Fault): nat {
    if fault == PreWriteFails && writes.pre.Some? then 0
    else if fault == LiveWriteFails && writes.content.Some? then 1
    else if fault == LandingFails then 2
    else 3
  }

  /** A marker move carries the record's account along only while the record agrees with the
      marker it replaces. */
  function Noted(record: RecordFile, active: Option<Name>, replaced: Option<Name>): RecordFile {
    if record.RecordOn? && record.record.active == replaced then
      RecordOn(record.record.(active := active))
    else
      record
  }

  /** The files after `stage` of a marker move's two writes, the record's and the marker's own. */
  function MarkerMoved(disk: Disk, active: Option<Name>, stage: nat): Disk {
    if disk.accounts.state.None? || stage == 0 then disk
    else
      var state := disk.accounts.state.value;
      var noted := disk.(record := Noted(disk.record, active, state.active));
      if stage == 1 then noted else noted.(accounts := disk.accounts.(state := Some(state.(active := active))))
  }

  function MoveMarker(disk: Disk, active: Option<Name>): Disk {
    MarkerMoved(disk, active, 2)
  }

  datatype MoveFault = NoMoveFault | RecordFails | MarkerFails

  /** A move whose record needs no note has the one write. */
  function MoveReached(disk: Disk, active: Option<Name>, fault: MoveFault): nat {
    if disk.accounts.state.None? then 0
    else if fault.RecordFails? && Noted(disk.record, active, disk.accounts.state.value.active) != disk.record then 0
    else if fault.MarkerFails? then 1
    else 2
  }

  class Home {
    var live: LiveFile
    var record: RecordFile
    var accounts: Accounts

    constructor (disk: Disk)
      ensures this.Files() == disk
    {
      live, record, accounts := disk.live, disk.record, disk.accounts;
    }

    ghost function Files(): Disk
      reads this
    {
      Disk(live, record, accounts)
    }

    /** Write a live build and its record, in the order the crash guard needs. */
    method LandLiveSettings(content: Option<JsonMap>, plan: Plan, fault: Fault) returns (r: Result<(), Failure>)
      modifies this`live, this`record
      ensures Files() == Written(old(Files()), LandWrites(plan, content), Reached(LandWrites(plan, content), fault))
      ensures r.Err? <==> Stops(LandWrites(plan, content), fault)
    {
      var savesFirst :=
        match plan.found
        case Absent => true
        case Read(saved) => plan.captured != saved
        case Unread => false;
      if savesFirst {
        if fault == PreWriteFails {
          return Err(WriteFailed);
        }
        record := RecordOn(plan.captured);
      }
      if content.Some? {
        if fault == LiveWriteFails {
          return Err(WriteFailed);
        }
        live := Live(content.value);
      }
      // Best effort: the live write already landed.
      if plan.found != Unread && plan.landed != plan.captured && fault != LandingFails {
        record := RecordOn(plan.landed);
      }
      return Ok(());
    }

    /** Apply an account to the live settings. */
    method ApplyProfile(account: Account, prev: seq<Key>, before: seq<EnvMap>, fault: Fault)
      returns (r: Result<(), Failure>)
      modifies this`live, this`record
      ensures PlanJob(old(Files()), Apply(account, prev, before)).Err? ==> r.Err? && Files() == old(Files())
      ensures PlanJob(old(Files()), Apply(account, prev, before)).Ok? ==>
        var writes := PlanJob(old(Files()), Apply(account, prev, before)).value;
        && Files() == AfterJob(old(Files()), Apply(account, prev, before), Reached(writes, fault))
        && (r.Err? <==> Stops(writes, fault))
    {
      if !HasAnything(account, prev) && live.NoLive? {
        if record.NoRecord? {
          if accounts.state.None? {
            return Err(RosterUnreadable);
          }
          if fault == PreWriteFails {
            return Err(WriteFailed);
          }
          record := RecordOn(EMPTY_RECORD.(active := MarkerOf(accounts)));
        }
        return Ok(());
      }
      if live.BadLive? {
        return Err(LiveUnreadable);
      }
      var settled := SettleCustomEnv(EnvOf(live), account.env, prev, Some(before), record, accounts);
      if settled.Err? {
        return Err(settled.error);
      }
      var env := BuildEnv(settled.value.env, account);
      r := LandLiveSettings(Some(env), settled.value.plan, fault);
    }

    /** Switch-off's put-back, run once the marker is cleared. */
    method ReleaseSavedBaseEnv(prev: seq<Key>, fault: Fault) returns (r: Result<(), Failure>)
      modifies this`live, this`record
      ensures PlanJob(old(Files()), Release(prev)).Err? ==> r.Err? && Files() == old(Files())
      ensures PlanJob(old(Files()), Release(prev)).Ok? ==>
        var writes := PlanJob(old(Files()), Release(prev)).value;
        && Files() == AfterJob(old(Files()), Release(prev), Reached(writes, fault))
        && (r.Err? <==> Stops(writes, fault))
    {
      if live.BadLive? {
        return Err(LiveUnreadable);
      }
      var env := EnvOf(live);
      var settled := SettleCustomEnv(env, map[], prev, Some([]), record, accounts);
      if settled.Err? {
        return Err(settled.error);
      }
      var content := if settled.value.env == env then None else Some(settled.value.env);
      r := LandLiveSettings(content, settled.value.plan, fault);
    }

    /** Move the active marker, the record's first; a failure or a crash stops it before either write. */
    method SaveActive(active: Option<Name>, fault: MoveFault) returns (r: Result<(), Failure>)
      modifies this`record, this`accounts
      ensures Files() == MarkerMoved(old(Files()), active, MoveReached(old(Files()), active, fault))
      ensures r.Err? <==> MoveReached(old(Files()), active, fault) < 2
    {
      if accounts.state.None? {
        return Err(RosterUnreadable);
      }
      var state := accounts.state.value;
      if record.RecordOn? && record.record.active == state.active && record.record.active != active {
        if fault.RecordFails? {
          return Err(WriteFailed);
        }
        record := RecordOn(record.record.(active := active));
      }
      if fault.MarkerFails? {
        return Err(WriteFailed);
      }
      accounts := accounts.(state := Some(state.(active := active)));
      r := Ok(());
    }
  }
}
