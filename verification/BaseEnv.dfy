/**
 * The record behind an account's `[env]` covers.
 *
 * Switching onto an account writes the account's own env values over the user's in the live
 * settings file. The record remembers, per covered key, the user's value (`base`) and a digest of
 * what clauth wrote, so that a later switch can give the user's value back. It is written around
 * the live write: what a crash could lose goes in before, what ends a piece of evidence goes in
 * after. This module models the computation; `BaseEnvHome` performs the writes.
 */
module BaseEnv {
  import opened Wrappers
  import opened MapMerge
  import opened Json

  type Key = string
  type Name = string
  type EnvMap = map<Key, string>
  type JsonMap = map<Key, Json>

  /* ---------- the keys a profile field owns ---------- */

  const BASE_URL := "ANTHROPIC_BASE_URL"
  const AUTH_TOKEN := "ANTHROPIC_AUTH_TOKEN"
  const EFFORT_LEVEL := "CLAUDE_CODE_EFFORT_LEVEL"

  const OPUS_MODEL := "ANTHROPIC_DEFAULT_OPUS_MODEL"
  const SONNET_MODEL := "ANTHROPIC_DEFAULT_SONNET_MODEL"
  const HAIKU_MODEL := "ANTHROPIC_DEFAULT_HAIKU_MODEL"
  const FABLE_MODEL := "ANTHROPIC_DEFAULT_FABLE_MODEL"
  const SUBAGENT_MODEL := "CLAUDE_CODE_SUBAGENT_MODEL"

  /** Set from a profile field, or removed when the field is unset. */
  const FIELD_KEYS: set<Key> := {BASE_URL, OPUS_MODEL, SONNET_MODEL, HAIKU_MODEL, FABLE_MODEL, SUBAGENT_MODEL}

  /** A covered key's base value is kept unless the build sets or clears the key itself. */
  predicate KeepsBaseValue(key: Key) {
    key !in FIELD_KEYS && key != AUTH_TOKEN && key != EFFORT_LEVEL
  }

  /* ---------- files ---------- */

  /** The digest of a JSON value. Only equality of digests is ever asked, and digests are taken
      as injective, so the model keeps the value digested. */
  datatype Digest = Digest(of: Json)

  /** What is known of one covered key. */
  datatype Entry = Entry(base: Option<Json>, wrote: Digest, pending: Option<Digest>) {
    predicate WroteLive(live: Json) {
      Digest(live) == wrote || pending == Some(Digest(live))
    }
  }

  datatype Record = Record(active: Option<Name>, migrating: bool, keys: map<Key, Entry>)

  const EMPTY_RECORD := Record(None, false, map[])

  /** The record file: not yet stamped, unreadable, or read. */
  datatype RecordFile = NoRecord | TornRecord | RecordOn(record: Record)

  /** The live settings file's `env` object. `BadLive` is a file that does not parse or whose
      `env` is not an object. A file without an `env` reads as an empty one. */
  datatype LiveFile = NoLive | BadLive | Live(env: JsonMap)

  /** The profile fields that own an env key. */
  datatype Fields = Fields(
    baseUrl: Option<string>,
    opus: Option<string>,
    sonnet: Option<string>,
    haiku: Option<string>,
    fable: Option<string>,
    subagent: Option<string>)

  const NO_FIELDS := Fields(None, None, None, None, None, None)

  /** `otherFields` says whether an api key or a default model is set, which no env key carries. */
  datatype Account = Account(env: EnvMap, fields: Fields, effort: Option<string>, otherFields: bool)

  datatype AppState = AppState(active: Option<Name>, profiles: seq<Name>)

  /** `state` is absent when the roster file does not load; a name missing from `configs` is an
      account whose own file does not read. */
  datatype Accounts = Accounts(state: Option<AppState>, configs: map<Name, Account>)

  datatype Disk = Disk(live: LiveFile, record: RecordFile, accounts: Accounts)

  datatype Failure = RosterUnreadable | RecordUnreadable | LiveUnreadable | WriteFailed

  /* ---------- the values the accounts carry ---------- */

  /** Several accounts' env maps as disk holds them: the keys they name, the values they carry, and
      whether some account no longer reads, so that its values are unknown. */
  datatype Envs = Envs(keys: set<Key>, values: set<(Key, string)>, unreadable: bool)

  function ReadEnvs(accounts: Accounts, names: set<Name>): Envs {
    Envs(
      set name, key | name in names && name in accounts.configs && key in accounts.configs[name].env :: key,
      set name, key | name in names && name in accounts.configs && key in accounts.configs[name].env
        :: (key, accounts.configs[name].env[key]),
      exists name <- names :: name !in accounts.configs)
  }

  function EnvsOf(maps: seq<EnvMap>): Envs {
    Envs(
      set env, key | env in maps && key in env :: key,
      set env, key | env in maps && key in env :: (key, env[key]),
      false)
  }

  /** The accounts an outgoing activation names: the active one, or all of them when none is. */
  function OutgoingNames(state: AppState): set<Name> {
    match state.active
    case Some(active) => if active in state.profiles then {active} else {}
    case None => set name | name in state.profiles
  }

  /** What a judgment may ask the accounts: `before` from an edited profile's env maps, `disk` the
      outgoing accounts', `roster` every account's; `listed` are the keys the caller names as the
      outgoing activation's. */
  datatype Outgoing = Outgoing(before: Envs, disk: Envs, roster: Envs, listed: seq<Key>) {

    /** Whether the live value is any account's own. */
    predicate AnyAccountValue(key: Key, live: Json) {
      live.Str? && ((key, live.s) in before.values || (key, live.s) in roster.values)
    }

    /** Whether the live value is an outgoing account's own. */
    predicate NamesLive(key: Key, live: Json) {
      live.Str? && ((key, live.s) in before.values || (key, live.s) in disk.values)
    }

    /** Before the stamp only: whether a live value with no entry is clauth's. */
    predicate Carry(key: Key, live: Json) {
      if !live.Str? then false
      else if key in before.keys || key in disk.keys then NamesLive(key, live)
      else if key !in listed then false
      else if key in roster.keys then (key, live.s) in roster.values
      else roster.unreadable || disk.unreadable
    }
  }

  /** An edit's own maps are its whole outgoing account: disk is not asked then. */
  function OutgoingOf(accounts: Accounts, before: seq<EnvMap>, listed: seq<Key>): Outgoing {
    var state := accounts.state.GetOr(AppState(None, []));
    Outgoing(
      EnvsOf(before),
      ReadEnvs(accounts, if before != [] then {} else OutgoingNames(state)),
      ReadEnvs(accounts, set name | name in state.profiles),
      listed)
  }

  /* ---------- judging one live value ---------- */

  datatype Judge = Migrating | Recorded | Unseen

  datatype LiveOwner = Clauth(base: Option<Json>) | User | Missing

  function LiveOwnerOf(entry: Option<Entry>, judge: Judge, key: Key, live: Option<Json>, out: Outgoing)
    : LiveOwner
  {
    match (live, entry)
    case (None, Some(e)) => if judge == Unseen then Clauth(e.base) else Missing
    case (None, None) => Missing
    case (Some(v), Some(e)) =>
      if e.WroteLive(v) then Clauth(e.base)
      else if judge == Unseen && out.AnyAccountValue(key, v) then Clauth(e.base)
      else User
    case (Some(v), None) =>
      if judge == Migrating && out.Carry(key, v) then Clauth(None)
      else if judge == Unseen && out.AnyAccountValue(key, v) then Clauth(None)
      else User
  }

  /** The user's value an owner verdict leaves behind a cover. */
  function BaseOf(owner: LiveOwner, live: Option<Json>): Option<Json> {
    match owner
    case Clauth(base) => base
    case User => live
    case Missing => None
  }

  /** The entry after the live write landed. */
  function LandedEntry(owner: LiveOwner, live: Option<Json>, value: Json): Entry {
    Entry(BaseOf(owner, live), Digest(value), None)
  }

  /** The entry before the live write: the digest clauth's value in the file still has rides
      along until the write replaces it. */
  function NextEntry(owner: LiveOwner, live: Option<Json>, value: Json): Entry {
    var landed := LandedEntry(owner, live, value);
    if owner.Clauth? && live.Some? && Digest(live.value) != landed.wrote then
      landed.(pending := Some(Digest(live.value)))
    else
      landed
  }

  /** What uncovering a key leaves in the live file. */
  function Uncovered(owner: LiveOwner, live: Option<Json>): Option<Json> {
    if owner.Clauth? then owner.base else live
  }

  /* ---------- settling the custom keys of an env object ---------- */

  datatype Found = Absent | Read(saved: Record) | Unread

  datatype Plan = Plan(found: Found, captured: Record, landed: Record)

  datatype Settled = Settled(env: JsonMap, plan: Plan)

  predicate Leaving(profileEnv: EnvMap, key: Key) {
    key !in profileEnv && KeepsBaseValue(key)
  }

  function CoveringKeys(profileEnv: EnvMap, live: bool): set<Key> {
    if live then set key | key in profileEnv && KeepsBaseValue(key) else {}
  }

  function UncoveringKeys(profileEnv: EnvMap, prev: seq<Key>, saved: Record): set<Key> {
    (set key | key in prev && Leaving(profileEnv, key)) +
    (set key | key in saved.keys && Leaving(profileEnv, key))
  }

  /** Whether some key's decision needs the record. */
  predicate NeedsRecord(env: JsonMap, profileEnv: EnvMap, prev: seq<Key>, live: bool) {
    CoveringKeys(profileEnv, live) != {} || exists key <- prev :: Leaving(profileEnv, key) && key in env
  }

  function FindRecord(env: JsonMap, profileEnv: EnvMap, prev: seq<Key>, live: bool, file: RecordFile)
    : Result<Found, Failure>
  {
    if live || exists key <- env.Keys :: Leaving(profileEnv, key) then
      match file
      case RecordOn(saved) => Ok(Read(saved))
      case NoRecord => Ok(Absent)
      case TornRecord =>
        if NeedsRecord(env, profileEnv, prev, live) then Err(RecordUnreadable) else Ok(Unread)
    else
      Ok(Unread)
  }

  function SavedOf(found: Found): Record {
    if found.Read? then found.saved else EMPTY_RECORD
  }

  function JudgeOf(found: Found, marker: Option<Name>): Judge {
    match found
    case Absent => Migrating
    case Unread => Recorded
    case Read(saved) =>
      if saved.migrating then Migrating
      else if saved.active == marker then Recorded
      else Unseen
  }

  function MarkerOf(accounts: Accounts): Option<Name> {
    if accounts.state.Some? then accounts.state.value.active else None
  }

  /** The header of the record a live apply writes before, and after, the live write. */
  function CapturedHeader(saved: Record, judge: Judge, live: bool): Record {
    if live && judge == Migrating then saved.(migrating := true) else saved
  }

  function LandedHeader(saved: Record, found: Found, marker: Option<Name>, live: bool): Record {
    if !live then saved
    else if found == Unread then saved.(migrating := false)
    else saved.(migrating := false, active := marker)
  }

  /** The live value one key is left with. */
  function SettledValue(
    env: JsonMap, profileEnv: EnvMap, prev: seq<Key>, saved: Record, judge: Judge, out: Outgoing, key: Key
  ): Option<Json> {
    if key in UncoveringKeys(profileEnv, prev, saved) then
      Uncovered(OwnerAt(env, saved, judge, out, key), Lookup(env, key))
    else if key in prev && key !in profileEnv && !KeepsBaseValue(key) then
      None
    else
      Lookup(env, key)
  }

  function SettledEnv(
    env: JsonMap, profileEnv: EnvMap, prev: seq<Key>, saved: Record, judge: Judge, out: Outgoing
  ): JsonMap {
    map key | key in env.Keys + UncoveringKeys(profileEnv, prev, saved)
              && SettledValue(env, profileEnv, prev, saved, judge, out, key).Some?
      :: SettledValue(env, profileEnv, prev, saved, judge, out, key).value
  }

  /** Who one key's live value belongs to. */
  function OwnerAt(env: JsonMap, saved: Record, judge: Judge, out: Outgoing, key: Key): LiveOwner {
    LiveOwnerOf(Lookup(saved.keys, key), judge, key, Lookup(env, key), out)
  }

  /** The value an account's env gives a key it covers. */
  function CoverValue(profileEnv: EnvMap, key: Key): Json {
    if key in profileEnv then Str(profileEnv[key]) else Null
  }

  function NextAt(env: JsonMap, profileEnv: EnvMap, saved: Record, judge: Judge, out: Outgoing, key: Key): Entry {
    NextEntry(OwnerAt(env, saved, judge, out, key), Lookup(env, key), CoverValue(profileEnv, key))
  }

  function LandedAt(env: JsonMap, profileEnv: EnvMap, saved: Record, judge: Judge, out: Outgoing, key: Key): Entry {
    LandedEntry(OwnerAt(env, saved, judge, out, key), Lookup(env, key), CoverValue(profileEnv, key))
  }

  function CapturedKeys(
    env: JsonMap, profileEnv: EnvMap, covering: set<Key>, saved: Record, judge: Judge, out: Outgoing
  ): map<Key, Entry> {
    Overlaid(saved.keys, covering, k => NextAt(env, profileEnv, saved, judge, out, k))
  }

  function LandedKeys(
    env: JsonMap, profileEnv: EnvMap, covering: set<Key>, saved: Record, judge: Judge, out: Outgoing
  ): map<Key, Entry> {
    Overlaid(saved.keys, covering, k => LandedAt(env, profileEnv, saved, judge, out, k))
  }

  function SettleFound(
    env: JsonMap, profileEnv: EnvMap, prev: seq<Key>, live: Option<seq<EnvMap>>,
    found: Found, accounts: Accounts
  ): Settled {
    var saved := SavedOf(found);
    var marker := MarkerOf(accounts);
    var judge := JudgeOf(found, marker);
    var out := OutgoingOf(accounts, live.GetOr([]), prev);
    var covering := CoveringKeys(profileEnv, live.Some?);
    var captured := CapturedHeader(saved, judge, live.Some?)
      .(keys := CapturedKeys(env, profileEnv, covering, saved, judge, out));
    var landed := LandedHeader(saved, found, marker, live.Some?)
      .(keys := LandedKeys(env, profileEnv, covering, saved, judge, out)
                - UncoveringKeys(profileEnv, prev, saved));
    Settled(SettledEnv(env, profileEnv, prev, saved, judge, out), Plan(found, captured, landed))
  }

  function Settle(
    env: JsonMap, profileEnv: EnvMap, prev: seq<Key>, live: Option<seq<EnvMap>>,
    file: RecordFile, accounts: Accounts
  ): Result<Settled, Failure> {
    match FindRecord(env, profileEnv, prev, live.Some?, file)
    case Err(e) => Err(e)
    case Ok(found) =>
      if found != Unread && accounts.state.None? then Err(RosterUnreadable)
      else Ok(SettleFound(env, profileEnv, prev, live, found, accounts))
  }

  /** The pass over the covered keys, filling both record images. */
  method CaptureCovers(
    env: JsonMap, profileEnv: EnvMap, covering: set<Key>, saved: Record, judge: Judge, out: Outgoing
  ) returns (captured: map<Key, Entry>, landed: map<Key, Entry>)
    ensures captured == CapturedKeys(env, profileEnv, covering, saved, judge, out)
    ensures landed == LandedKeys(env, profileEnv, covering, saved, judge, out)
  {
    captured, landed := saved.keys, saved.keys;
    var todo := covering;
    while todo != {}
      invariant todo <= covering
      invariant captured == CapturedKeys(env, profileEnv, covering - todo, saved, judge, out)
      invariant landed == LandedKeys(env, profileEnv, covering - todo, saved, judge, out)
      decreases todo
    {
      var key :| key in todo;
      CaptureOneMore(env, profileEnv, covering, todo, saved, judge, out, key);
      LandOneMore(env, profileEnv, covering, todo, saved, judge, out, key);
      var next := NextAt(env, profileEnv, saved, judge, out, key);
      if Lookup(saved.keys, key) != Some(next) {
        captured := captured[key := next];
      }
      landed := landed[key := LandedAt(env, profileEnv, saved, judge, out, key)];
      todo := todo - {key};
    }
    assert covering - todo == covering;
  }

  /** One more covered key is one update of the record written before the live write, and none
      when the record holds that entry already. */
  lemma CaptureOneMore(
    env: JsonMap, profileEnv: EnvMap, covering: set<Key>, todo: set<Key>, saved: Record, judge: Judge,
    out: Outgoing, key: Key
  )
    requires key in todo && todo <= covering
    ensures var before := CapturedKeys(env, profileEnv, covering - todo, saved, judge, out);
      var next := NextAt(env, profileEnv, saved, judge, out, key);
      CapturedKeys(env, profileEnv, covering - (todo - {key}), saved, judge, out)
      == if Lookup(saved.keys, key) != Some(next) then before[key := next] else before
  {
    OverlaidOneMore(saved.keys, covering, todo, k => NextAt(env, profileEnv, saved, judge, out, k), key);
  }

  /** One more covered key is one update of the record written after the live write. */
  lemma LandOneMore(
    env: JsonMap, profileEnv: EnvMap, covering: set<Key>, todo: set<Key>, saved: Record, judge: Judge,
    out: Outgoing, key: Key
  )
    requires key in todo && todo <= covering
    ensures LandedKeys(env, profileEnv, covering - (todo - {key}), saved, judge, out)
         == LandedKeys(env, profileEnv, covering - todo, saved, judge, out)
            [key := LandedAt(env, profileEnv, saved, judge, out, key)]
  {}

  /** The pass over the keys leaving the file: each goes back to the user's value, or away. */
  method UncoverKeys(
    env0: JsonMap, uncovering: set<Key>, saved: Record, covered: map<Key, Entry>, judge: Judge, out: Outgoing
  ) returns (env: JsonMap, landed: map<Key, Entry>)
    ensures landed == covered - uncovering
    ensures forall key ::
      Lookup(env, key) ==
      if key in uncovering
      then Uncovered(OwnerAt(env0, saved, judge, out, key), Lookup(env0, key))
      else Lookup(env0, key)
  {
    env, landed := env0, covered;
    var todo := uncovering;
    while todo != {}
      invariant todo <= uncovering
      invariant landed == covered - (uncovering - todo)
      invariant forall key ::
        Lookup(env, key) ==
        if key in uncovering && key !in todo
        then Uncovered(OwnerAt(env0, saved, judge, out, key), Lookup(env0, key))
        else Lookup(env0, key)
      decreases todo
    {
      var key :| key in todo;
      match OwnerAt(env, saved, judge, out, key) {
        case Clauth(Some(base)) => env := env[key := base];
        case Clauth(None) => env := env - {key};
        case User =>
        case Missing =>
      }
      landed := landed - {key};
      todo := todo - {key};
    }
    assert uncovering - todo == uncovering;
  }

  /** The pass over the listed keys a profile field owns: a leaving one goes. */
  method StripFieldKeys(env0: JsonMap, profileEnv: EnvMap, prev: seq<Key>) returns (env: JsonMap)
    ensures forall key ::
      Lookup(env, key) ==
      if key in prev && key !in profileEnv && !KeepsBaseValue(key) then None else Lookup(env0, key)
  {
    env := env0;
    for i := 0 to |prev|
      invariant forall key ::
        Lookup(env, key) ==
        if key in prev[..i] && key !in profileEnv && !KeepsBaseValue(key) then None else Lookup(env0, key)
    {
      if prev[i] !in profileEnv && !KeepsBaseValue(prev[i]) {
        env := env - {prev[i]};
      }
      assert prev[..i + 1] == prev[..i] + [prev[i]];
    }
    assert prev[..|prev|] == prev;
  }

  /** The two passes that change the env block itself. */
  method SettleEnv(
    env0: JsonMap, profileEnv: EnvMap, prev: seq<Key>, saved: Record, covered: map<Key, Entry>,
    judge: Judge, out: Outgoing
  ) returns (env: JsonMap, landed: map<Key, Entry>)
    ensures env == SettledEnv(env0, profileEnv, prev, saved, judge, out)
    ensures landed == covered - UncoveringKeys(profileEnv, prev, saved)
  {
    env, landed := UncoverKeys(env0, UncoveringKeys(profileEnv, prev, saved), saved, covered, judge, out);
    env := StripFieldKeys(env, profileEnv, prev);
    EqualByLookup(env, SettledEnv(env0, profileEnv, prev, saved, judge, out));
  }

  /** The settle once the record is found: the headers, then the three passes. */
  method SettleAgainst(
    env0: JsonMap, profileEnv: EnvMap, prev: seq<Key>, live: Option<seq<EnvMap>>,
    found: Found, accounts: Accounts
  ) returns (settled: Settled)
    ensures settled == SettleFound(env0, profileEnv, prev, live, found, accounts)
  {
    var saved := SavedOf(found);
    var marker := MarkerOf(accounts);
    var judge := JudgeOf(found, marker);
    var out := OutgoingOf(accounts, live.GetOr([]), prev);
    var captured, landed := saved, saved;
    if live.Some? {
      if judge == Migrating {
        captured := captured.(migrating := true);
      }
      landed := landed.(migrating := false);
      if found != Unread {
        landed := landed.(active := marker);
      }
    }
    var covering := CoveringKeys(profileEnv, live.Some?);
    var capturedKeys, landedKeys := CaptureCovers(env0, profileEnv, covering, saved, judge, out);
    var env;
    env, landedKeys := SettleEnv(env0, profileEnv, prev, saved, landedKeys, judge, out);
    settled := Settled(env, Plan(found, captured.(keys := capturedKeys), landed.(keys := landedKeys)));
  }

  /** The settle as the program runs it: find the record, refuse what it cannot judge, settle. */
  method SettleCustomEnv(
    env0: JsonMap, profileEnv: EnvMap, prev: seq<Key>, live: Option<seq<EnvMap>>,
    file: RecordFile, accounts: Accounts
  ) returns (r: Result<Settled, Failure>)
    ensures r == Settle(env0, profileEnv, prev, live, file, accounts)
  {
    var found;
    match FindRecord(env0, profileEnv, prev, live.Some?, file) {
      case Err(e) => return Err(e);
      case Ok(f) => found := f;
    }
    if found != Unread && accounts.state.None? {
      return Err(RosterUnreadable);
    }
    var settled := SettleAgainst(env0, profileEnv, prev, live, found, accounts);
    return Ok(settled);
  }
}
