/**
 * The first job that lands, before any key was judged: which live values it takes for clauth's, told by what
 * the accounts themselves hold, and what that leaves the user.
 */
module BaseEnvMigration {
  import opened Wrappers
  import opened Json
  import opened BaseEnv
  import opened BaseEnvHome
  import opened BaseEnvCells
  import opened BaseEnvTheorems

  /* ---------- the accounts asked, one by one ---------- */

  predicate EditNames(before: seq<EnvMap>, key: Key) {
    exists i :: 0 <= i < |before| && key in before[i]
  }

  predicate EditHolds(before: seq<EnvMap>, key: Key, live: Json) {
    exists i :: 0 <= i < |before| && key in before[i] && live == Str(before[i][key])
  }

  predicate SomeNames(accounts: Accounts, names: set<Name>, key: Key) {
    exists name :: name in names && name in accounts.configs && key in accounts.configs[name].env
  }

  predicate SomeHolds(accounts: Accounts, names: set<Name>, key: Key, live: Json) {
    exists name :: name in names && name in accounts.configs && key in accounts.configs[name].env
                   && live == Str(accounts.configs[name].env[key])
  }

  predicate SomeUnread(accounts: Accounts, names: set<Name>) {
    exists name :: name in names && name !in accounts.configs
  }

  function StateOf(accounts: Accounts): AppState {
    accounts.state.GetOr(AppState(None, []))
  }

  function Roster(accounts: Accounts): set<Name> {
    set name | name in StateOf(accounts).profiles
  }

  /** The accounts on disk the judgment asks first: none where an edit brings its own maps. */
  function Asked(accounts: Accounts, before: seq<EnvMap>): set<Name> {
    if before == [] then OutgoingNames(StateOf(accounts)) else {}
  }

  lemma AskedAreRostered(accounts: Accounts, before: seq<EnvMap>)
    ensures Asked(accounts, before) <= Roster(accounts)
  {}

  /** Whose a live value with no entry is, before the stamp: an account asked first that names the key
      decides by its own value; otherwise, for a key the caller lists, the roster does, and an account
      that does not read may have written what none of the others names. */
  lemma CarryExactlyWhen(accounts: Accounts, before: seq<EnvMap>, listed: seq<Key>, key: Key, live: Json)
    ensures OutgoingOf(accounts, before, listed).Carry(key, live) <==>
      var asked, roster := Asked(accounts, before), Roster(accounts);
      if EditNames(before, key) || SomeNames(accounts, asked, key)
      then EditHolds(before, key, live) || SomeHolds(accounts, asked, key, live)
      else && key in listed && live.Str?
           && (if SomeNames(accounts, roster, key) then SomeHolds(accounts, roster, key, live)
               else SomeUnread(accounts, roster))
  {
    var asked, roster := Asked(accounts, before), Roster(accounts);
    EditMaps(before, key, live);
    DiskMaps(accounts, asked, key, live);
    DiskMaps(accounts, roster, key, live);
    AskedAreRostered(accounts, before);
  }

  lemma EditMaps(before: seq<EnvMap>, key: Key, live: Json)
    ensures key in EnvsOf(before).keys <==> EditNames(before, key)
    ensures live.Str? && (key, live.s) in EnvsOf(before).values <==> EditHolds(before, key, live)
  {
    if live.Str? && EditHolds(before, key, live) {
      var i :| 0 <= i < |before| && key in before[i] && live == Str(before[i][key]);
      assert before[i] in before;
    }
    if EditNames(before, key) {
      var i :| 0 <= i < |before| && key in before[i];
      assert before[i] in before;
    }
  }

  lemma DiskMaps(accounts: Accounts, names: set<Name>, key: Key, live: Json)
    ensures var envs := ReadEnvs(accounts, names);
      && (key in envs.keys <==> SomeNames(accounts, names, key))
      && (live.Str? && (key, live.s) in envs.values <==> SomeHolds(accounts, names, key, live))
      && (envs.unreadable <==> SomeUnread(accounts, names))
  {}

  /* ---------- what the migration leaves ---------- */

  /** The env maps an edited account had before the edit. */
  function BeforeOf(job: Job): seq<EnvMap> {
    if job.Apply? then job.before else []
  }

  /** No job that landed has judged the key yet: there is no record, or one a crash cut short of it. */
  predicate Unjudged(disk: Disk, key: Key) {
    JudgeIn(disk) == Migrating && CellOf(disk, key).entry.None?
  }

  /** Somebody asked first carries the live value under the key. */
  predicate OutgoingHolds(disk: Disk, job: Job, key: Key, live: Json) {
    EditHolds(BeforeOf(job), key, live) || SomeHolds(disk.accounts, Asked(disk.accounts, BeforeOf(job)), key, live)
  }

  /** The first job that lands takes an outgoing account's own value for clauth's, so nothing of it is
      left the user's. */
  lemma MigrationTakesTheOutgoing(disk: Disk, job: Job, key: Key, live: Json)
    requires Lands(disk, job) && Unjudged(disk, key)
    requires KeepsBaseValue(key) && RoleOf(disk, job, key) != Untouched
    requires CellOf(disk, key).live == Some(live) && OutgoingHolds(disk, job, key, live)
    ensures UserValue(CellOf(AfterJob(disk, job, 3), key)) == None
  {
    CarryExactlyWhen(disk.accounts, BeforeOf(job), job.prev, key, live);
    JobByCell(disk, job, 3, key);
  }

  /** While every account reads, it takes no value that none of them carries: that one stays the user's. */
  lemma MigrationKeepsTheUsers(disk: Disk, job: Job, key: Key, live: Json)
    requires Lands(disk, job) && Unjudged(disk, key)
    requires KeepsBaseValue(key) && RoleOf(disk, job, key) != Untouched
    requires CellOf(disk, key).live == Some(live) && !SomeUnread(disk.accounts, Roster(disk.accounts))
    requires !EditHolds(BeforeOf(job), key, live) && !SomeHolds(disk.accounts, Roster(disk.accounts), key, live)
    ensures UserValue(CellOf(AfterJob(disk, job, 3), key)) == Some(live)
  {
    AskedAreRostered(disk.accounts, BeforeOf(job));
    CarryExactlyWhen(disk.accounts, BeforeOf(job), job.prev, key, live);
    UserValueMovesExactlyWhenMisjudged(disk, job, key);
  }

  /** Nor one an outgoing account names with another value, whoever else carries it. */
  lemma MigrationKeepsAnEdit(disk: Disk, job: Job, key: Key, live: Json)
    requires Lands(disk, job) && Unjudged(disk, key)
    requires KeepsBaseValue(key) && RoleOf(disk, job, key) != Untouched
    requires CellOf(disk, key).live == Some(live) && !OutgoingHolds(disk, job, key, live)
    requires EditNames(BeforeOf(job), key) || SomeNames(disk.accounts, Asked(disk.accounts, BeforeOf(job)), key)
    ensures UserValue(CellOf(AfterJob(disk, job, 3), key)) == Some(live)
  {
    CarryExactlyWhen(disk.accounts, BeforeOf(job), job.prev, key, live);
    UserValueMovesExactlyWhenMisjudged(disk, job, key);
  }
}
