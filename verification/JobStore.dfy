/**
 * Claude Code's job stores as clauth reads them: what one directory entry says, what a whole store says
 * whatever order its entries come in, and the queries that decide what a sweep spares.
 */
module JobStore {
  import opened Wrappers

  /** A path by its components, so that one lies under another when that one is a prefix. */
  type Path = seq<string>

  /** A path's canonical form. */
  datatype Ident = Resolved(path: Path) | Gone | Unclear

  function Elements<T>(s: seq<T>): set<T> {
    set x | x in s
  }

  /* ---------- a job directory without a record ---------- */

  datatype DirContents = EmptyDir | FullDir | UnlistableDir

  datatype Kind = Directory(contents: DirContents) | RegularFile | OtherKind

  datatype Item = BadItem | Item(name: string, kind: Kind)

  datatype Listing = Unlistable | Items(items: seq<Item>)

  datatype Recordless = Removed | MidCreate | Unknown

  const TMP := "tmp"
  const EXIT_CAUSE := "exit-cause"
  const STAGED_RECORD := "state.json.tmp."

  predicate ItemFails(item: Item) {
    item.BadItem? || (item.name == TMP && item.kind == Directory(UnlistableDir))
  }

  predicate LeftoverItem(item: Item) {
    item.Item? && ((item.name == TMP && item.kind == Directory(EmptyDir))
                   || (item.name == EXIT_CAUSE && item.kind.RegularFile?))
  }

  predicate StagedItem(item: Item) {
    item.Item? && STAGED_RECORD <= item.name && item.kind.RegularFile?
  }

  /** What the directory is, off the set of its items; none where the list cannot be read. */
  function RecordlessKind(items: set<Item>): Option<Recordless> {
    if exists item :: item in items && ItemFails(item) then None
    else if items != {} && forall item :: item in items ==> LeftoverItem(item) then Some(Removed)
    else if forall item :: item in items ==> StagedItem(item) then Some(MidCreate)
    else Some(Unknown)
  }

  function RecordlessOf(listing: Listing): Option<Recordless> {
    if listing.Unlistable? then None else RecordlessKind(Elements(listing.items))
  }

  /* ---------- one entry of a store ---------- */

  /** A value after a settings flag: inline JSON, or a path. */
  datatype FlagValue = Inline | AtPath(path: Path)

  datatype Flags = NoFlags | Named(values: seq<FlagValue>) | UnknownFlags

  datatype JobState = JobState(configDir: Option<Path>, state: string, flags: Flags, sessionId: string)

  datatype JobRecord = NoRecord(listing: Listing) | BadRecord | Parsed(state: JobState)

  datatype Entry = BadEntry | NotDir | JobDir(id: Option<string>, record: JobRecord)

  const FINISHED_STATES := ["stopped", "done", "failed"]

  /** Whose store it is: none is the global one. A tree's own store counts records naming that tree
      alone, and an isolated tree's counts unfinished ones alone. */
  datatype Scope = Scope(owner: Option<Path>, isolated: bool)

  datatype Job = Job(
    tree: Path,
    finished: bool,
    id: Option<string>,
    sessionId: string,
    files: set<Path>,
    unknownFlags: bool)

  /** What an entry comes to. */
  datatype Seen = Fails | Nothing | Creating | OnHome(sessionId: string) | Names(job: Job)

  function FilesNamed(flags: Flags, identity: Path -> Ident): set<Path> {
    if !flags.Named? then {}
    else set value | value in flags.values && value.AtPath? && identity(value.path).Resolved? ::
           identity(value.path).path
  }

  predicate ValueUnclear(value: FlagValue, identity: Path -> Ident) {
    value.AtPath? && identity(value.path).Unclear?
  }

  predicate FlagsUnclear(flags: Flags, identity: Path -> Ident) {
    flags.UnknownFlags? || (flags.Named? && exists value :: value in flags.values && ValueUnclear(value, identity))
  }

  function SeeState(id: Option<string>, state: JobState, identity: Path -> Ident, scope: Scope): Seen {
    if state.configDir.None? then
      if state.sessionId == "" then Nothing else OnHome(state.sessionId)
    else
      match identity(state.configDir.value)
      case Gone => Nothing
      case Unclear => Fails
      case Resolved(tree) =>
        var finished := state.state in FINISHED_STATES;
        if (scope.owner.Some? && tree != scope.owner.value) || (scope.isolated && finished) then Nothing
        else Names(Job(tree, finished, id, state.sessionId, FilesNamed(state.flags, identity),
                       FlagsUnclear(state.flags, identity)))
  }

  function See(entry: Entry, identity: Path -> Ident, scope: Scope): Seen {
    match entry
    case BadEntry => Fails
    case NotDir => Nothing
    case JobDir(id, record) =>
      match record
      case BadRecord => Fails
      case Parsed(state) => SeeState(id, state, identity, scope)
      case NoRecord(listing) =>
        match RecordlessOf(listing)
        case Some(Removed) => Nothing
        case Some(MidCreate) => Creating
        case _ => Fails
  }

  /* ---------- a whole store, whatever the order of its entries ---------- */

  datatype Dir<E> = NoDir | CannotOpen | Listed(entries: E)

  function SeenIn(dir: Dir<set<Entry>>, identity: Path -> Ident, scope: Scope): set<Seen> {
    match dir
    case NoDir => {}
    case CannotOpen => {Fails}
    case Listed(entries) => set entry | entry in entries :: See(entry, identity, scope)
  }

  /** What sits at a runtime tree's `jobs`. */
  datatype AtJobs<E> = Absent | LinkedStore | OwnStore(dir: Dir<E>) | NotAStore | CannotStat

  datatype TreeStore<E> = TreeStore(tree: Path, isolated: bool, jobs: AtJobs<E>)

  datatype Walk<E> = CannotWalk(root: Path) | Walked(unreadable: seq<Path>, trees: seq<TreeStore<E>>)

  /** Everything one read goes over. The home directory may not be found. */
  datatype Stores<E> = Stores(home: bool, global: Dir<E>, walk: Walk<E>)

  /* ---------- what a read yields ---------- */

  datatype Sets = Sets(
    named: set<Path>,
    namedByJob: set<(Path, string)>,
    unfinished: set<Path>,
    unfinishedByJob: set<(Path, string)>,
    treeBySession: map<string, Path>,
    globalSessions: set<string>,
    namedSettings: set<Path>,
    unknownFlagsTrees: set<Path>)

  const NO_SETS := Sets({}, {}, {}, {}, map[], {}, {}, {})

  /** A store that could not be read (or was caught mid-create): every tree under `scope` is spared. */
  datatype UnreadableStore = UnreadableStore(scope: Path, store: Path, midCreate: bool)

  datatype JobTrees =
    | Unreadable(store: Path)
    | Snapshot(sets: Sets, unreadable: seq<UnreadableStore>, globalMidCreate: bool)

  /** What the queries below look at: the trees jobs name, the trees unfinished ones name, which job
      runs on which, and the scopes nothing is known of. */
  datatype Reading =
    | Blind
    | Sighted(named: set<Path>, unfinished: set<Path>, running: set<(Path, string)>,
              scopes: set<UnreadableStore>, midCreate: bool)

  function ReadingOf(trees: JobTrees): Reading {
    match trees
    case Unreadable(_) => Blind
    case Snapshot(sets, unreadable, midCreate) =>
      Sighted(sets.named, sets.unfinished, sets.unfinishedByJob, Elements(unreadable), midCreate)
  }

  predicate Under(path: Path, dir: Path) {
    dir <= path
  }

  /* ---------- the queries ---------- */

  predicate Affected(id: Path, scopes: set<UnreadableStore>) {
    exists store :: store in scopes && Under(id, store.scope)
  }

  predicate NamedOrAffected(path: Path, named: set<Path>, scopes: set<UnreadableStore>, identity: Path -> Ident) {
    match identity(path)
    case Resolved(id) => id in named || Affected(id, scopes)
    case Gone => false
    case Unclear => true
  }

  predicate HoldsScope(dir: Path, scopes: set<UnreadableStore>) {
    exists store :: store in scopes && Under(store.scope, dir)
  }

  predicate UnreadableUnder(dir: Path, scopes: set<UnreadableStore>, identity: Path -> Ident) {
    match identity(dir)
    case Resolved(id) => HoldsScope(id, scopes)
    case Gone => false
    case Unclear => true
  }

  predicate NamedUnder(named: set<Path>, dir: Path, identity: Path -> Ident) {
    named != {} &&
    match identity(dir)
    case Resolved(id) => exists path :: path in named && Under(path, id)
    case Gone => false
    case Unclear => true
  }

  predicate Spares(reading: Reading, tree: Path, identity: Path -> Ident) {
    if reading.Blind? || reading.midCreate then true
    else if reading.named == {} && reading.scopes == {} then false
    else NamedOrAffected(tree, reading.named, reading.scopes, identity)
  }

  predicate UnfinishedNames(reading: Reading, tree: Path, identity: Path -> Ident) {
    if reading.Blind? || reading.midCreate then true
    else if reading.unfinished == {} && reading.scopes == {} then false
    else NamedOrAffected(tree, reading.unfinished, reading.scopes, identity)
  }

  predicate SparesUnder(reading: Reading, dir: Path, identity: Path -> Ident) {
    || reading.Blind? || reading.midCreate
    || NamedUnder(reading.named, dir, identity)
    || UnreadableUnder(dir, reading.scopes, identity)
  }

  /** The unfinished trees under a directory; none where a store there could not be read. */
  function UnfinishedUnder(reading: Reading, dir: Path, identity: Path -> Ident): Option<set<Path>> {
    if reading.Blind? || reading.midCreate then None
    else
      match identity(dir)
      case Gone => Some({})
      case Unclear => None
      case Resolved(id) =>
        if HoldsScope(id, reading.scopes) then None
        else Some(set tree | tree in reading.unfinished && Under(tree, id))
  }

  predicate UnderFailure(tree: Path, scopes: set<UnreadableStore>) {
    exists store :: store in scopes && !store.midCreate && Under(tree, store.scope)
  }

  /** The jobs still running, with their trees, and whether a store that failed leaves some out. */
  function UnfinishedJobs(reading: Reading): Option<(set<(Path, string)>, bool)> {
    if reading.Blind? then None
    else Some((set job | job in reading.running && !UnderFailure(job.0, reading.scopes),
               exists store :: store in reading.scopes && !store.midCreate))
  }

  predicate HoldsCanonical(paths: set<Path>, path: Path, identity: Path -> Ident) {
    match identity(path)
    case Resolved(id) => id in paths
    case Gone => false
    case Unclear => true
  }

  /** A settings file is spared while a job was started with it, and, for the trees that own it, while one there was
      started with flags nobody can tell, or what is there could not be read. */
  predicate SparesSettings(trees: JobTrees, file: Path, own: seq<Path>, identity: Path -> Ident) {
    match trees
    case Unreadable(_) => true
    case Snapshot(sets, unreadable, midCreate) =>
      if midCreate then true
      else if sets.namedSettings == {} && sets.unknownFlagsTrees == {} && unreadable == [] then false
      else
        || HoldsCanonical(sets.namedSettings, file, identity)
        || (exists tree :: tree in own && HoldsCanonical(sets.unknownFlagsTrees, tree, identity))
        || (exists tree :: tree in own && NamedOrAffected(tree, {}, Elements(unreadable), identity))
  }

  /* ---------- what a read does, entry by entry ---------- */

  function WithJob(sets: Sets, job: Job): Sets {
    var pair := if job.id.Some? then {(job.tree, job.id.value)} else {};
    Sets(
      sets.named + {job.tree},
      sets.namedByJob + pair,
      if job.finished then sets.unfinished else sets.unfinished + {job.tree},
      if job.finished then sets.unfinishedByJob else sets.unfinishedByJob + pair,
      if job.sessionId == "" then sets.treeBySession else sets.treeBySession[job.sessionId := job.tree],
      sets.globalSessions,
      sets.namedSettings + job.files,
      if job.unknownFlags then sets.unknownFlagsTrees + {job.tree} else sets.unknownFlagsTrees)
  }

  function WithSeen(sets: Sets, seen: Seen): Sets {
    match seen
    case Names(job) => WithJob(sets, job)
    case OnHome(sessionId) => sets.(globalSessions := sets.globalSessions + {sessionId})
    case _ => sets
  }

  /** The sets once the entries are gone through, up to the first that fails. */
  function Gathered(sets: Sets, entries: seq<Entry>, identity: Path -> Ident, scope: Scope): Sets
    decreases |entries|
  {
    if entries == [] || See(entries[0], identity, scope).Fails? then sets
    else Gathered(WithSeen(sets, See(entries[0], identity, scope)), entries[1..], identity, scope)
  }

  function EntriesOf(dir: Dir<seq<Entry>>): seq<Entry> {
    if dir.Listed? then dir.entries else []
  }

  function Unordered(dir: Dir<seq<Entry>>): Dir<set<Entry>> {
    match dir
    case NoDir => NoDir
    case CannotOpen => CannotOpen
    case Listed(entries) => Listed(Elements(entries))
  }

  /** Whether a store was caught mid-create; none where it failed. */
  function Verdict(seen: set<Seen>): Option<bool> {
    if Fails in seen then None else Some(Creating in seen)
  }

  /** The scope a failure in `tree` covers; none once the tree is gone. */
  function ScopeOf(tree: Path, identity: Path -> Ident): Option<Path> {
    match identity(tree)
    case Resolved(id) => Some(id)
    case Gone => None
    case Unclear => Some(tree)
  }

  function Recorded(tree: Path, store: Path, midCreate: bool, identity: Path -> Ident): seq<UnreadableStore> {
    var scope := ScopeOf(tree, identity);
    if scope.Some? then [UnreadableStore(scope.value, store, midCreate)] else []
  }

  function JobsOf(tree: Path): Path {
    tree + ["jobs"]
  }

  /** What one tree adds to the unreadable stores. */
  function TreeRecord(tree: Path, jobs: AtJobs<set<Entry>>, isolated: bool, identity: Path -> Ident): seq<UnreadableStore> {
    match jobs
    case Absent => []
    case LinkedStore => []
    case NotAStore => Recorded(tree, JobsOf(tree), false, identity)
    case CannotStat => Recorded(tree, JobsOf(tree), false, identity)
    case OwnStore(dir) =>
      var owner := ScopeOf(tree, identity);
      if owner.None? then []
      else match Verdict(SeenIn(dir, identity, Scope(owner, isolated)))
        case Some(false) => []
        case Some(true) => Recorded(tree, JobsOf(tree), true, identity)
        case None => Recorded(tree, JobsOf(tree), false, identity)
  }

  function UnorderedJobs(jobs: AtJobs<seq<Entry>>): AtJobs<set<Entry>> {
    match jobs
    case Absent => Absent
    case LinkedStore => LinkedStore
    case NotAStore => NotAStore
    case CannotStat => CannotStat
    case OwnStore(dir) => OwnStore(Unordered(dir))
  }

  function RecordOf(store: TreeStore<seq<Entry>>, identity: Path -> Ident): seq<UnreadableStore> {
    TreeRecord(store.tree, UnorderedJobs(store.jobs), store.isolated, identity)
  }

  /** The sets after one tree's own store, if it has one. */
  function TreeSets(sets: Sets, store: TreeStore<seq<Entry>>, identity: Path -> Ident): Sets {
    var owner := ScopeOf(store.tree, identity);
    if store.jobs.OwnStore? && owner.Some?
    then Gathered(sets, EntriesOf(store.jobs.dir), identity, Scope(owner, store.isolated))
    else sets
  }

  function AllTreeSets(sets: Sets, trees: seq<TreeStore<seq<Entry>>>, identity: Path -> Ident): Sets
    decreases |trees|
  {
    if trees == [] then sets else AllTreeSets(TreeSets(sets, trees[0], identity), trees[1..], identity)
  }

  function AllTreeRecords(trees: seq<TreeStore<seq<Entry>>>, identity: Path -> Ident): seq<UnreadableStore>
    decreases |trees|
  {
    if trees == [] then [] else RecordOf(trees[0], identity) + AllTreeRecords(trees[1..], identity)
  }

  function ProfileRecords(profiles: seq<Path>, identity: Path -> Ident): seq<UnreadableStore>
    decreases |profiles|
  {
    if profiles == [] then []
    else Recorded(profiles[0], profiles[0], false, identity) + ProfileRecords(profiles[1..], identity)
  }

  const GLOBAL_STORE := ["~", ".claude", "jobs"]
  const GLOBAL := Scope(None, false)

  /** One read of every store. */
  function JobTreesOf(stores: Stores<seq<Entry>>, identity: Path -> Ident): JobTrees {
    var seen := SeenIn(Unordered(stores.global), identity, GLOBAL);
    if !stores.home || Verdict(seen).None? then Unreadable(GLOBAL_STORE)
    else if stores.walk.CannotWalk? then Unreadable(stores.walk.root)
    else
      Snapshot(
        AllTreeSets(Gathered(NO_SETS, EntriesOf(stores.global), identity, GLOBAL), stores.walk.trees, identity),
        ProfileRecords(stores.walk.unreadable, identity) + AllTreeRecords(stores.walk.trees, identity),
        Verdict(seen).value)
  }
}
