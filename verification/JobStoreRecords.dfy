/** What one job's record does to the answers, told by the record's own fields: where it lies, the
    configuration directory it names, the state it is in and the settings files it was started with. */
module JobStoreRecords {
  import opened Wrappers
  import opened JobStore
  import opened JobStoreTheorems

  /* ---------- an entry's own fields ---------- */

  /** A job directory whose record names a configuration directory that resolves to `id`. */
  predicate Records(entry: Entry, id: Path, identity: Path -> Ident) {
    && entry.JobDir? && entry.record.Parsed? && entry.record.state.configDir.Some?
    && identity(entry.record.state.configDir.value) == Resolved(id)
  }

  /** Its job is in none of the three states Claude Code ends in. */
  predicate StillRuns(entry: Entry) {
    && entry.JobDir? && entry.record.Parsed?
    && entry.record.state.state != "stopped" && entry.record.state.state != "done"
    && entry.record.state.state != "failed"
  }

  /** The store of the tree `id`, whether its path resolves there or is that path and cannot be told. */
  predicate StoreOf(store: TreeStore<seq<Entry>>, id: Path, identity: Path -> Ident) {
    && store.jobs.OwnStore? && store.jobs.dir.Listed?
    && (identity(store.tree) == Resolved(id) || (identity(store.tree).Unclear? && store.tree == id))
  }

  lemma SeenByFields(entry: Entry, id: Path, identity: Path -> Ident, scope: Scope)
    requires Records(entry, id, identity) && (scope.owner.None? || scope.owner == Some(id))
    requires !scope.isolated || StillRuns(entry)
    ensures var seen := See(entry, identity, scope);
      && seen.Names? && seen.job.tree == id && seen.job.finished == !StillRuns(entry) && seen.job.id == entry.id
  {}

  /* ---------- a record that counts is answered for ---------- */

  /** Every query answers for the tree `id`, on which job `job` is (and still runs, if `runs`). */
  ghost predicate AnsweredFor(read: Reading, id: Path, job: Option<string>, runs: bool, identity: Path -> Ident) {
    && (forall tree :: identity(tree) == Resolved(id) ==>
          Spares(read, tree, identity) && (runs ==> UnfinishedNames(read, tree, identity)))
    && (forall dir :: identity(dir).Resolved? && Under(id, identity(dir).path) ==>
          && SparesUnder(read, dir, identity)
          && (runs ==> var under := UnfinishedUnder(read, dir, identity); under.None? || id in under.value))
    && (runs && job.Some? ==>
          var jobs := UnfinishedJobs(read); jobs.None? || (id, job.value) in jobs.value.0 || jobs.value.1)
  }

  lemma KnownIsAnsweredFor(read: Reading, id: Path, job: Option<string>, runs: bool, identity: Path -> Ident)
    requires read.Sighted? && !Failed(id, read.scopes) ==>
      && id in read.named && (runs ==> id in read.unfinished)
      && (runs && job.Some? ==> (id, job.value) in read.running)
    ensures AnsweredFor(read, id, job, runs, identity)
  {
    if read.Sighted? && Failed(id, read.scopes) {
      FailedIsAffected(id, read.scopes);
    }
  }

  /** What is known is what a read answers. */
  lemma ReadAnswersFor(stores: Stores<seq<Entry>>, id: Path, job: Option<string>, runs: bool, identity: Path -> Ident)
    requires AnsweredFor(Known(Forget(stores), identity), id, job, runs, identity)
    ensures AnsweredFor(ReadingOf(JobTreesOf(stores, identity)), id, job, runs, identity)
  {
    var read, known := ReadingOf(JobTreesOf(stores, identity)), Known(Forget(stores), identity);
    forall path
      ensures Spares(read, path, identity) == Spares(known, path, identity)
      ensures UnfinishedNames(read, path, identity) == UnfinishedNames(known, path, identity)
      ensures SparesUnder(read, path, identity) == SparesUnder(known, path, identity)
      ensures UnfinishedUnder(read, path, identity) == UnfinishedUnder(known, path, identity)
    {
      SparesWhateverTheOrder(stores, path, identity);
      SparesUnderWhateverTheOrder(stores, path, identity);
    }
    UnfinishedJobsWhateverTheOrder(stores, identity);
  }

  /** A record of the global store is answered for whatever its job's state, and while its job runs the
      tree is one an unfinished job holds. */
  lemma GlobalRecordCounts(stores: Stores<seq<Entry>>, entry: Entry, id: Path, identity: Path -> Ident)
    requires stores.global.Listed? && entry in stores.global.entries && Records(entry, id, identity)
    ensures AnsweredFor(ReadingOf(JobTreesOf(stores, identity)), id, entry.id, StillRuns(entry), identity)
  {
    var known, seen := Known(Forget(stores), identity), See(entry, identity, GLOBAL);
    SeenByFields(entry, id, identity, GLOBAL);
    assert entry in Elements(stores.global.entries);
    assert seen in SeenIn(Unordered(stores.global), identity, GLOBAL);
    KnownIsAnsweredFor(known, id, entry.id, StillRuns(entry), identity);
    ReadAnswersFor(stores, id, entry.id, StillRuns(entry), identity);
  }

  /** So is a record of a tree's own store that names that tree, unless the tree is isolated and the job
      has ended. */
  lemma OwnRecordCounts(stores: Stores<seq<Entry>>, store: TreeStore<seq<Entry>>, entry: Entry, id: Path,
                        identity: Path -> Ident)
    requires stores.walk.Walked? && store in stores.walk.trees && StoreOf(store, id, identity)
    requires entry in store.jobs.dir.entries && Records(entry, id, identity)
    requires !store.isolated || StillRuns(entry)
    ensures AnsweredFor(ReadingOf(JobTreesOf(stores, identity)), id, entry.id, StillRuns(entry), identity)
  {
    var scope := Scope(Some(id), store.isolated);
    var known, seen := Known(Forget(stores), identity), See(entry, identity, scope);
    SeenByFields(entry, id, identity, scope);
    if known.Sighted? {
      var listed, trees := UnorderedTree(store), UnorderedTrees(stores.walk.trees);
      assert listed in trees;
      assert entry in Elements(store.jobs.dir.entries);
      assert seen in SeenIn(listed.jobs.dir, identity, scope);
      if Fails in SeenIn(listed.jobs.dir, identity, scope) {
        var failure := UnreadableStore(id, JobsOf(store.tree), false);
        assert failure in TreeRecord(listed.tree, listed.jobs, listed.isolated, identity);
        assert failure in TreeScopes(trees, identity);
      } else {
        assert seen in CleanSeen(listed, identity);
        assert seen in AllCleanSeen(trees, identity);
      }
    }
    KnownIsAnsweredFor(known, id, entry.id, StillRuns(entry), identity);
    ReadAnswersFor(stores, id, entry.id, StillRuns(entry), identity);
  }

  /* ---------- and nothing else is ---------- */

  /** What a removed job leaves: an empty `tmp`, a regular `exit-cause`, or both, and nothing else. */
  predicate RemovedJob(listing: Listing) {
    && listing.Items? && listing.items != []
    && forall item :: item in listing.items ==>
         item.Item? && (|| (item.name == "tmp" && item.kind == Directory(EmptyDir))
                        || (item.name == "exit-cause" && item.kind == RegularFile))
  }

  /** An entry that says all there is to say: no failure and no creation caught in the middle. */
  predicate Plain(entry: Entry, identity: Path -> Ident) {
    || entry.NotDir?
    || (entry.JobDir? && entry.record.Parsed?
        && (entry.record.state.configDir.None? || !identity(entry.record.state.configDir.value).Unclear?))
    || (entry.JobDir? && entry.record.NoRecord? && RemovedJob(entry.record.listing))
  }

  predicate PlainDir(dir: Dir<seq<Entry>>, identity: Path -> Ident) {
    dir.NoDir? || (dir.Listed? && forall entry :: entry in dir.entries ==> Plain(entry, identity))
  }

  predicate PlainTree(store: TreeStore<seq<Entry>>, identity: Path -> Ident) {
    || identity(store.tree).Gone? || store.jobs.Absent? || store.jobs.LinkedStore?
    || (store.jobs.OwnStore? && PlainDir(store.jobs.dir, identity))
  }

  /** Every store reads whole. */
  predicate AllPlain(stores: Stores<seq<Entry>>, identity: Path -> Ident) {
    && stores.home && PlainDir(stores.global, identity) && stores.walk.Walked?
    && (forall profile :: profile in stores.walk.unreadable ==> identity(profile).Gone?)
    && (forall store :: store in stores.walk.trees ==> PlainTree(store, identity))
  }

  /** The entry is in a store that counts it for the tree `id`: the global one, or the tree's own, which
      counts jobs still running alone where the tree is isolated. */
  predicate Counts(stores: Stores<seq<Entry>>, entry: Entry, id: Path, identity: Path -> Ident) {
    Records(entry, id, identity) &&
    (|| (stores.global.Listed? && entry in stores.global.entries)
     || (stores.walk.Walked? && exists store :: store in stores.walk.trees && CountsIn(store, entry, id, identity)))
  }

  predicate CountsIn(store: TreeStore<seq<Entry>>, entry: Entry, id: Path, identity: Path -> Ident) {
    StoreOf(store, id, identity) && entry in store.jobs.dir.entries && (store.isolated ==> StillRuns(entry))
  }

  lemma PlainDirSees(dir: Dir<seq<Entry>>, identity: Path -> Ident, scope: Scope)
    requires PlainDir(dir, identity)
    ensures var seen := SeenIn(Unordered(dir), identity, scope); Fails !in seen && Creating !in seen
  {
    forall listing | RemovedJob(listing) ensures RecordlessOf(listing) == Some(Removed) {
      RemovedIsSeen(listing);
    }
  }

  lemma RemovedIsSeen(listing: Listing)
    ensures RecordlessOf(listing) == Some(Removed) <==> RemovedJob(listing)
  {
    if listing.Items? {
      forall item | item in listing.items ensures item in Elements(listing.items) {}
      if listing.items != [] {
        assert listing.items[0] in Elements(listing.items);
      }
    }
  }

  /** All that a read of the stores sees. */
  function AllSeen(stores: Stores<seq<Entry>>, identity: Path -> Ident): set<Seen>
    requires stores.walk.Walked?
  {
    SeenIn(Unordered(stores.global), identity, GLOBAL) + AllCleanSeen(UnorderedTrees(stores.walk.trees), identity)
  }

  lemma PlainStoresSee(stores: Stores<seq<Entry>>, identity: Path -> Ident)
    requires AllPlain(stores, identity)
    ensures var known, seen := Known(Forget(stores), identity), AllSeen(stores, identity);
      && known.Sighted? && known.scopes == {} && !known.midCreate
      && known.named == NamedBy(seen) && known.unfinished == UnfinishedBy(seen)
  {
    PlainDirSees(stores.global, identity, GLOBAL);
    forall store | store in stores.walk.trees ensures RecordOf(store, identity) == [] {
      if store.jobs.OwnStore? && ScopeOf(store.tree, identity).Some? {
        PlainDirSees(store.jobs.dir, identity, Scope(ScopeOf(store.tree, identity), store.isolated));
      }
    }
    assert TreeScopes(UnorderedTrees(stores.walk.trees), identity) == {};
    assert ProfileScopes(Elements(stores.walk.unreadable), identity) == {};
  }

  lemma CountedIsSeen(stores: Stores<seq<Entry>>, entry: Entry, id: Path, identity: Path -> Ident)
    requires AllPlain(stores, identity) && Counts(stores, entry, id, identity)
    ensures See(entry, identity, GLOBAL) in AllSeen(stores, identity)
  {
    if stores.global.Listed? && entry in stores.global.entries {
      assert entry in Elements(stores.global.entries);
    } else {
      var store :| store in stores.walk.trees && CountsIn(store, entry, id, identity);
      var listed, scope := UnorderedTree(store), Scope(Some(id), store.isolated);
      PlainDirSees(store.jobs.dir, identity, scope);
      assert listed in UnorderedTrees(stores.walk.trees);
      assert entry in Elements(store.jobs.dir.entries);
      assert See(entry, identity, scope) in CleanSeen(listed, identity);
    }
  }

  lemma SeenIsCounted(stores: Stores<seq<Entry>>, seen: Seen, identity: Path -> Ident) returns (entry: Entry)
    requires AllPlain(stores, identity) && seen in AllSeen(stores, identity) && seen.Names?
    ensures Counts(stores, entry, seen.job.tree, identity) && See(entry, identity, GLOBAL) == seen
  {
    if seen in SeenIn(Unordered(stores.global), identity, GLOBAL) {
      entry :| entry in stores.global.entries && See(entry, identity, GLOBAL) == seen;
      assert Records(entry, seen.job.tree, identity);
    } else {
      var store :| store in stores.walk.trees && seen in CleanSeen(UnorderedTree(store), identity);
      var scope := Scope(ScopeOf(store.tree, identity), store.isolated);
      entry :| entry in store.jobs.dir.entries && See(entry, identity, scope) == seen;
      assert CountsIn(store, entry, seen.job.tree, identity);
    }
  }

  /** A job holds `id`: one still running, if `runningOnly`. */
  ghost predicate Held(stores: Stores<seq<Entry>>, id: Path, runningOnly: bool, identity: Path -> Ident) {
    exists entry :: Counts(stores, entry, id, identity) && (runningOnly ==> StillRuns(entry))
  }

  lemma HeldIsKnown(stores: Stores<seq<Entry>>, id: Path, identity: Path -> Ident)
    requires AllPlain(stores, identity)
    ensures var known := Known(Forget(stores), identity);
      && known.Sighted?
      && (id in known.named <==> Held(stores, id, false, identity))
      && (id in known.unfinished <==> Held(stores, id, true, identity))
  {
    PlainStoresSee(stores, identity);
    forall entry | Counts(stores, entry, id, identity)
      ensures See(entry, identity, GLOBAL) in AllSeen(stores, identity)
    {
      CountedIsSeen(stores, entry, id, identity);
    }
    forall seen | seen in AllSeen(stores, identity) && seen.Names? && seen.job.tree == id
      ensures exists entry :: Counts(stores, entry, id, identity) && See(entry, identity, GLOBAL) == seen
    {
      var entry := SeenIsCounted(stores, seen, identity);
    }
  }

  /** Where every store reads whole, a tree is spared exactly when a job in the global store records it
      or one in its own store does, still running if the tree is isolated. An unfinished job holds it when such
      a job still runs. A tree whose path cannot be told is spared while any tree is. */
  lemma SparesExactlyWhen(stores: Stores<seq<Entry>>, tree: Path, identity: Path -> Ident)
    requires AllPlain(stores, identity)
    ensures var read := ReadingOf(JobTreesOf(stores, identity));
      match identity(tree)
      case Gone => !Spares(read, tree, identity) && !UnfinishedNames(read, tree, identity)
      case Resolved(id) =>
        && (Spares(read, tree, identity) <==> Held(stores, id, false, identity))
        && (UnfinishedNames(read, tree, identity) <==> Held(stores, id, true, identity))
      case Unclear =>
        && (Spares(read, tree, identity) <==> exists id :: Held(stores, id, false, identity))
        && (UnfinishedNames(read, tree, identity) <==> exists id :: Held(stores, id, true, identity))
  {
    var known := Known(Forget(stores), identity);
    SparesWhateverTheOrder(stores, tree, identity);
    PlainStoresSee(stores, identity);
    forall id
      ensures id in known.named <==> Held(stores, id, false, identity)
      ensures id in known.unfinished <==> Held(stores, id, true, identity)
    {
      HeldIsKnown(stores, id, identity);
    }
  }

  /** So is a directory one such tree lies under, whose unfinished trees are exactly those a running job
      holds. */
  lemma UnderExactlyWhen(stores: Stores<seq<Entry>>, dir: Path, identity: Path -> Ident)
    requires AllPlain(stores, identity) && identity(dir).Resolved?
    ensures var read, above := ReadingOf(JobTreesOf(stores, identity)), identity(dir).path;
      && (SparesUnder(read, dir, identity) <==> exists id :: Under(id, above) && Held(stores, id, false, identity))
      && UnfinishedUnder(read, dir, identity).Some?
      && (forall id :: id in UnfinishedUnder(read, dir, identity).value <==>
            Under(id, above) && Held(stores, id, true, identity))
  {
    var known := Known(Forget(stores), identity);
    SparesUnderWhateverTheOrder(stores, dir, identity);
    PlainStoresSee(stores, identity);
    forall id
      ensures id in known.named <==> Held(stores, id, false, identity)
      ensures id in known.unfinished <==> Held(stores, id, true, identity)
    {
      HeldIsKnown(stores, id, identity);
    }
  }

  /* ---------- what is filed under a tree ---------- */

  /** The settings files a read finds named, the jobs on each tree, and the trees whose flags cannot be told. */
  datatype Filed = Filed(jobs: set<(Path, string)>, settings: set<Path>, unclear: set<Path>)

  function FiledIn(sets: Sets): Filed {
    Filed(sets.namedByJob, sets.namedSettings, sets.unknownFlagsTrees)
  }

  function FiledBy(seen: set<Seen>): Filed {
    Filed(set s | s in seen && s.Names? && s.job.id.Some? :: (s.job.tree, s.job.id.value),
          set s, file | s in seen && s.Names? && file in s.job.files :: file,
          set s | s in seen && s.Names? && s.job.unknownFlags :: s.job.tree)
  }

  function Both(one: Filed, other: Filed): Filed {
    Filed(one.jobs + other.jobs, one.settings + other.settings, one.unclear + other.unclear)
  }

  lemma BothAgain(filed: Filed, one: set<Seen>, other: set<Seen>)
    ensures Both(Both(filed, FiledBy(one)), FiledBy(other)) == Both(filed, FiledBy(one + other))
  {}

  lemma OneMoreFiled(sets: Sets, seen: Seen)
    ensures FiledIn(WithSeen(sets, seen)) == Both(FiledIn(sets), FiledBy({seen}))
  {}

  lemma NoneFiled(filed: Filed)
    ensures Both(filed, FiledBy({})) == filed && Both(FiledIn(NO_SETS), filed) == filed
  {}

  lemma {:induction false} GatheredFiles(sets: Sets, entries: seq<Entry>, identity: Path -> Ident, scope: Scope)
    requires Fails !in SeenIn(Listed(Elements(entries)), identity, scope)
    ensures FiledIn(Gathered(sets, entries, identity, scope)) ==
      Both(FiledIn(sets), FiledBy(SeenIn(Listed(Elements(entries)), identity, scope)))
    decreases |entries|
  {
    if entries == [] {
      NoneFiled(FiledIn(sets));
      assert SeenIn(Listed(Elements(entries)), identity, scope) == {};
    } else {
      var first := See(entries[0], identity, scope);
      var rest := SeenIn(Listed(Elements(entries[1..])), identity, scope);
      assert Elements(entries) == {entries[0]} + Elements(entries[1..]);
      assert SeenIn(Listed(Elements(entries)), identity, scope) == {first} + rest;
      GatheredFiles(WithSeen(sets, first), entries[1..], identity, scope);
      OneMoreFiled(sets, first);
      BothAgain(FiledIn(sets), {first}, rest);
    }
  }

  lemma {:induction false} AllTreesFile(sets: Sets, trees: seq<TreeStore<seq<Entry>>>, identity: Path -> Ident)
    requires forall store :: store in trees ==> PlainTree(store, identity)
    ensures FiledIn(AllTreeSets(sets, trees, identity)) ==
      Both(FiledIn(sets), FiledBy(AllCleanSeen(UnorderedTrees(trees), identity)))
    decreases |trees|
  {
    if trees == [] {
      assert AllCleanSeen({}, identity) == {} && UnorderedTrees(trees) == {};
      NoneFiled(FiledIn(sets));
    } else {
      var first, rest := trees[0], trees[1..];
      var seen := CleanSeen(UnorderedTree(first), identity);
      TreeFiles(sets, first, identity);
      AllTreesFile(TreeSets(sets, first, identity), rest, identity);
      assert UnorderedTrees(trees) == {UnorderedTree(first)} + UnorderedTrees(rest);
      assert AllCleanSeen(UnorderedTrees(trees), identity) == seen + AllCleanSeen(UnorderedTrees(rest), identity);
      BothAgain(FiledIn(sets), seen, AllCleanSeen(UnorderedTrees(rest), identity));
    }
  }

  lemma TreeFiles(sets: Sets, store: TreeStore<seq<Entry>>, identity: Path -> Ident)
    requires PlainTree(store, identity)
    ensures FiledIn(TreeSets(sets, store, identity)) ==
      Both(FiledIn(sets), FiledBy(CleanSeen(UnorderedTree(store), identity)))
  {
    var owner := ScopeOf(store.tree, identity);
    NoneFiled(FiledIn(sets));
    if store.jobs.OwnStore? && owner.Some? {
      var scope, entries := Scope(owner, store.isolated), EntriesOf(store.jobs.dir);
      PlainDirSees(store.jobs.dir, identity, scope);
      assert SeenIn(Listed(Elements(entries)), identity, scope) == SeenIn(Unordered(store.jobs.dir), identity, scope);
      GatheredFiles(sets, entries, identity, scope);
    }
  }

  /** The record was started with a settings file that resolves to `file`. */
  predicate StartedWith(entry: Entry, file: Path, identity: Path -> Ident)
    requires entry.JobDir? && entry.record.Parsed?
  {
    var flags := entry.record.state.flags;
    flags.Named? && exists value :: value in flags.values && value.AtPath? && identity(value.path) == Resolved(file)
  }

  /** What it was started with cannot be told. */
  predicate StartUnclear(entry: Entry, identity: Path -> Ident)
    requires entry.JobDir? && entry.record.Parsed?
  {
    var flags := entry.record.state.flags;
    flags.UnknownFlags? ||
    (flags.Named? && exists value :: value in flags.values && value.AtPath? && identity(value.path).Unclear?)
  }

  /** Where every store reads whole, a read files under each tree exactly the jobs that count for it, names
      exactly the settings files they were started with, and marks exactly the trees of those it cannot tell. */
  lemma FiledExactlyWhen(stores: Stores<seq<Entry>>, identity: Path -> Ident)
    requires AllPlain(stores, identity)
    ensures JobTreesOf(stores, identity).Snapshot?
    ensures var sets := JobTreesOf(stores, identity).sets;
      && (forall id, job :: (id, job) in sets.namedByJob <==>
            exists entry :: Counts(stores, entry, id, identity) && entry.id == Some(job))
      && (forall file :: file in sets.namedSettings <==>
            exists entry, id :: Counts(stores, entry, id, identity) && StartedWith(entry, file, identity))
      && (forall id :: id in sets.unknownFlagsTrees <==>
            exists entry :: Counts(stores, entry, id, identity) && StartUnclear(entry, identity))
  {
    var entries, trees := EntriesOf(stores.global), stores.walk.trees;
    var seen := SeenIn(Unordered(stores.global), identity, GLOBAL);
    PlainDirSees(stores.global, identity, GLOBAL);
    assert SeenIn(Listed(Elements(entries)), identity, GLOBAL) == seen;
    GatheredFiles(NO_SETS, entries, identity, GLOBAL);
    AllTreesFile(Gathered(NO_SETS, entries, identity, GLOBAL), trees, identity);
    BothAgain(FiledIn(NO_SETS), seen, AllCleanSeen(UnorderedTrees(trees), identity));
    NoneFiled(FiledBy(AllSeen(stores, identity)));
    assert FiledIn(JobTreesOf(stores, identity).sets) == FiledBy(AllSeen(stores, identity));
    FiledByCounted(stores, identity);
  }

  lemma FiledByCounted(stores: Stores<seq<Entry>>, identity: Path -> Ident)
    requires AllPlain(stores, identity)
    ensures var filed := FiledBy(AllSeen(stores, identity));
      && (forall id, job :: (id, job) in filed.jobs <==>
            exists entry :: Counts(stores, entry, id, identity) && entry.id == Some(job))
      && (forall file :: file in filed.settings <==>
            exists entry, id :: Counts(stores, entry, id, identity) && StartedWith(entry, file, identity))
      && (forall id :: id in filed.unclear <==>
            exists entry :: Counts(stores, entry, id, identity) && StartUnclear(entry, identity))
  {
    forall entry, id | Counts(stores, entry, id, identity)
      ensures See(entry, identity, GLOBAL) in AllSeen(stores, identity)
    {
      CountedIsSeen(stores, entry, id, identity);
    }
    forall seen | seen in AllSeen(stores, identity) && seen.Names?
      ensures exists entry :: Counts(stores, entry, seen.job.tree, identity) && See(entry, identity, GLOBAL) == seen
    {
      var entry := SeenIsCounted(stores, seen, identity);
    }
    forall file {:trigger file in FiledBy(AllSeen(stores, identity)).settings}
      ensures file in FiledBy(AllSeen(stores, identity)).settings <==>
        exists entry, id :: Counts(stores, entry, id, identity) && StartedWith(entry, file, identity)
    {
      SettingsByCounted(stores, file, identity);
    }
  }

  lemma SettingsByCounted(stores: Stores<seq<Entry>>, file: Path, identity: Path -> Ident)
    requires AllPlain(stores, identity)
    ensures file in FiledBy(AllSeen(stores, identity)).settings <==>
      exists entry, id :: Counts(stores, entry, id, identity) && StartedWith(entry, file, identity)
  {
    if file in FiledBy(AllSeen(stores, identity)).settings {
      var seen :| seen in AllSeen(stores, identity) && seen.Names? && file in seen.job.files;
      var entry := SeenIsCounted(stores, seen, identity);
      assert StartedWith(entry, file, identity);
    }
    if entry, id :| Counts(stores, entry, id, identity) && StartedWith(entry, file, identity) {
      CountedIsSeen(stores, entry, id, identity);
      assert file in See(entry, identity, GLOBAL).job.files;
    }
  }

  /** There a settings file whose path can be told is spared exactly when a job that counts was started with it,
      or one that counts for a tree that owns the file was started with flags nobody can tell. */
  lemma SparesSettingsExactlyWhen(stores: Stores<seq<Entry>>, file: Path, own: seq<Path>, identity: Path -> Ident)
    requires AllPlain(stores, identity) && !identity(file).Unclear?
    requires forall tree :: tree in own ==> !identity(tree).Unclear?
    ensures SparesSettings(JobTreesOf(stores, identity), file, own, identity) <==>
      || (identity(file).Resolved?
          && exists entry, id :: Counts(stores, entry, id, identity)
                                 && StartedWith(entry, identity(file).path, identity))
      || (exists tree, entry :: tree in own && identity(tree).Resolved?
                                && Counts(stores, entry, identity(tree).path, identity)
                                && StartUnclear(entry, identity))
  {
    FiledExactlyWhen(stores, identity);
    PlainStoresSee(stores, identity);
    ReadIsClose(stores, identity);
    var trees := JobTreesOf(stores, identity);
    FirstIsAnElement(trees.unreadable);
    SettingsSpared(trees, file, own, identity);
    if identity(file).Resolved? {
      assert identity(file).path in trees.sets.namedSettings <==>
        exists entry, id :: Counts(stores, entry, id, identity) && StartedWith(entry, identity(file).path, identity);
    }
    forall tree | tree in own && identity(tree).Resolved?
      ensures identity(tree).path in trees.sets.unknownFlagsTrees <==>
        exists entry :: Counts(stores, entry, identity(tree).path, identity) && StartUnclear(entry, identity)
    {}
  }

  lemma FirstIsAnElement<T>(s: seq<T>)
    ensures s != [] ==> s[0] in Elements(s)
  {}

  lemma SettingsSpared(trees: JobTrees, file: Path, own: seq<Path>, identity: Path -> Ident)
    requires trees.Snapshot? && trees.unreadable == [] && !trees.globalMidCreate
    requires !identity(file).Unclear? && forall tree :: tree in own ==> !identity(tree).Unclear?
    ensures SparesSettings(trees, file, own, identity) <==>
      || (identity(file).Resolved? && identity(file).path in trees.sets.namedSettings)
      || (exists tree :: tree in own && identity(tree).Resolved? && identity(tree).path in trees.sets.unknownFlagsTrees)
  {}

  /* ---------- a finished record in an isolated tree's store ---------- */

  /** The tree's own store with one more entry. */
  function OneMore(store: TreeStore<seq<Entry>>, entry: Entry): TreeStore<seq<Entry>>
    requires store.jobs.OwnStore? && store.jobs.dir.Listed?
  {
    store.(jobs := OwnStore(Listed(store.jobs.dir.entries + [entry])))
  }

  lemma EndedIsNothing(store: TreeStore<seq<Entry>>, entry: Entry, identity: Path -> Ident)
    requires store.isolated && store.jobs.OwnStore? && store.jobs.dir.Listed?
    requires entry.JobDir? && entry.record.Parsed? && entry.record.state.configDir.Some? && !StillRuns(entry)
    requires !identity(entry.record.state.configDir.value).Unclear?
    ensures RecordOf(OneMore(store, entry), identity) == RecordOf(store, identity)
    ensures forall seen :: seen != Nothing ==>
      (seen in CleanSeen(UnorderedTree(OneMore(store, entry)), identity) <==>
       seen in CleanSeen(UnorderedTree(store), identity))
  {
    var owner := ScopeOf(store.tree, identity);
    if owner.Some? {
      var scope := Scope(owner, true);
      var entries := store.jobs.dir.entries;
      assert Elements(entries + [entry]) == Elements(entries) + {entry};
      assert See(entry, identity, scope) == Nothing;
      assert SeenIn(Listed(Elements(entries) + {entry}), identity, scope) ==
        SeenIn(Listed(Elements(entries)), identity, scope) + {Nothing};
    }
  }

  /** Stores alike in all but what says nothing are known alike. */
  lemma KnownAlike(stores: Stores<seq<Entry>>, k: nat, store: TreeStore<seq<Entry>>, identity: Path -> Ident)
    requires stores.walk.Walked? && k < |stores.walk.trees|
    requires RecordOf(store, identity) == RecordOf(stores.walk.trees[k], identity)
    requires forall seen :: seen != Nothing ==>
      (seen in CleanSeen(UnorderedTree(store), identity) <==>
       seen in CleanSeen(UnorderedTree(stores.walk.trees[k]), identity))
    ensures var more := stores.(walk := stores.walk.(trees := stores.walk.trees[k := store]));
      Known(Forget(more), identity) == Known(Forget(stores), identity)
  {
    var trees, others := stores.walk.trees, stores.walk.trees[k := store];
    SaysNoMore(trees, others, identity);
    SaysNoMore(others, trees, identity);
    NothingAdds(SeenIn(Unordered(stores.global), identity, GLOBAL),
                AllCleanSeen(UnorderedTrees(trees), identity), AllCleanSeen(UnorderedTrees(others), identity));
    assert TreeScopes(UnorderedTrees(trees), identity) == TreeScopes(UnorderedTrees(others), identity);
  }

  lemma NothingAdds(seen: set<Seen>, one: set<Seen>, other: set<Seen>)
    requires forall s :: s != Nothing ==> (s in one <==> s in other)
    ensures Plus(NO_PART, seen + one) == Plus(NO_PART, seen + other)
  {}

  lemma SaysNoMore(trees: seq<TreeStore<seq<Entry>>>, others: seq<TreeStore<seq<Entry>>>, identity: Path -> Ident)
    requires |trees| == |others|
    requires forall k :: 0 <= k < |trees| ==> RecordOf(trees[k], identity) == RecordOf(others[k], identity)
    requires forall k, seen ::
      0 <= k < |trees| && seen != Nothing && seen in CleanSeen(UnorderedTree(trees[k]), identity) ==>
        seen in CleanSeen(UnorderedTree(others[k]), identity)
    ensures TreeScopes(UnorderedTrees(trees), identity) <= TreeScopes(UnorderedTrees(others), identity)
    ensures forall seen :: seen != Nothing && seen in AllCleanSeen(UnorderedTrees(trees), identity) ==>
      seen in AllCleanSeen(UnorderedTrees(others), identity)
  {
    forall u | u in TreeScopes(UnorderedTrees(trees), identity)
      ensures u in TreeScopes(UnorderedTrees(others), identity)
    {
      var k :| 0 <= k < |trees| && u in RecordOf(trees[k], identity);
      var other := UnorderedTree(others[k]);
      assert other in UnorderedTrees(others);
      assert u in TreeRecord(other.tree, other.jobs, other.isolated, identity);
    }
    forall seen | seen != Nothing && seen in AllCleanSeen(UnorderedTrees(trees), identity)
      ensures seen in AllCleanSeen(UnorderedTrees(others), identity)
    {
      var k :| 0 <= k < |trees| && seen in CleanSeen(UnorderedTree(trees[k]), identity);
      assert UnorderedTree(others[k]) in UnorderedTrees(others);
    }
  }

  /** The record of a job that has ended, added to an isolated tree's own store, changes no answer. */
  lemma EndedRecordIsInert(stores: Stores<seq<Entry>>, k: nat, entry: Entry, path: Path, identity: Path -> Ident)
    requires stores.walk.Walked? && k < |stores.walk.trees|
    requires stores.walk.trees[k].isolated
    requires stores.walk.trees[k].jobs.OwnStore? && stores.walk.trees[k].jobs.dir.Listed?
    requires entry.JobDir? && entry.record.Parsed? && entry.record.state.configDir.Some? && !StillRuns(entry)
    requires !identity(entry.record.state.configDir.value).Unclear?
    ensures var trees := stores.walk.trees[k := OneMore(stores.walk.trees[k], entry)];
      var before, after := ReadingOf(JobTreesOf(stores, identity)),
                           ReadingOf(JobTreesOf(stores.(walk := stores.walk.(trees := trees)), identity));
      && Spares(after, path, identity) == Spares(before, path, identity)
      && UnfinishedNames(after, path, identity) == UnfinishedNames(before, path, identity)
      && SparesUnder(after, path, identity) == SparesUnder(before, path, identity)
      && UnfinishedUnder(after, path, identity) == UnfinishedUnder(before, path, identity)
      && UnfinishedJobs(after) == UnfinishedJobs(before)
  {
    var store := OneMore(stores.walk.trees[k], entry);
    var more := stores.(walk := stores.walk.(trees := stores.walk.trees[k := store]));
    EndedIsNothing(stores.walk.trees[k], entry, identity);
    KnownAlike(stores, k, store, identity);
    SparesWhateverTheOrder(stores, path, identity);
    SparesWhateverTheOrder(more, path, identity);
    SparesUnderWhateverTheOrder(stores, path, identity);
    SparesUnderWhateverTheOrder(more, path, identity);
    UnfinishedJobsWhateverTheOrder(stores, identity);
    UnfinishedJobsWhateverTheOrder(more, identity);
  }
}
