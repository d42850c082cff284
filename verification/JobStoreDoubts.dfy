/** What a read of the stores leaves in doubt, told by the entries that could not be read or were caught in the
    middle of a creation. */
module JobStoreDoubts {
  import opened Wrappers
  import opened JobStore
  import opened JobStoreTheorems
  import opened JobStoreRecords

  /** A job directory being created: nothing in it yet but copies of its record being written. */
  predicate BeingCreated(listing: Listing) {
    && listing.Items?
    && forall item :: item in listing.items ==>
         item.Item? && "state.json.tmp." <= item.name && item.kind == RegularFile
  }

  lemma RecordlessMeans(listing: Listing)
    ensures RecordlessOf(listing) == Some(Removed) <==> RemovedJob(listing)
    ensures RecordlessOf(listing) == Some(MidCreate) <==> BeingCreated(listing)
  {
    RemovedIsSeen(listing);
    if listing.Items? {
      forall item | item in listing.items ensures item in Elements(listing.items) {}
      if listing.items != [] {
        assert listing.items[0] in Elements(listing.items);
      }
    }
  }

  /** An entry that fails its store: one that cannot be read, or whose record cannot, or is missing for no
      reason known, or names a directory that cannot be told. */
  predicate FailsStore(entry: Entry, identity: Path -> Ident) {
    || entry.BadEntry?
    || (entry.JobDir? &&
        match entry.record
        case BadRecord => true
        case Parsed(state) => state.configDir.Some? && identity(state.configDir.value).Unclear?
        case NoRecord(listing) => !RemovedJob(listing) && !BeingCreated(listing))
  }

  predicate IsCreated(entry: Entry) {
    entry.JobDir? && entry.record.NoRecord? && BeingCreated(entry.record.listing)
  }

  predicate DirFails(dir: Dir<seq<Entry>>, identity: Path -> Ident) {
    dir.CannotOpen? || (dir.Listed? && exists entry :: entry in dir.entries && FailsStore(entry, identity))
  }

  predicate DirCreates(dir: Dir<seq<Entry>>) {
    dir.Listed? && exists entry :: entry in dir.entries && IsCreated(entry)
  }

  lemma SeenByKind(entry: Entry, identity: Path -> Ident, scope: Scope)
    ensures See(entry, identity, scope).Fails? <==> FailsStore(entry, identity)
    ensures See(entry, identity, scope).Creating? <==> IsCreated(entry)
  {
    if entry.JobDir? && entry.record.NoRecord? {
      RecordlessMeans(entry.record.listing);
    }
  }

  lemma VerdictOf(dir: Dir<seq<Entry>>, identity: Path -> Ident, scope: Scope)
    ensures Verdict(SeenIn(Unordered(dir), identity, scope)) ==
      if DirFails(dir, identity) then None else Some(DirCreates(dir))
  {
    if dir.Listed? {
      forall entry | entry in dir.entries
        ensures See(entry, identity, scope) in SeenIn(Unordered(dir), identity, scope)
        ensures See(entry, identity, scope) == Fails <==> FailsStore(entry, identity)
        ensures See(entry, identity, scope) == Creating <==> IsCreated(entry)
      {
        assert entry in Elements(dir.entries);
        SeenByKind(entry, identity, scope);
      }
    }
  }

  /** A read is blind exactly when there is no home, the trees cannot be walked, or the global store cannot be
      opened or holds an entry that fails it; otherwise it is held up exactly when that store holds a
      job being created. */
  lemma BlindExactlyWhen(stores: Stores<seq<Entry>>, identity: Path -> Ident)
    ensures var read := ReadingOf(JobTreesOf(stores, identity));
      && (read.Blind? <==> !stores.home || stores.walk.CannotWalk? || DirFails(stores.global, identity))
      && (read.Sighted? ==> (read.midCreate <==> DirCreates(stores.global)))
  {
    VerdictOf(stores.global, identity, GLOBAL);
  }

  /** So an unrecorded job directory in the global store spares every tree, unless a removed job left it. */
  lemma UnrecordedSparesAll(stores: Stores<seq<Entry>>, entry: Entry, tree: Path, identity: Path -> Ident)
    requires stores.global.Listed? && entry in stores.global.entries
    requires entry.JobDir? && entry.record.NoRecord? && !RemovedJob(entry.record.listing)
    ensures var read := ReadingOf(JobTreesOf(stores, identity));
      Spares(read, tree, identity) && UnfinishedNames(read, tree, identity)
  {
    BlindExactlyWhen(stores, identity);
  }

  /* ---------- the scopes nothing is known of ---------- */

  /** The tree's path resolves to `scope`, or is that and cannot be told. */
  predicate ScopedAt(path: Path, scope: Path, identity: Path -> Ident) {
    identity(path) == Resolved(scope) || (identity(path).Unclear? && path == scope)
  }

  /** The tree's store is no directory, cannot be looked at, or fails: `midCreate` is a store that reads and
      holds a job being created. */
  predicate Doubted(store: TreeStore<seq<Entry>>, midCreate: bool, identity: Path -> Ident) {
    match store.jobs
    case Absent => false
    case LinkedStore => false
    case NotAStore => !midCreate
    case CannotStat => !midCreate
    case OwnStore(dir) => if midCreate then !DirFails(dir, identity) && DirCreates(dir) else DirFails(dir, identity)
  }

  lemma RecordOfDoubted(store: TreeStore<seq<Entry>>, u: UnreadableStore, identity: Path -> Ident)
    ensures u in RecordOf(store, identity) <==>
      && ScopedAt(store.tree, u.scope, identity) && Doubted(store, u.midCreate, identity)
      && u.store == store.tree + ["jobs"]
  {
    if store.jobs.OwnStore? && ScopeOf(store.tree, identity).Some? {
      VerdictOf(store.jobs.dir, identity, Scope(ScopeOf(store.tree, identity), store.isolated));
    }
  }

  /** The scopes a read knows nothing of are those of the profile directories it could not list, and of the trees
      whose own store is in doubt. */
  lemma ScopesAre(stores: Stores<seq<Entry>>, u: UnreadableStore, identity: Path -> Ident)
    requires ReadingOf(JobTreesOf(stores, identity)).Sighted?
    ensures stores.walk.Walked?
    ensures u in ReadingOf(JobTreesOf(stores, identity)).scopes <==>
      || (!u.midCreate && u.store in stores.walk.unreadable && ScopedAt(u.store, u.scope, identity))
      || (exists store :: store in stores.walk.trees && ScopedAt(store.tree, u.scope, identity)
                          && Doubted(store, u.midCreate, identity) && u.store == store.tree + ["jobs"])
  {
    var trees, profiles := stores.walk.trees, stores.walk.unreadable;
    TreesRecordDoubted(trees, u, identity);
    ProfilesRecordUnread(profiles, u, identity);
    assert u in Elements(ProfileRecords(profiles, identity) + AllTreeRecords(trees, identity)) <==>
      u in ProfileRecords(profiles, identity) || u in AllTreeRecords(trees, identity);
  }

  /** What is in or under a tree in doubt is spared, as is a directory over one, and the count of running jobs
      says it is short, unless the store only holds a job being created. */
  lemma DoubtedStoreSpares(stores: Stores<seq<Entry>>, store: TreeStore<seq<Entry>>, midCreate: bool, scope: Path,
                           path: Path, identity: Path -> Ident)
    requires stores.walk.Walked? && store in stores.walk.trees
    requires ScopedAt(store.tree, scope, identity) && Doubted(store, midCreate, identity)
    ensures var read := ReadingOf(JobTreesOf(stores, identity));
      && (identity(path).Resolved? && Under(identity(path).path, scope) ==>
            Spares(read, path, identity) && UnfinishedNames(read, path, identity))
      && (identity(path).Resolved? && Under(scope, identity(path).path) ==>
            SparesUnder(read, path, identity) && UnfinishedUnder(read, path, identity).None?)
      && (!midCreate ==> UnfinishedJobs(read).None? || UnfinishedJobs(read).value.1)
  {
    var read := ReadingOf(JobTreesOf(stores, identity));
    if read.Sighted? {
      var u := UnreadableStore(scope, store.tree + ["jobs"], midCreate);
      ScopesAre(stores, u, identity);
      assert u in read.scopes;
    }
  }

  lemma {:induction false} TreesRecordDoubted(trees: seq<TreeStore<seq<Entry>>>, u: UnreadableStore,
                                              identity: Path -> Ident)
    ensures u in AllTreeRecords(trees, identity) <==>
      exists store :: store in trees && ScopedAt(store.tree, u.scope, identity)
                      && Doubted(store, u.midCreate, identity) && u.store == store.tree + ["jobs"]
    decreases |trees|
  {
    if trees == [] {
    } else {
      RecordOfDoubted(trees[0], u, identity);
      TreesRecordDoubted(trees[1..], u, identity);
      assert trees == [trees[0]] + trees[1..];
    }
  }

  lemma {:induction false} ProfilesRecordUnread(profiles: seq<Path>, u: UnreadableStore, identity: Path -> Ident)
    ensures u in ProfileRecords(profiles, identity) <==>
      !u.midCreate && u.store in profiles && ScopedAt(u.store, u.scope, identity)
    decreases |profiles|
  {
    if profiles == [] {
    } else {
      ProfilesRecordUnread(profiles[1..], u, identity);
      assert profiles == [profiles[0]] + profiles[1..];
    }
  }
}
