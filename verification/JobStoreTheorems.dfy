/** The answers that decide what a sweep spares do not depend on the order directories are listed in,
    though a read stops at the first entry that fails, and they nest. */
module JobStoreTheorems {
  import opened Wrappers
  import opened JobStore

  /* ---------- the answers, off sets of entries alone ---------- */

  datatype SetWalk = NoWalk | Trees(unreadable: set<Path>, trees: set<TreeStore<set<Entry>>>)

  /** The stores with every listing's order forgotten. */
  datatype SetStores = SetStores(home: bool, global: Dir<set<Entry>>, walk: SetWalk)

  function UnorderedTree(store: TreeStore<seq<Entry>>): TreeStore<set<Entry>> {
    TreeStore(store.tree, store.isolated, UnorderedJobs(store.jobs))
  }

  function UnorderedTrees(trees: seq<TreeStore<seq<Entry>>>): set<TreeStore<set<Entry>>> {
    set store | store in trees :: UnorderedTree(store)
  }

  function Forget(stores: Stores<seq<Entry>>): SetStores {
    SetStores(
      stores.home,
      Unordered(stores.global),
      if stores.walk.CannotWalk? then NoWalk
      else Trees(Elements(stores.walk.unreadable), UnorderedTrees(stores.walk.trees)))
  }

  /** The part of the sets the queries look at. */
  datatype Part = Part(named: set<Path>, unfinished: set<Path>, running: set<(Path, string)>)

  function PartOf(sets: Sets): Part {
    Part(sets.named, sets.unfinished, sets.unfinishedByJob)
  }

  function NamedBy(seen: set<Seen>): set<Path> {
    set s | s in seen && s.Names? :: s.job.tree
  }

  function UnfinishedBy(seen: set<Seen>): set<Path> {
    set s | s in seen && s.Names? && !s.job.finished :: s.job.tree
  }

  function RunningBy(seen: set<Seen>): set<(Path, string)> {
    set s | s in seen && s.Names? && !s.job.finished && s.job.id.Some? :: (s.job.tree, s.job.id.value)
  }

  function Plus(part: Part, seen: set<Seen>): Part {
    Part(part.named + NamedBy(seen), part.unfinished + UnfinishedBy(seen), part.running + RunningBy(seen))
  }

  /** What a tree's own store says, where it could be read. */
  function CleanSeen(store: TreeStore<set<Entry>>, identity: Path -> Ident): set<Seen> {
    var owner := ScopeOf(store.tree, identity);
    if !store.jobs.OwnStore? || owner.None? then {}
    else
      var seen := SeenIn(store.jobs.dir, identity, Scope(owner, store.isolated));
      if Fails in seen then {} else seen
  }

  function AllCleanSeen(trees: set<TreeStore<set<Entry>>>, identity: Path -> Ident): set<Seen> {
    set store, s | store in trees && s in CleanSeen(store, identity) :: s
  }

  function TreeScopes(trees: set<TreeStore<set<Entry>>>, identity: Path -> Ident): set<UnreadableStore> {
    set store, u | store in trees && u in TreeRecord(store.tree, store.jobs, store.isolated, identity) :: u
  }

  function ProfileScopes(profiles: set<Path>, identity: Path -> Ident): set<UnreadableStore> {
    set profile, u | profile in profiles && u in Recorded(profile, profile, false, identity) :: u
  }

  const NO_PART := Part({}, {}, {})

  /** What can be known of the stores whatever order they are listed in: the records of every store that
      reads whole, and the scopes of the others. */
  function Known(stores: SetStores, identity: Path -> Ident): Reading {
    var seen := SeenIn(stores.global, identity, GLOBAL);
    if !stores.home || Verdict(seen).None? || stores.walk.NoWalk? then Blind
    else
      var part := Plus(NO_PART, seen + AllCleanSeen(stores.walk.trees, identity));
      Sighted(part.named, part.unfinished, part.running,
              ProfileScopes(stores.walk.unreadable, identity) + TreeScopes(stores.walk.trees, identity),
              Verdict(seen).value)
  }

  /* ---------- a read knows that much, and more only under a scope it failed in ---------- */

  predicate Failed(path: Path, scopes: set<UnreadableStore>) {
    exists u :: u in scopes && !u.midCreate && u.scope == path
  }

  predicate Within(small: Part, large: Part) {
    small.named <= large.named && small.unfinished <= large.unfinished && small.running <= large.running
  }

  /** `part` holds all of `clean`, and beyond it only trees of scopes that failed. */
  predicate Tracks(part: Part, clean: Part, scopes: set<UnreadableStore>) {
    && Within(clean, part)
    && (forall path :: path in part.named - clean.named ==> Failed(path, scopes))
    && (forall path :: path in part.unfinished - clean.unfinished ==> Failed(path, scopes))
    && (forall pair :: pair in part.running - clean.running ==> Failed(pair.0, scopes))
  }

  lemma OneMoreSeen(sets: Sets, seen: Seen)
    ensures PartOf(WithSeen(sets, seen)) == Plus(PartOf(sets), {seen})
  {}

  lemma PlusBoth(part: Part, first: set<Seen>, second: set<Seen>)
    ensures Plus(Plus(part, first), second) == Plus(part, first + second)
  {}

  lemma {:induction false} GatheredBounds(sets: Sets, entries: seq<Entry>, identity: Path -> Ident, scope: Scope)
    ensures var seen := SeenIn(Listed(Elements(entries)), identity, scope);
      var after := PartOf(Gathered(sets, entries, identity, scope));
      && Within(PartOf(sets), after) && Within(after, Plus(PartOf(sets), seen))
      && (Fails !in seen ==> after == Plus(PartOf(sets), seen))
    decreases |entries|
  {
    var seen := SeenIn(Listed(Elements(entries)), identity, scope);
    if entries == [] {
    } else {
      var first := See(entries[0], identity, scope);
      var rest := SeenIn(Listed(Elements(entries[1..])), identity, scope);
      assert Elements(entries) == {entries[0]} + Elements(entries[1..]);
      assert seen == {first} + rest;
      if first.Fails? {
      } else {
        var next := WithSeen(sets, first);
        OneMoreSeen(sets, first);
        GatheredBounds(next, entries[1..], identity, scope);
        PlusBoth(PartOf(sets), {first}, rest);
      }
    }
  }

  /** A tree's own store names that tree alone. */
  lemma OwnersOnly(dir: Dir<set<Entry>>, identity: Path -> Ident, owner: Path, isolated: bool, seen: Seen)
    requires seen in SeenIn(dir, identity, Scope(Some(owner), isolated)) && seen.Names?
    ensures seen.job.tree == owner
  {}

  lemma TracksMore(part: Part, clean: Part, scopes: set<UnreadableStore>, more: set<UnreadableStore>)
    requires Tracks(part, clean, scopes)
    ensures Tracks(part, Plus(clean, {}), scopes + more)
  {
    assert Plus(clean, {}) == clean;
    assert forall path :: Failed(path, scopes) ==> Failed(path, scopes + more);
  }

  lemma TracksPlus(part: Part, clean: Part, scopes: set<UnreadableStore>, seen: set<Seen>, more: set<UnreadableStore>)
    requires Tracks(part, clean, scopes)
    ensures Tracks(Plus(part, seen), Plus(clean, seen), scopes + more)
  {
    assert forall path :: Failed(path, scopes) ==> Failed(path, scopes + more);
  }

  lemma TreeTracks(sets: Sets, store: TreeStore<seq<Entry>>, clean: Part, scopes: set<UnreadableStore>, identity: Path -> Ident)
    requires Tracks(PartOf(sets), clean, scopes)
    ensures Tracks(PartOf(TreeSets(sets, store, identity)), Plus(clean, CleanSeen(UnorderedTree(store), identity)),
                   scopes + Elements(RecordOf(store, identity)))
  {
    var owner := ScopeOf(store.tree, identity);
    var record := Elements(RecordOf(store, identity));
    if !store.jobs.OwnStore? || owner.None? {
      TracksMore(PartOf(sets), clean, scopes, record);
    } else {
      var scope := Scope(owner, store.isolated);
      var seen := SeenIn(Unordered(store.jobs.dir), identity, scope);
      if Fails in seen {
        var failure := UnreadableStore(owner.value, JobsOf(store.tree), false);
        assert RecordOf(store, identity) == [failure];
        assert record == {failure};
        OwnStoreFails(sets, store, clean, scopes, identity);
        assert Plus(clean, {}) == clean;
      } else {
        var entries := EntriesOf(store.jobs.dir);
        GatheredBounds(sets, entries, identity, scope);
        assert SeenIn(Listed(Elements(entries)), identity, scope) == seen;
        TracksPlus(PartOf(sets), clean, scopes, seen, record);
      }
    }
  }

  /** A store that failed part way leaves no trees but its own, which its scope covers. */
  lemma OwnStoreFails(sets: Sets, store: TreeStore<seq<Entry>>, clean: Part, scopes: set<UnreadableStore>, identity: Path -> Ident)
    requires Tracks(PartOf(sets), clean, scopes)
    requires store.jobs.OwnStore? && ScopeOf(store.tree, identity).Some?
    requires Fails in SeenIn(Unordered(store.jobs.dir), identity, Scope(ScopeOf(store.tree, identity), store.isolated))
    ensures var failure := UnreadableStore(ScopeOf(store.tree, identity).value, JobsOf(store.tree), false);
      Tracks(PartOf(TreeSets(sets, store, identity)), clean, scopes + {failure})
  {
    var owner := ScopeOf(store.tree, identity).value;
    var scope := Scope(Some(owner), store.isolated);
    var entries := EntriesOf(store.jobs.dir);
    var listed := SeenIn(Listed(Elements(entries)), identity, scope);
    var failure := UnreadableStore(owner, JobsOf(store.tree), false);
    GatheredBounds(sets, entries, identity, scope);
    forall seen | seen in listed && seen.Names? ensures seen.job.tree == owner {
      OwnersOnly(Listed(Elements(entries)), identity, owner, store.isolated, seen);
    }
    assert forall path :: Failed(path, scopes) ==> Failed(path, scopes + {failure});
    assert failure in scopes + {failure} && Failed(owner, scopes + {failure});
  }

  lemma {:induction false} AllTreesTrack(sets: Sets, trees: seq<TreeStore<seq<Entry>>>, clean: Part,
                                         scopes: set<UnreadableStore>, identity: Path -> Ident)
    requires Tracks(PartOf(sets), clean, scopes)
    ensures Tracks(PartOf(AllTreeSets(sets, trees, identity)),
                   Plus(clean, AllCleanSeen(UnorderedTrees(trees), identity)),
                   scopes + Elements(AllTreeRecords(trees, identity)))
    decreases |trees|
  {
    if trees == [] {
      assert AllCleanSeen({}, identity) == {};
      TracksMore(PartOf(sets), clean, scopes, {});
      assert UnorderedTrees(trees) == {};
    } else {
      var first, rest := trees[0], trees[1..];
      var seen := CleanSeen(UnorderedTree(first), identity);
      TreeTracks(sets, first, clean, scopes, identity);
      AllTreesTrack(TreeSets(sets, first, identity), rest, Plus(clean, seen),
                    scopes + Elements(RecordOf(first, identity)), identity);
      assert UnorderedTrees(trees) == {UnorderedTree(first)} + UnorderedTrees(rest);
      assert AllCleanSeen(UnorderedTrees(trees), identity) == seen + AllCleanSeen(UnorderedTrees(rest), identity);
      PlusBoth(clean, seen, AllCleanSeen(UnorderedTrees(rest), identity));
      assert Elements(AllTreeRecords(trees, identity)) ==
        Elements(RecordOf(first, identity)) + Elements(AllTreeRecords(rest, identity));
    }
  }

  lemma TreeScopesPlus(store: TreeStore<set<Entry>>, rest: set<TreeStore<set<Entry>>>, identity: Path -> Ident)
    ensures TreeScopes({store} + rest, identity) ==
      Elements(TreeRecord(store.tree, store.jobs, store.isolated, identity)) + TreeScopes(rest, identity)
  {}

  lemma {:induction false} TreeScopesAre(trees: seq<TreeStore<seq<Entry>>>, identity: Path -> Ident)
    ensures Elements(AllTreeRecords(trees, identity)) == TreeScopes(UnorderedTrees(trees), identity)
    decreases |trees|
  {
    if trees == [] {
    } else {
      TreeScopesAre(trees[1..], identity);
      assert UnorderedTrees(trees) == {UnorderedTree(trees[0])} + UnorderedTrees(trees[1..]);
      TreeScopesPlus(UnorderedTree(trees[0]), UnorderedTrees(trees[1..]), identity);
      assert Elements(AllTreeRecords(trees, identity)) ==
        Elements(RecordOf(trees[0], identity)) + Elements(AllTreeRecords(trees[1..], identity));
    }
  }

  lemma {:induction false} ProfileScopesAre(profiles: seq<Path>, identity: Path -> Ident)
    ensures Elements(ProfileRecords(profiles, identity)) == ProfileScopes(Elements(profiles), identity)
    decreases |profiles|
  {
    if profiles == [] {
    } else {
      ProfileScopesAre(profiles[1..], identity);
      var first := Recorded(profiles[0], profiles[0], false, identity);
      assert Elements(profiles) == {profiles[0]} + Elements(profiles[1..]);
      assert ProfileScopes(Elements(profiles), identity) ==
        Elements(first) + ProfileScopes(Elements(profiles[1..]), identity);
      assert Elements(ProfileRecords(profiles, identity)) ==
        Elements(first) + Elements(ProfileRecords(profiles[1..], identity));
    }
  }

  /** The read and what can be known: both blind, or the same scopes and mid-create, and the read's trees
      tracking the known ones. */
  predicate Close(read: Reading, known: Reading) {
    if known.Blind? then read.Blind?
    else
      && read.Sighted? && read.scopes == known.scopes && read.midCreate == known.midCreate
      && Tracks(Part(read.named, read.unfinished, read.running), Part(known.named, known.unfinished, known.running),
                read.scopes)
  }

  lemma ReadIsClose(stores: Stores<seq<Entry>>, identity: Path -> Ident)
    ensures Close(ReadingOf(JobTreesOf(stores, identity)), Known(Forget(stores), identity))
  {
    var seen := SeenIn(Unordered(stores.global), identity, GLOBAL);
    if stores.home && Verdict(seen).Some? && stores.walk.Walked? {
      var entries, trees := EntriesOf(stores.global), stores.walk.trees;
      var first := Gathered(NO_SETS, entries, identity, GLOBAL);
      var profiles := Elements(ProfileRecords(stores.walk.unreadable, identity));
      GatheredBounds(NO_SETS, entries, identity, GLOBAL);
      assert SeenIn(Listed(Elements(entries)), identity, GLOBAL) == seen;
      AllTreesTrack(first, trees, Plus(NO_PART, seen), profiles, identity);
      PlusBoth(NO_PART, seen, AllCleanSeen(UnorderedTrees(trees), identity));
      TreeScopesAre(trees, identity);
      ProfileScopesAre(stores.walk.unreadable, identity);
      assert Elements(ProfileRecords(stores.walk.unreadable, identity) + AllTreeRecords(trees, identity)) ==
        profiles + Elements(AllTreeRecords(trees, identity));
    }
  }

  /* ---------- the answers ---------- */

  lemma FailedIsAffected(path: Path, scopes: set<UnreadableStore>)
    requires Failed(path, scopes)
    ensures Affected(path, scopes) && scopes != {} && UnderFailure(path, scopes)
    ensures forall dir :: Under(path, dir) ==> HoldsScope(dir, scopes)
  {}

  lemma NamedAlike(path: Path, read: set<Path>, known: set<Path>, scopes: set<UnreadableStore>, identity: Path -> Ident)
    requires known <= read && forall extra :: extra in read - known ==> Failed(extra, scopes)
    ensures NamedOrAffected(path, read, scopes, identity) == NamedOrAffected(path, known, scopes, identity)
    ensures (read == {} && scopes == {}) <==> (known == {} && scopes == {})
  {
    match identity(path) {
      case Resolved(id) =>
        if id in read - known {
          FailedIsAffected(id, scopes);
        }
      case Gone =>
      case Unclear =>
    }
    if known == {} && read != {} {
      var extra :| extra in read;
      FailedIsAffected(extra, scopes);
    }
  }

  lemma NamedUnderAlike(dir: Path, read: set<Path>, known: set<Path>, scopes: set<UnreadableStore>, identity: Path -> Ident)
    requires known <= read && forall extra :: extra in read - known ==> Failed(extra, scopes)
    ensures NamedUnder(read, dir, identity) || UnreadableUnder(dir, scopes, identity)
      <==> NamedUnder(known, dir, identity) || UnreadableUnder(dir, scopes, identity)
  {
    match identity(dir) {
      case Resolved(id) =>
        if path :| path in read && Under(path, id) && path !in known {
          FailedIsAffected(path, scopes);
        }
      case Gone =>
      case Unclear =>
    }
  }

  /** Whether a tree is spared, and whether an unfinished job holds it, is what is known of the stores:
      the same in whatever order they are listed. */
  lemma SparesWhateverTheOrder(stores: Stores<seq<Entry>>, tree: Path, identity: Path -> Ident)
    ensures var read, known := ReadingOf(JobTreesOf(stores, identity)), Known(Forget(stores), identity);
      && Spares(read, tree, identity) == Spares(known, tree, identity)
      && UnfinishedNames(read, tree, identity) == UnfinishedNames(known, tree, identity)
  {
    var read, known := ReadingOf(JobTreesOf(stores, identity)), Known(Forget(stores), identity);
    ReadIsClose(stores, identity);
    if known.Sighted? {
      NamedAlike(tree, read.named, known.named, known.scopes, identity);
      NamedAlike(tree, read.unfinished, known.unfinished, known.scopes, identity);
    }
  }

  /** So is whether a directory is spared, and which unfinished trees are under it. */
  lemma SparesUnderWhateverTheOrder(stores: Stores<seq<Entry>>, dir: Path, identity: Path -> Ident)
    ensures var read, known := ReadingOf(JobTreesOf(stores, identity)), Known(Forget(stores), identity);
      && SparesUnder(read, dir, identity) == SparesUnder(known, dir, identity)
      && UnfinishedUnder(read, dir, identity) == UnfinishedUnder(known, dir, identity)
  {
    var read, known := ReadingOf(JobTreesOf(stores, identity)), Known(Forget(stores), identity);
    ReadIsClose(stores, identity);
    if known.Sighted? {
      NamedUnderAlike(dir, read.named, known.named, known.scopes, identity);
      if identity(dir).Resolved? && !HoldsScope(identity(dir).path, known.scopes) {
        var id := identity(dir).path;
        forall tree | tree in read.unfinished - known.unfinished ensures !Under(tree, id) {
          FailedIsAffected(tree, known.scopes);
        }
        assert (set tree | tree in read.unfinished && Under(tree, id)) ==
          (set tree | tree in known.unfinished && Under(tree, id));
      }
    }
  }

  /** So is which jobs are counted as running, and whether the count is short. */
  lemma UnfinishedJobsWhateverTheOrder(stores: Stores<seq<Entry>>, identity: Path -> Ident)
    ensures UnfinishedJobs(ReadingOf(JobTreesOf(stores, identity))) == UnfinishedJobs(Known(Forget(stores), identity))
  {
    var read, known := ReadingOf(JobTreesOf(stores, identity)), Known(Forget(stores), identity);
    ReadIsClose(stores, identity);
    if known.Sighted? {
      forall job | job in read.running - known.running ensures UnderFailure(job.0, known.scopes) {
        FailedIsAffected(job.0, known.scopes);
      }
      assert (set job | job in read.running && !UnderFailure(job.0, known.scopes)) ==
        (set job | job in known.running && !UnderFailure(job.0, known.scopes));
    }
  }

  /** Two listings of the same stores, in any order, are answered alike. */
  lemma ListingOrderIsIrrelevant(one: Stores<seq<Entry>>, other: Stores<seq<Entry>>, path: Path, identity: Path -> Ident)
    requires Forget(one) == Forget(other)
    ensures var a, b := ReadingOf(JobTreesOf(one, identity)), ReadingOf(JobTreesOf(other, identity));
      && Spares(a, path, identity) == Spares(b, path, identity)
      && UnfinishedNames(a, path, identity) == UnfinishedNames(b, path, identity)
      && SparesUnder(a, path, identity) == SparesUnder(b, path, identity)
      && UnfinishedUnder(a, path, identity) == UnfinishedUnder(b, path, identity)
      && UnfinishedJobs(a) == UnfinishedJobs(b)
  {
    SparesWhateverTheOrder(one, path, identity);
    SparesWhateverTheOrder(other, path, identity);
    SparesUnderWhateverTheOrder(one, path, identity);
    SparesUnderWhateverTheOrder(other, path, identity);
    UnfinishedJobsWhateverTheOrder(one, identity);
    UnfinishedJobsWhateverTheOrder(other, identity);
  }

  /* ---------- the answers nest ---------- */

  lemma {:induction false} GatheredNests(sets: Sets, entries: seq<Entry>, identity: Path -> Ident, scope: Scope)
    requires sets.unfinished <= sets.named
    ensures var after := Gathered(sets, entries, identity, scope); after.unfinished <= after.named
    decreases |entries|
  {
    if entries == [] || See(entries[0], identity, scope).Fails? {
    } else {
      GatheredNests(WithSeen(sets, See(entries[0], identity, scope)), entries[1..], identity, scope);
    }
  }

  lemma {:induction false} AllTreesNest(sets: Sets, trees: seq<TreeStore<seq<Entry>>>, identity: Path -> Ident)
    requires sets.unfinished <= sets.named
    ensures var after := AllTreeSets(sets, trees, identity); after.unfinished <= after.named
    decreases |trees|
  {
    if trees == [] {
    } else {
      var owner := ScopeOf(trees[0].tree, identity);
      if trees[0].jobs.OwnStore? && owner.Some? {
        GatheredNests(sets, EntriesOf(trees[0].jobs.dir), identity, Scope(owner, trees[0].isolated));
      }
      AllTreesNest(TreeSets(sets, trees[0], identity), trees[1..], identity);
    }
  }

  /** A tree an unfinished job holds is spared; a directory with unfinished trees, or with a store under
      it that could not be read, is spared. */
  lemma AnswersNest(stores: Stores<seq<Entry>>, path: Path, identity: Path -> Ident)
    ensures var read := ReadingOf(JobTreesOf(stores, identity));
      && (UnfinishedNames(read, path, identity) ==> Spares(read, path, identity))
      && (UnfinishedUnder(read, path, identity) != Some({}) ==> SparesUnder(read, path, identity))
  {
    var read := ReadingOf(JobTreesOf(stores, identity));
    if read.Sighted? {
      GatheredNests(NO_SETS, EntriesOf(stores.global), identity, GLOBAL);
      AllTreesNest(Gathered(NO_SETS, EntriesOf(stores.global), identity, GLOBAL), stores.walk.trees, identity);
      var under := UnfinishedUnder(read, path, identity);
      if under.Some? && under.value != {} {
        var tree :| tree in under.value;
      }
    }
  }

  /* ---------- what does depend on the order ---------- */

  /** The conversation `s` run by a job of id `id` on the tree named `tree`. */
  function SessionOn(id: string, tree: string): Entry {
    JobDir(Some(id), Parsed(JobState(Some([tree]), "", NoFlags, "s")))
  }

  lemma LastSession(first: Entry, id: string, tree: string)
    requires first == SessionOn("1", "a") || first == SessionOn("2", "b")
    ensures var sets := Gathered(NO_SETS, [first, SessionOn(id, tree)], path => Resolved(path), GLOBAL);
      Lookup(sets.treeBySession, "s") == Some([tree])
  {
    var identity := (path: Path) => Resolved(path);
    var last := SessionOn(id, tree);
    var next := WithSeen(NO_SETS, See(first, identity, GLOBAL));
    assert [first, last][1..] == [last] && [last][1..] == [];
    assert Gathered(NO_SETS, [first, last], identity, GLOBAL) == Gathered(next, [last], identity, GLOBAL);
    assert Gathered(next, [last], identity, GLOBAL) == WithSeen(next, See(last, identity, GLOBAL));
  }

  /** The tree a conversation runs in is the one of the job listed last. */
  lemma SessionTreeDependsOnOrder()
    ensures var one, two := SessionOn("1", "a"), SessionOn("2", "b");
      && Elements([one, two]) == Elements([two, one])
      && Gathered(NO_SETS, [one, two], path => Resolved(path), GLOBAL).treeBySession
           != Gathered(NO_SETS, [two, one], path => Resolved(path), GLOBAL).treeBySession
  {
    LastSession(SessionOn("1", "a"), "2", "b");
    LastSession(SessionOn("2", "b"), "1", "a");
    assert "a"[0] != "b"[0];
    assert ["a"][0] != ["b"][0];
  }
}
