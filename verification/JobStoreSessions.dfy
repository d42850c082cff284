/** The tree a conversation runs in, as a read of the job stores tells it: the last record read decides, so
    the answer depends on the order directories are listed in. These are the answers an order can give. */
module JobStoreSessions {
  import opened Wrappers
  import opened JobStore
  import opened JobStoreTheorems

  /* ---------- the query ---------- */

  datatype SessionTree = Untracked | OnGlobal | OnTree(tree: Path) | UnknownTree

  function SessionTreeOf(trees: JobTrees, s: string): SessionTree {
    match trees
    case Unreadable(_) => UnknownTree
    case Snapshot(sets, _, _) => Told(TrackOf(sets, s))
  }

  /** What a read has of one conversation so far. */
  datatype Track = Track(tree: Option<Path>, home: bool)

  function TrackOf(sets: Sets, s: string): Track {
    Track(Lookup(sets.treeBySession, s), s in sets.globalSessions)
  }

  function Told(track: Track): SessionTree {
    if track.tree.Some? then OnTree(track.tree.value) else if track.home then OnGlobal else Untracked
  }

  /** The record runs the conversation, on a tree. */
  predicate NamesFor(seen: Seen, s: string) {
    seen.Names? && seen.job.sessionId == s && s != ""
  }

  function NamedFor(seen: set<Seen>, s: string): set<Path> {
    set one | one in seen && NamesFor(one, s) :: one.job.tree
  }

  /* ---------- a read, seen by one conversation ---------- */

  function Tracked(track: Track, seen: Seen, s: string): Track {
    if NamesFor(seen, s) then track.(tree := Some(seen.job.tree))
    else if seen == OnHome(s) then track.(home := true)
    else track
  }

  function TrackEntries(track: Track, entries: seq<Entry>, identity: Path -> Ident, scope: Scope, s: string): Track
    decreases |entries|
  {
    if entries == [] || See(entries[0], identity, scope).Fails? then track
    else TrackEntries(Tracked(track, See(entries[0], identity, scope), s), entries[1..], identity, scope, s)
  }

  function TrackTree(track: Track, store: TreeStore<seq<Entry>>, identity: Path -> Ident, s: string): Track {
    var owner := ScopeOf(store.tree, identity);
    if store.jobs.OwnStore? && owner.Some?
    then TrackEntries(track, EntriesOf(store.jobs.dir), identity, Scope(owner, store.isolated), s)
    else track
  }

  function TrackTrees(track: Track, trees: seq<TreeStore<seq<Entry>>>, identity: Path -> Ident, s: string): Track
    decreases |trees|
  {
    if trees == [] then track else TrackTrees(TrackTree(track, trees[0], identity, s), trees[1..], identity, s)
  }

  lemma {:induction false} EntriesTrack(sets: Sets, entries: seq<Entry>, identity: Path -> Ident, scope: Scope, s: string)
    ensures TrackOf(Gathered(sets, entries, identity, scope), s)
         == TrackEntries(TrackOf(sets, s), entries, identity, scope, s)
    decreases |entries|
  {
    if entries == [] || See(entries[0], identity, scope).Fails? {
    } else {
      EntriesTrack(WithSeen(sets, See(entries[0], identity, scope)), entries[1..], identity, scope, s);
    }
  }

  lemma {:induction false} TreesTrack(sets: Sets, trees: seq<TreeStore<seq<Entry>>>, identity: Path -> Ident, s: string)
    ensures TrackOf(AllTreeSets(sets, trees, identity), s) == TrackTrees(TrackOf(sets, s), trees, identity, s)
    decreases |trees|
  {
    if trees == [] {
    } else {
      var owner := ScopeOf(trees[0].tree, identity);
      if trees[0].jobs.OwnStore? && owner.Some? {
        EntriesTrack(sets, EntriesOf(trees[0].jobs.dir), identity, Scope(owner, trees[0].isolated), s);
      }
      TreesTrack(TreeSets(sets, trees[0], identity), trees[1..], identity, s);
    }
  }

  const NOTHING := Track(None, false)

  predicate Reads(stores: Stores<seq<Entry>>, identity: Path -> Ident) {
    stores.home && Fails !in SeenIn(Unordered(stores.global), identity, GLOBAL) && stores.walk.Walked?
  }

  /** The answer off the records in the order they are read. */
  function Answer(stores: Stores<seq<Entry>>, identity: Path -> Ident, s: string): SessionTree {
    if !Reads(stores, identity) then UnknownTree
    else Told(TrackTrees(TrackEntries(NOTHING, EntriesOf(stores.global), identity, GLOBAL, s),
                         stores.walk.trees, identity, s))
  }

  lemma ReadAnswers(stores: Stores<seq<Entry>>, identity: Path -> Ident, s: string)
    ensures SessionTreeOf(JobTreesOf(stores, identity), s) == Answer(stores, identity, s)
  {
    if Reads(stores, identity) {
      var entries := EntriesOf(stores.global);
      EntriesTrack(NO_SETS, entries, identity, GLOBAL, s);
      TreesTrack(Gathered(NO_SETS, entries, identity, GLOBAL), stores.walk.trees, identity, s);
    }
  }

  /* ---------- the answers an order can give ---------- */

  /** What the entries of a tree's own store say where one of them stops the read of it: any part of it. */
  function LooseSeen(store: TreeStore<set<Entry>>, identity: Path -> Ident): set<Seen> {
    var owner := ScopeOf(store.tree, identity);
    if !store.jobs.OwnStore? || owner.None? then {}
    else
      var seen := SeenIn(store.jobs.dir, identity, Scope(owner, store.isolated));
      if Fails in seen then seen else {}
  }

  function AllLooseSeen(trees: set<TreeStore<set<Entry>>>, identity: Path -> Ident): set<Seen> {
    set store, one | store in trees && one in LooseSeen(store, identity) :: one
  }

  function OnTrees(trees: set<Path>): set<SessionTree> {
    set tree | tree in trees :: OnTree(tree)
  }

  /** A record of a tree's own store outdoes the global store's. Records of a store whose read stops are
      read in some orders and not in others. */
  function Answers(stores: SetStores, identity: Path -> Ident, s: string): set<SessionTree> {
    var global := SeenIn(stores.global, identity, GLOBAL);
    if !stores.home || Fails in global || stores.walk.NoWalk? then {UnknownTree}
    else
      var local, loose := AllCleanSeen(stores.walk.trees, identity), AllLooseSeen(stores.walk.trees, identity);
      OnTrees(NamedFor(loose, s)) +
      if NamedFor(local, s) != {} then OnTrees(NamedFor(local, s))
      else if NamedFor(global, s) != {} then OnTrees(NamedFor(global, s))
      else if OnHome(s) in global + local then {OnGlobal}
      else {Untracked} + if OnHome(s) in loose then {OnGlobal} else {}
  }

  /* ---------- no other ---------- */

  /** A store read whole: a record that runs the conversation decides. */
  lemma {:induction false} WholeTracks(track: Track, entries: seq<Entry>, identity: Path -> Ident, scope: Scope, s: string)
    requires Fails !in SeenIn(Listed(Elements(entries)), identity, scope)
    ensures var seen := SeenIn(Listed(Elements(entries)), identity, scope);
      var after := TrackEntries(track, entries, identity, scope, s);
      && (if NamedFor(seen, s) == {} then after.tree == track.tree
          else after.tree.Some? && after.tree.value in NamedFor(seen, s))
      && (after.home <==> track.home || OnHome(s) in seen)
    decreases |entries|
  {
    if entries == [] {
    } else {
      SeenOfCons(entries, identity, scope);
      WholeTracks(Tracked(track, See(entries[0], identity, scope), s), entries[1..], identity, scope, s);
      NamedForCons(See(entries[0], identity, scope), SeenIn(Listed(Elements(entries[1..])), identity, scope), s);
    }
  }

  lemma SeenOfCons(entries: seq<Entry>, identity: Path -> Ident, scope: Scope)
    requires entries != []
    ensures SeenIn(Listed(Elements(entries)), identity, scope)
         == {See(entries[0], identity, scope)} + SeenIn(Listed(Elements(entries[1..])), identity, scope)
  {
    assert Elements(entries) == {entries[0]} + Elements(entries[1..]);
  }

  lemma NamedForCons(first: Seen, rest: set<Seen>, s: string)
    ensures NamedFor({first} + rest, s) == (if NamesFor(first, s) then {first.job.tree} else {}) + NamedFor(rest, s)
  {}

  /** A store whose read may stop: a record that was read decides, if one was. */
  lemma {:induction false} LooseTracks(track: Track, entries: seq<Entry>, identity: Path -> Ident, scope: Scope, s: string)
    ensures var seen := SeenIn(Listed(Elements(entries)), identity, scope);
      var after := TrackEntries(track, entries, identity, scope, s);
      && (after.tree == track.tree || (after.tree.Some? && after.tree.value in NamedFor(seen, s)))
      && (track.home ==> after.home) && (after.home ==> track.home || OnHome(s) in seen)
    decreases |entries|
  {
    if entries == [] {
    } else {
      SeenOfCons(entries, identity, scope);
      NamedForCons(See(entries[0], identity, scope), SeenIn(Listed(Elements(entries[1..])), identity, scope), s);
      if !See(entries[0], identity, scope).Fails? {
        LooseTracks(Tracked(track, See(entries[0], identity, scope), s), entries[1..], identity, scope, s);
      }
    }
  }

  lemma SeenOfDir(dir: Dir<seq<Entry>>, identity: Path -> Ident, scope: Scope)
    requires !dir.CannotOpen?
    ensures SeenIn(Unordered(dir), identity, scope) == SeenIn(Listed(Elements(EntriesOf(dir))), identity, scope)
  {}

  lemma TreeTells(track: Track, store: TreeStore<seq<Entry>>, identity: Path -> Ident, s: string)
    ensures var clean, loose := CleanSeen(UnorderedTree(store), identity), LooseSeen(UnorderedTree(store), identity);
      var after := TrackTree(track, store, identity, s);
      && (|| (NamedFor(clean, s) == {} && after.tree == track.tree)
          || (after.tree.Some? && after.tree.value in NamedFor(clean, s) + NamedFor(loose, s)))
      && (track.home || OnHome(s) in clean ==> after.home)
      && (after.home ==> track.home || OnHome(s) in clean + loose)
  {
    var owner := ScopeOf(store.tree, identity);
    if store.jobs.OwnStore? && owner.Some? {
      var dir, scope := store.jobs.dir, Scope(owner, store.isolated);
      if dir.CannotOpen? {
        assert EntriesOf(dir) == [];
      } else {
        SeenOfDir(dir, identity, scope);
        if Fails in SeenIn(Unordered(dir), identity, scope) {
          LooseTracks(track, EntriesOf(dir), identity, scope, s);
        } else {
          WholeTracks(track, EntriesOf(dir), identity, scope, s);
        }
      }
    }
  }

  lemma SeenOfTrees(trees: seq<TreeStore<seq<Entry>>>, identity: Path -> Ident, s: string)
    requires trees != []
    ensures var first, rest := UnorderedTree(trees[0]), UnorderedTrees(trees[1..]);
      && AllCleanSeen(UnorderedTrees(trees), identity) == CleanSeen(first, identity) + AllCleanSeen(rest, identity)
      && AllLooseSeen(UnorderedTrees(trees), identity) == LooseSeen(first, identity) + AllLooseSeen(rest, identity)
  {
    assert UnorderedTrees(trees) == {UnorderedTree(trees[0])} + UnorderedTrees(trees[1..]);
  }

  lemma NamedForBoth(first: set<Seen>, second: set<Seen>, s: string)
    ensures NamedFor(first + second, s) == NamedFor(first, s) + NamedFor(second, s)
  {}

  lemma {:induction false} TreesTell(track: Track, trees: seq<TreeStore<seq<Entry>>>, identity: Path -> Ident, s: string)
    ensures var clean, loose :=
        AllCleanSeen(UnorderedTrees(trees), identity), AllLooseSeen(UnorderedTrees(trees), identity);
      var after := TrackTrees(track, trees, identity, s);
      && (|| (NamedFor(clean, s) == {} && after.tree == track.tree)
          || (after.tree.Some? && after.tree.value in NamedFor(clean, s) + NamedFor(loose, s)))
      && (track.home || OnHome(s) in clean ==> after.home)
      && (after.home ==> track.home || OnHome(s) in clean + loose)
    decreases |trees|
  {
    if trees == [] {
      assert AllCleanSeen(UnorderedTrees(trees), identity) == {};
    } else {
      var first, rest := UnorderedTree(trees[0]), UnorderedTrees(trees[1..]);
      SeenOfTrees(trees, identity, s);
      NamedForBoth(CleanSeen(first, identity), AllCleanSeen(rest, identity), s);
      NamedForBoth(LooseSeen(first, identity), AllLooseSeen(rest, identity), s);
      TreeTells(track, trees[0], identity, s);
      TreesTell(TrackTree(track, trees[0], identity, s), trees[1..], identity, s);
    }
  }

  /** The answer is one of them. */
  lemma AnswerIsOneOf(stores: Stores<seq<Entry>>, identity: Path -> Ident, s: string)
    ensures Answer(stores, identity, s) in Answers(Forget(stores), identity, s)
  {
    if Reads(stores, identity) {
      SeenOfDir(stores.global, identity, GLOBAL);
      WholeTracks(NOTHING, EntriesOf(stores.global), identity, GLOBAL, s);
      TreesTell(TrackEntries(NOTHING, EntriesOf(stores.global), identity, GLOBAL, s), stores.walk.trees, identity, s);
    }
  }

  /* ---------- each of them ---------- */

  /** A listing with one of its entries moved first, or last. */
  function ToFront<T>(list: seq<T>, i: nat): seq<T>
    requires i < |list|
  {
    [list[i]] + (list[..i] + list[i + 1..])
  }

  function ToBack<T>(list: seq<T>, i: nat): seq<T>
    requires i < |list|
  {
    (list[..i] + list[i + 1..]) + [list[i]]
  }

  lemma MovedElements<T>(list: seq<T>, i: nat)
    requires i < |list|
    ensures Elements(ToFront(list, i)) == Elements(list) && Elements(ToBack(list, i)) == Elements(list)
  {
    assert list == list[..i] + [list[i]] + list[i + 1..];
  }

  function WithEntries(store: TreeStore<seq<Entry>>, entries: seq<Entry>): TreeStore<seq<Entry>>
    requires store.jobs.OwnStore?
  {
    store.(jobs := OwnStore(Listed(entries)))
  }

  lemma FrontStore(store: TreeStore<seq<Entry>>, i: nat)
    requires store.jobs.OwnStore? && store.jobs.dir.Listed? && i < |store.jobs.dir.entries|
    ensures UnorderedTree(WithEntries(store, ToFront(store.jobs.dir.entries, i))) == UnorderedTree(store)
  {
    MovedElements(store.jobs.dir.entries, i);
  }

  /** A walk with one tree last, its own listing reordered. */
  function LastTree(trees: seq<TreeStore<seq<Entry>>>, k: nat, store: TreeStore<seq<Entry>>): seq<TreeStore<seq<Entry>>>
    requires k < |trees|
  {
    (trees[..k] + trees[k + 1..]) + [store]
  }

  lemma LastTreeForgets(trees: seq<TreeStore<seq<Entry>>>, k: nat, store: TreeStore<seq<Entry>>)
    requires k < |trees| && UnorderedTree(store) == UnorderedTree(trees[k])
    ensures UnorderedTrees(LastTree(trees, k, store)) == UnorderedTrees(trees)
  {
    var moved := LastTree(trees, k, store);
    assert trees == trees[..k] + [trees[k]] + trees[k + 1..];
    forall one | one in UnorderedTrees(trees) ensures one in UnorderedTrees(moved) {
      var i :| 0 <= i < |trees| && UnorderedTree(trees[i]) == one;
      if i < k {
        assert moved[i] == trees[i];
      } else if i > k {
        assert moved[i - 1] == trees[i];
      } else {
        assert moved[|trees| - 1] == store;
      }
    }
    assert moved[|trees| - 1] == store;
  }

  lemma {:induction false} TrackLast(track: Track, trees: seq<TreeStore<seq<Entry>>>, last: TreeStore<seq<Entry>>,
                                     identity: Path -> Ident, s: string)
    ensures TrackTrees(track, trees + [last], identity, s)
         == TrackTree(TrackTrees(track, trees, identity, s), last, identity, s)
    decreases |trees|
  {
    if trees == [] {
      assert [last][1..] == [];
    } else {
      assert (trees + [last])[1..] == trees[1..] + [last];
      TrackLast(TrackTree(track, trees[0], identity, s), trees[1..], last, identity, s);
    }
  }

  /** A store whose read stops at its first entry says nothing. */
  ghost predicate Quiet(store: TreeStore<seq<Entry>>, identity: Path -> Ident) {
    LooseSeen(UnorderedTree(store), identity) != {} ==>
      forall track, s :: TrackTree(track, store, identity, s) == track
  }

  lemma QuietOf(store: TreeStore<seq<Entry>>, identity: Path -> Ident) returns (quiet: TreeStore<seq<Entry>>)
    ensures UnorderedTree(quiet) == UnorderedTree(store) && Quiet(quiet, identity)
  {
    quiet := store;
    if LooseSeen(UnorderedTree(store), identity) != {} && store.jobs.dir.Listed? {
      var entries, scope := store.jobs.dir.entries, Scope(ScopeOf(store.tree, identity), store.isolated);
      var i :| 0 <= i < |entries| && See(entries[i], identity, scope) == Fails;
      FrontStore(store, i);
      quiet := WithEntries(store, ToFront(entries, i));
    }
  }

  lemma {:induction false} QuietAll(trees: seq<TreeStore<seq<Entry>>>, identity: Path -> Ident)
    returns (quiet: seq<TreeStore<seq<Entry>>>)
    ensures |quiet| == |trees| && forall i :: 0 <= i < |trees| ==>
      UnorderedTree(quiet[i]) == UnorderedTree(trees[i]) && Quiet(quiet[i], identity)
    decreases |trees|
  {
    if trees == [] {
      quiet := [];
    } else {
      var first := QuietOf(trees[0], identity);
      var rest := QuietAll(trees[1..], identity);
      quiet := [first] + rest;
    }
  }

  lemma SameTreesForget(trees: seq<TreeStore<seq<Entry>>>, other: seq<TreeStore<seq<Entry>>>)
    requires |trees| == |other| && forall i :: 0 <= i < |trees| ==> UnorderedTree(other[i]) == UnorderedTree(trees[i])
    ensures UnorderedTrees(other) == UnorderedTrees(trees)
  {
    forall one | one in UnorderedTrees(trees) ensures one in UnorderedTrees(other) {
      var i :| 0 <= i < |trees| && UnorderedTree(trees[i]) == one;
      assert other[i] in other;
    }
    forall one | one in UnorderedTrees(other) ensures one in UnorderedTrees(trees) {
      var i :| 0 <= i < |other| && UnorderedTree(other[i]) == one;
      assert trees[i] in trees;
    }
  }

  /** Where the loose stores are quiet and no other names the conversation, the trees add a home at most. */
  lemma {:induction false} QuietTells(track: Track, trees: seq<TreeStore<seq<Entry>>>, identity: Path -> Ident, s: string)
    requires forall i :: 0 <= i < |trees| ==> Quiet(trees[i], identity)
    requires NamedFor(AllCleanSeen(UnorderedTrees(trees), identity), s) == {}
    ensures var after := TrackTrees(track, trees, identity, s);
      && after.tree == track.tree
      && (after.home <==> track.home || OnHome(s) in AllCleanSeen(UnorderedTrees(trees), identity))
    decreases |trees|
  {
    if trees == [] {
      assert AllCleanSeen(UnorderedTrees(trees), identity) == {};
    } else {
      var first, rest := UnorderedTree(trees[0]), UnorderedTrees(trees[1..]);
      SeenOfTrees(trees, identity, s);
      NamedForBoth(CleanSeen(first, identity), AllCleanSeen(rest, identity), s);
      TreeTells(track, trees[0], identity, s);
      LooseOrClean(first, identity);
      QuietTells(TrackTree(track, trees[0], identity, s), trees[1..], identity, s);
    }
  }

  lemma LooseOrClean(store: TreeStore<set<Entry>>, identity: Path -> Ident)
    ensures LooseSeen(store, identity) == {} || CleanSeen(store, identity) == {}
  {}

  function Rewalked(stores: Stores<seq<Entry>>, trees: seq<TreeStore<seq<Entry>>>): Stores<seq<Entry>>
    requires stores.walk.Walked?
  {
    stores.(walk := stores.walk.(trees := trees))
  }

  lemma RewalkedForgets(stores: Stores<seq<Entry>>, trees: seq<TreeStore<seq<Entry>>>)
    requires stores.walk.Walked? && UnorderedTrees(trees) == UnorderedTrees(stores.walk.trees)
    ensures Forget(Rewalked(stores, trees)) == Forget(stores)
  {}

  /** Some order gives the answer. */
  ghost predicate ComesOut(stores: Stores<seq<Entry>>, identity: Path -> Ident, s: string, answer: SessionTree) {
    exists other :: Forget(other) == Forget(stores) && Answer(other, identity, s) == answer
  }

  lemma LastTreeDecides(stores: Stores<seq<Entry>>, k: nat, store: TreeStore<seq<Entry>>, tree: Path,
                        identity: Path -> Ident, s: string)
    requires Reads(stores, identity) && k < |stores.walk.trees|
    requires UnorderedTree(store) == UnorderedTree(stores.walk.trees[k])
    requires forall track :: TrackTree(track, store, identity, s).tree == Some(tree)
    ensures ComesOut(stores, identity, s, OnTree(tree))
  {
    var trees := LastTree(stores.walk.trees, k, store);
    var other := Rewalked(stores, trees);
    LastTreeForgets(stores.walk.trees, k, store);
    RewalkedForgets(stores, trees);
    TrackLast(TrackEntries(NOTHING, EntriesOf(stores.global), identity, GLOBAL, s),
              stores.walk.trees[..k] + stores.walk.trees[k + 1..], store, identity, s);
    assert Answer(other, identity, s) == OnTree(tree);
  }

  /** The records of a tree's own store name that tree. */
  lemma OwnTree(store: TreeStore<set<Entry>>, identity: Path -> Ident, s: string, tree: Path)
    requires tree in NamedFor(CleanSeen(store, identity) + LooseSeen(store, identity), s)
    ensures store.jobs.OwnStore? && ScopeOf(store.tree, identity) == Some(tree)
  {
    var one :| one in CleanSeen(store, identity) + LooseSeen(store, identity) && NamesFor(one, s) && one.job.tree == tree;
    OwnersOnly(store.jobs.dir, identity, ScopeOf(store.tree, identity).value, store.isolated, one);
  }

  lemma LocalComesOut(stores: Stores<seq<Entry>>, identity: Path -> Ident, s: string, tree: Path)
    requires Reads(stores, identity)
    requires tree in NamedFor(AllCleanSeen(UnorderedTrees(stores.walk.trees), identity), s)
    ensures ComesOut(stores, identity, s, OnTree(tree))
  {
    var trees := stores.walk.trees;
    var one :| one in AllCleanSeen(UnorderedTrees(trees), identity) && NamesFor(one, s) && one.job.tree == tree;
    var k :| 0 <= k < |trees| && one in CleanSeen(UnorderedTree(trees[k]), identity);
    var store := UnorderedTree(trees[k]);
    assert tree in NamedFor(CleanSeen(store, identity), s);
    OwnTree(store, identity, s, tree);
    LooseOrClean(store, identity);
    forall track ensures TrackTree(track, trees[k], identity, s).tree == Some(tree) {
      TreeTells(track, trees[k], identity, s);
      OwnTree(store, identity, s, TrackTree(track, trees[k], identity, s).tree.value);
    }
    LastTreeDecides(stores, k, trees[k], tree, identity, s);
  }

  lemma LooseComesOut(stores: Stores<seq<Entry>>, identity: Path -> Ident, s: string, tree: Path)
    requires Reads(stores, identity)
    requires tree in NamedFor(AllLooseSeen(UnorderedTrees(stores.walk.trees), identity), s)
    ensures ComesOut(stores, identity, s, OnTree(tree))
  {
    var trees := stores.walk.trees;
    var one :| one in AllLooseSeen(UnorderedTrees(trees), identity) && NamesFor(one, s) && one.job.tree == tree;
    var k :| 0 <= k < |trees| && one in LooseSeen(UnorderedTree(trees[k]), identity);
    var store := NamingFirst(trees[k], one, identity, s);
    LastTreeDecides(stores, k, store, tree, identity, s);
  }

  /** A store read from the record that names the conversation on. */
  lemma NamingFirst(store: TreeStore<seq<Entry>>, one: Seen, identity: Path -> Ident, s: string)
    returns (arranged: TreeStore<seq<Entry>>)
    requires one in LooseSeen(UnorderedTree(store), identity) && NamesFor(one, s)
    ensures UnorderedTree(arranged) == UnorderedTree(store)
    ensures forall track :: TrackTree(track, arranged, identity, s).tree == Some(one.job.tree)
  {
    var tree := one.job.tree;
    OwnersOnly(UnorderedTree(store).jobs.dir, identity, ScopeOf(store.tree, identity).value, store.isolated, one);
    var entries, scope := store.jobs.dir.entries, Scope(Some(tree), store.isolated);
    var j :| 0 <= j < |entries| && See(entries[j], identity, scope) == one;
    arranged := WithEntries(store, ToFront(entries, j));
    FrontStore(store, j);
    forall track ensures TrackTree(track, arranged, identity, s).tree == Some(tree) {
      FrontNames(track, ToFront(entries, j), identity, scope, s, tree);
    }
  }

  lemma FrontNames(track: Track, entries: seq<Entry>, identity: Path -> Ident, scope: Scope, s: string, tree: Path)
    requires scope.owner == Some(tree) && entries != []
    requires NamesFor(See(entries[0], identity, scope), s) && See(entries[0], identity, scope).job.tree == tree
    ensures TrackEntries(track, entries, identity, scope, s).tree == Some(tree)
  {
    LooseTracks(Tracked(track, See(entries[0], identity, scope), s), entries[1..], identity, scope, s);
    var seen := SeenIn(Listed(Elements(entries[1..])), identity, scope);
    forall one | one in seen && NamesFor(one, s) ensures one.job.tree == tree {
      OwnersOnly(Listed(Elements(entries[1..])), identity, tree, scope.isolated, one);
    }
  }

  lemma {:induction false} EntriesSnoc(track: Track, entries: seq<Entry>, last: Entry, identity: Path -> Ident,
                                       scope: Scope, s: string)
    requires Fails !in SeenIn(Listed(Elements(entries + [last])), identity, scope)
    ensures TrackEntries(track, entries + [last], identity, scope, s)
         == Tracked(TrackEntries(track, entries, identity, scope, s), See(last, identity, scope), s)
    decreases |entries|
  {
    assert last in Elements(entries + [last]);
    if entries == [] {
      assert [last][1..] == [];
    } else {
      assert (entries + [last])[1..] == entries[1..] + [last];
      assert entries[0] in Elements(entries + [last]);
      assert Elements(entries[1..] + [last]) <= Elements(entries + [last]);
      EntriesSnoc(Tracked(track, See(entries[0], identity, scope), s), entries[1..], last, identity, scope, s);
    }
  }

  lemma GlobalComesOut(stores: Stores<seq<Entry>>, identity: Path -> Ident, s: string, tree: Path)
    requires Reads(stores, identity)
    requires NamedFor(AllCleanSeen(UnorderedTrees(stores.walk.trees), identity), s) == {}
    requires tree in NamedFor(SeenIn(Unordered(stores.global), identity, GLOBAL), s)
    ensures ComesOut(stores, identity, s, OnTree(tree))
  {
    var one :| one in SeenIn(Unordered(stores.global), identity, GLOBAL) && NamesFor(one, s) && one.job.tree == tree;
    var entries := stores.global.entries;
    var j :| 0 <= j < |entries| && See(entries[j], identity, GLOBAL) == one;
    MovedElements(entries, j);
    EntriesSnoc(NOTHING, entries[..j] + entries[j + 1..], entries[j], identity, GLOBAL, s);
    var quiet := QuietAll(stores.walk.trees, identity);
    SameTreesForget(stores.walk.trees, quiet);
    var other := Rewalked(stores, quiet).(global := Listed(ToBack(entries, j)));
    RewalkedForgets(stores, quiet);
    QuietTells(TrackEntries(NOTHING, ToBack(entries, j), identity, GLOBAL, s), quiet, identity, s);
    assert Forget(other) == Forget(stores) && Answer(other, identity, s) == OnTree(tree);
  }

  lemma NoTreeComesOut(stores: Stores<seq<Entry>>, identity: Path -> Ident, s: string)
    requires Reads(stores, identity)
    requires var seen := SeenIn(Unordered(stores.global), identity, GLOBAL);
      NamedFor(AllCleanSeen(UnorderedTrees(stores.walk.trees), identity), s) == {} && NamedFor(seen, s) == {}
    ensures var seen := SeenIn(Unordered(stores.global), identity, GLOBAL);
      var certain := OnHome(s) in seen + AllCleanSeen(UnorderedTrees(stores.walk.trees), identity);
      ComesOut(stores, identity, s, if certain then OnGlobal else Untracked)
  {
    var quiet := QuietAll(stores.walk.trees, identity);
    SameTreesForget(stores.walk.trees, quiet);
    var other := Rewalked(stores, quiet);
    RewalkedForgets(stores, quiet);
    SeenOfDir(stores.global, identity, GLOBAL);
    WholeTracks(NOTHING, EntriesOf(stores.global), identity, GLOBAL, s);
    QuietTells(TrackEntries(NOTHING, EntriesOf(stores.global), identity, GLOBAL, s), quiet, identity, s);
    assert Forget(other) == Forget(stores);
  }

  /** A store read up to a plain record of the conversation, and no further. */
  lemma HomeThenStop(store: TreeStore<seq<Entry>>, identity: Path -> Ident, s: string)
    returns (arranged: TreeStore<seq<Entry>>)
    requires OnHome(s) in LooseSeen(UnorderedTree(store), identity)
    ensures UnorderedTree(arranged) == UnorderedTree(store)
    ensures forall track :: TrackTree(track, arranged, identity, s) == track.(home := true)
  {
    var entries, scope := store.jobs.dir.entries, Scope(ScopeOf(store.tree, identity), store.isolated);
    var i :| 0 <= i < |entries| && See(entries[i], identity, scope) == Fails;
    var stopped := ToFront(entries, i);
    MovedElements(entries, i);
    assert exists entry :: entry in Elements(stopped) && See(entry, identity, scope) == OnHome(s);
    var j :| 0 <= j < |stopped| && See(stopped[j], identity, scope) == OnHome(s);
    var first := ToFront(stopped, j);
    MovedElements(stopped, j);
    arranged := WithEntries(store, first);
    assert first[0] == stopped[j] && first[1] == stopped[0];
    forall track ensures TrackTree(track, arranged, identity, s) == track.(home := true) {
      assert TrackEntries(track.(home := true), first[1..], identity, scope, s) == track.(home := true);
    }
  }

  lemma LooseHomeComesOut(stores: Stores<seq<Entry>>, identity: Path -> Ident, s: string)
    requires Reads(stores, identity)
    requires var seen := SeenIn(Unordered(stores.global), identity, GLOBAL);
      NamedFor(AllCleanSeen(UnorderedTrees(stores.walk.trees), identity), s) == {} && NamedFor(seen, s) == {}
    requires OnHome(s) in AllLooseSeen(UnorderedTrees(stores.walk.trees), identity)
    ensures ComesOut(stores, identity, s, OnGlobal)
  {
    var trees := stores.walk.trees;
    var k :| 0 <= k < |trees| && OnHome(s) in LooseSeen(UnorderedTree(trees[k]), identity);
    var store := HomeThenStop(trees[k], identity, s);
    var quiet := QuietAll(trees, identity);
    var rest := quiet[..k] + quiet[k + 1..];
    var walk := LastTree(quiet, k, store);
    SameTreesForget(trees, quiet);
    LastTreeForgets(quiet, k, store);
    RewalkedForgets(stores, walk);
    SeenOfDir(stores.global, identity, GLOBAL);
    WholeTracks(NOTHING, EntriesOf(stores.global), identity, GLOBAL, s);
    var track := TrackEntries(NOTHING, EntriesOf(stores.global), identity, GLOBAL, s);
    assert UnorderedTrees(rest) <= UnorderedTrees(walk);
    assert AllCleanSeen(UnorderedTrees(rest), identity) <= AllCleanSeen(UnorderedTrees(walk), identity);
    assert NamedFor(AllCleanSeen(UnorderedTrees(rest), identity), s) <= NamedFor(AllCleanSeen(UnorderedTrees(walk), identity), s);
    QuietTells(track, rest, identity, s);
    TrackLast(track, rest, store, identity, s);
    assert Answer(Rewalked(stores, walk), identity, s) == OnGlobal;
  }

  /** Every one of the answers comes out in some order. */
  lemma EachAnswerComesOut(stores: Stores<seq<Entry>>, identity: Path -> Ident, s: string, answer: SessionTree)
    requires answer in Answers(Forget(stores), identity, s)
    ensures ComesOut(stores, identity, s, answer)
  {
    if !Reads(stores, identity) {
      assert Answer(stores, identity, s) == answer;
    } else {
      var local := AllCleanSeen(UnorderedTrees(stores.walk.trees), identity);
      var loose := AllLooseSeen(UnorderedTrees(stores.walk.trees), identity);
      var global := SeenIn(Unordered(stores.global), identity, GLOBAL);
      if answer.OnTree? && answer.tree in NamedFor(loose, s) {
        LooseComesOut(stores, identity, s, answer.tree);
      } else if NamedFor(local, s) != {} {
        LocalComesOut(stores, identity, s, answer.tree);
      } else if NamedFor(global, s) != {} {
        GlobalComesOut(stores, identity, s, answer.tree);
      } else if answer.OnGlobal? && OnHome(s) !in global + local {
        LooseHomeComesOut(stores, identity, s);
      } else {
        NoTreeComesOut(stores, identity, s);
      }
    }
  }

  /* ---------- when the order does not matter ---------- */

  /** The tree of a conversation is the same in every order of the same listings exactly when there is one
      answer to give. */
  lemma SameInEveryOrderExactlyWhen(one: Stores<seq<Entry>>, identity: Path -> Ident, s: string)
    ensures (forall other :: Forget(one) == Forget(other) ==>
               SessionTreeOf(JobTreesOf(other, identity), s) == SessionTreeOf(JobTreesOf(one, identity), s))
      <==> Answers(Forget(one), identity, s) == {SessionTreeOf(JobTreesOf(one, identity), s)}
  {
    var answer := SessionTreeOf(JobTreesOf(one, identity), s);
    ReadAnswers(one, identity, s);
    AnswerIsOneOf(one, identity, s);
    if Answers(Forget(one), identity, s) == {answer} {
      forall other | Forget(one) == Forget(other) ensures SessionTreeOf(JobTreesOf(other, identity), s) == answer {
        ReadAnswers(other, identity, s);
        AnswerIsOneOf(other, identity, s);
      }
    } else {
      var different :| different in Answers(Forget(one), identity, s) && different != answer;
      EachAnswerComesOut(one, identity, s, different);
      var other :| Forget(other) == Forget(one) && Answer(other, identity, s) == different;
      ReadAnswers(other, identity, s);
    }
  }

  /** There is at most one tree among the records that count. */
  predicate AtMostOne(trees: set<Path>) {
    forall a, b :: a in trees && b in trees ==> a == b
  }

  /** Where every store reads whole, that is when the records that name the conversation name one tree: those
      of the trees' own stores, or those of the global store where no tree's own store has one. */
  lemma WholeStoresAgreeExactlyWhen(stores: SetStores, identity: Path -> Ident, s: string)
    requires stores.home && Fails !in SeenIn(stores.global, identity, GLOBAL) && stores.walk.Trees?
    requires AllLooseSeen(stores.walk.trees, identity) == {}
    ensures var local := NamedFor(AllCleanSeen(stores.walk.trees, identity), s);
      var global := NamedFor(SeenIn(stores.global, identity, GLOBAL), s);
      (exists answer :: Answers(stores, identity, s) == {answer})
      <==> if local != {} then AtMostOne(local) else AtMostOne(global)
  {
    var local := NamedFor(AllCleanSeen(stores.walk.trees, identity), s);
    var global := NamedFor(SeenIn(stores.global, identity, GLOBAL), s);
    var trees := if local != {} then local else global;
    assert NamedFor({}, s) == {};
    if trees == {} {
      assert exists answer :: Answers(stores, identity, s) == {answer} by {
        var home := OnHome(s) in SeenIn(stores.global, identity, GLOBAL) + AllCleanSeen(stores.walk.trees, identity);
        assert Answers(stores, identity, s) == {if home then OnGlobal else Untracked};
      }
    } else {
      assert Answers(stores, identity, s) == OnTrees(trees);
      var tree :| tree in trees;
      OneTreeOneAnswer(trees, tree);
    }
  }

  lemma OneTreeOneAnswer(trees: set<Path>, tree: Path)
    requires tree in trees
    ensures (exists answer :: OnTrees(trees) == {answer}) <==> AtMostOne(trees)
  {
    assert OnTree(tree) in OnTrees(trees);
    if AtMostOne(trees) {
      assert OnTrees(trees) == {OnTree(tree)};
    } else {
      var a, b :| a in trees && b in trees && a != b;
      assert OnTree(a) in OnTrees(trees) && OnTree(b) in OnTrees(trees);
    }
  }

  /** A store whose read may stop adds the tree it names to the answers, and leaves it open whether it is
      read: the order then matters unless every other answer is that tree too. */
  lemma LooseStoresAgreeExactlyWhen(stores: SetStores, identity: Path -> Ident, s: string)
    requires stores.home && Fails !in SeenIn(stores.global, identity, GLOBAL) && stores.walk.Trees?
    requires NamedFor(AllLooseSeen(stores.walk.trees, identity), s) != {}
    ensures var local := NamedFor(AllCleanSeen(stores.walk.trees, identity), s);
      var global := NamedFor(SeenIn(stores.global, identity, GLOBAL), s);
      var certain := if local != {} then local else global;
      (exists answer :: Answers(stores, identity, s) == {answer})
      <==> certain != {} && AtMostOne(certain + NamedFor(AllLooseSeen(stores.walk.trees, identity), s))
  {
    var loose := NamedFor(AllLooseSeen(stores.walk.trees, identity), s);
    var local := NamedFor(AllCleanSeen(stores.walk.trees, identity), s);
    var global := NamedFor(SeenIn(stores.global, identity, GLOBAL), s);
    var certain := if local != {} then local else global;
    var tree :| tree in loose;
    assert OnTree(tree) in OnTrees(loose);
    if certain == {} {
      var other := if OnHome(s) in SeenIn(stores.global, identity, GLOBAL) + AllCleanSeen(stores.walk.trees, identity)
                   then OnGlobal else Untracked;
      assert other in Answers(stores, identity, s) && OnTree(tree) in Answers(stores, identity, s);
    } else {
      assert Answers(stores, identity, s) == OnTrees(certain + loose);
      OneTreeOneAnswer(certain + loose, tree);
    }
  }
}
