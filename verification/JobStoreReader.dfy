/** The job-store read as it runs: loops over directory entries that fill the sets and stop at the
    first entry that fails. */
module JobStoreReader {
  import opened Wrappers
  import opened JobStore

  /** Classify a job directory that has no record. */
  method RecordlessJobDir(listing: Listing) returns (kind: Option<Recordless>)
    ensures kind == RecordlessOf(listing)
  {
    if listing.Unlistable? {
      return None;
    }
    var items := listing.items;
    var seen, leftover, midCreate := false, true, true;
    for i := 0 to |items|
      invariant seen <==> i > 0
      invariant forall j :: 0 <= j < i ==> !ItemFails(items[j])
      invariant leftover <==> forall j :: 0 <= j < i ==> LeftoverItem(items[j])
      invariant midCreate <==> forall j :: 0 <= j < i ==> StagedItem(items[j])
    {
      if items[i].BadItem? {
        assert items[i] in Elements(items);
        return None;
      }
      seen := true;
      var name, file := items[i].name, items[i].kind;
      if name == TMP {
        if file == Directory(UnlistableDir) {
          assert items[i] in Elements(items);
          return None;
        }
        if file != Directory(EmptyDir) {
          leftover := false;
        }
      } else if name == EXIT_CAUSE {
        if !file.RegularFile? {
          leftover := false;
        }
      } else {
        leftover := false;
      }
      if !(STAGED_RECORD <= name && file.RegularFile?) {
        midCreate := false;
      }
    }
    KindByItems(items, seen, leftover, midCreate);
    if seen && leftover {
      return Some(Removed);
    }
    kind := if midCreate then Some(MidCreate) else Some(Unknown);
  }

  lemma KindByItems(items: seq<Item>, seen: bool, leftover: bool, midCreate: bool)
    requires forall j :: 0 <= j < |items| ==> !ItemFails(items[j])
    requires seen <==> |items| > 0
    requires leftover <==> forall j :: 0 <= j < |items| ==> LeftoverItem(items[j])
    requires midCreate <==> forall j :: 0 <= j < |items| ==> StagedItem(items[j])
    ensures RecordlessKind(Elements(items)) ==
      if seen && leftover then Some(Removed) else if midCreate then Some(MidCreate) else Some(Unknown)
  {
    assert forall j :: 0 <= j < |items| ==> items[j] in Elements(items);
    assert seen <==> Elements(items) != {} by {
      if |items| > 0 {
        assert items[0] in Elements(items);
      }
    }
  }

  /** The sets one read fills. */
  class NamedTrees {
    var named: set<Path>
    var namedByJob: set<(Path, string)>
    var unfinished: set<Path>
    var unfinishedByJob: set<(Path, string)>
    var treeBySession: map<string, Path>
    var globalSessions: set<string>
    var namedSettings: set<Path>
    var unknownFlagsTrees: set<Path>

    function View(): Sets
      reads this
    {
      Sets(named, namedByJob, unfinished, unfinishedByJob, treeBySession, globalSessions, namedSettings,
           unknownFlagsTrees)
    }

    constructor ()
      ensures View() == NO_SETS
    {
      named, namedByJob, unfinished, unfinishedByJob := {}, {}, {}, {};
      treeBySession, globalSessions, namedSettings, unknownFlagsTrees := map[], {}, {}, {};
    }

    method AddJob(tree: Path, id: Option<string>, state: JobState, finished: bool, identity: Path -> Ident)
      modifies this
      ensures View() == WithJob(old(View()), Job(tree, finished, id, state.sessionId, FilesNamed(state.flags, identity),
                                                 FlagsUnclear(state.flags, identity)))
    {
      named := named + {tree};
      if !finished {
        unfinished := unfinished + {tree};
      }
      if id.Some? {
        namedByJob := namedByJob + {(tree, id.value)};
        if !finished {
          unfinishedByJob := unfinishedByJob + {(tree, id.value)};
        }
      }
      if state.sessionId != "" {
        treeBySession := treeBySession[state.sessionId := tree];
      }
      AddFlags(tree, state.flags, identity);
    }

    method AddFlags(tree: Path, flags: Flags, identity: Path -> Ident)
      modifies this
      ensures View() == old(View()).(
        namedSettings := old(namedSettings) + FilesNamed(flags, identity),
        unknownFlagsTrees := if FlagsUnclear(flags, identity) then old(unknownFlagsTrees) + {tree}
                             else old(unknownFlagsTrees))
    {
      if flags.UnknownFlags? {
        unknownFlagsTrees := unknownFlagsTrees + {tree};
      }
      if !flags.Named? {
        return;
      }
      var values := flags.values;
      for i := 0 to |values|
        invariant View() == old(View()).(
          namedSettings := old(namedSettings) + FilesNamed(Named(values[..i]), identity),
          unknownFlagsTrees := if FlagsUnclear(Named(values[..i]), identity) then old(unknownFlagsTrees) + {tree}
                               else old(unknownFlagsTrees))
      {
        OneMoreValue(values, i, identity);
        if values[i].AtPath? {
          match identity(values[i].path) {
            case Resolved(file) => namedSettings := namedSettings + {file};
            case Gone =>
            case Unclear => unknownFlagsTrees := unknownFlagsTrees + {tree};
          }
        }
      }
      assert values[..|values|] == values;
    }

    /** Read one store; none when an entry, or the store itself, cannot be read. */
    method ReadJobsDir(dir: Dir<seq<Entry>>, identity: Path -> Ident, scope: Scope) returns (midCreate: Option<bool>)
      modifies this
      ensures midCreate == Verdict(SeenIn(Unordered(dir), identity, scope))
      ensures View() == Gathered(old(View()), EntriesOf(dir), identity, scope)
    {
      if dir.NoDir? {
        return Some(false);
      }
      if dir.CannotOpen? {
        return None;
      }
      var entries := dir.entries;
      var creating := false;
      for i := 0 to |entries|
        invariant forall j :: 0 <= j < i ==> See(entries[j], identity, scope) != Fails
        invariant creating <==> exists j :: 0 <= j < i && See(entries[j], identity, scope) == Creating
        invariant Gathered(old(View()), entries, identity, scope) == Gathered(View(), entries[i..], identity, scope)
      {
        var entry := entries[i];
        ghost var rest := entries[i..];
        assert rest[0] == entry && rest[1..] == entries[i + 1..];
        assert entry in Elements(entries);
        if entry.BadEntry? {
          return None;
        }
        if entry.NotDir? {
          continue;
        }
        match entry.record {
          case BadRecord => return None;
          case NoRecord(listing) =>
            var kind := RecordlessJobDir(listing);
            if kind.None? || kind.value.Unknown? {
              return None;
            }
            if kind.value.MidCreate? {
              creating := true;
            }
          case Parsed(state) =>
            var read := ReadRecord(entry.id, state, identity, scope);
            if !read {
              return None;
            }
        }
      }
      SeenOfAll(entries, identity, scope);
      midCreate := Some(creating);
    }

    method ReadRecord(id: Option<string>, state: JobState, identity: Path -> Ident, scope: Scope) returns (ok: bool)
      modifies this
      ensures var seen := SeeState(id, state, identity, scope);
        View() == WithSeen(old(View()), seen) && (ok <==> seen != Fails) && seen != Creating
    {
      if state.configDir.None? {
        if state.sessionId != "" {
          globalSessions := globalSessions + {state.sessionId};
        }
        return true;
      }
      match identity(state.configDir.value) {
        case Gone => return true;
        case Unclear => return false;
        case Resolved(tree) =>
          if scope.owner.Some? && tree != scope.owner.value {
            return true;
          }
          var finished := state.state in FINISHED_STATES;
          if scope.isolated && finished {
            return true;
          }
          AddJob(tree, id, state, finished, identity);
          ok := true;
      }
    }
  }

  lemma OneMoreValue(values: seq<FlagValue>, i: nat, identity: Path -> Ident)
    requires i < |values|
    ensures FilesNamed(Named(values[..i + 1]), identity) == FilesNamed(Named(values[..i]), identity) +
      (if values[i].AtPath? && identity(values[i].path).Resolved? then {identity(values[i].path).path} else {})
    ensures FlagsUnclear(Named(values[..i + 1]), identity) <==>
      FlagsUnclear(Named(values[..i]), identity) || ValueUnclear(values[i], identity)
  {}

  lemma SeenOfAll(entries: seq<Entry>, identity: Path -> Ident, scope: Scope)
    ensures forall seen :: seen in SeenIn(Listed(Elements(entries)), identity, scope) <==>
      exists j :: 0 <= j < |entries| && See(entries[j], identity, scope) == seen
  {}

  /** One read of every store. */
  method ReadAll(stores: Stores<seq<Entry>>, identity: Path -> Ident) returns (trees: JobTrees)
    ensures trees == JobTreesOf(stores, identity)
  {
    if !stores.home {
      return Unreadable(GLOBAL_STORE);
    }
    var sets := new NamedTrees();
    var midCreate := sets.ReadJobsDir(stores.global, identity, GLOBAL);
    if midCreate.None? {
      return Unreadable(GLOBAL_STORE);
    }
    if stores.walk.CannotWalk? {
      return Unreadable(stores.walk.root);
    }
    ghost var first := sets.View();
    var unreadable := ReadProfiles(stores.walk.unreadable, identity);
    var found := stores.walk.trees;
    for i := 0 to |found|
      invariant AllTreeSets(first, found, identity) == AllTreeSets(sets.View(), found[i..], identity)
      invariant unreadable + AllTreeRecords(found[i..], identity) ==
        ProfileRecords(stores.walk.unreadable, identity) + AllTreeRecords(found, identity)
    {
      assert found[i..][0] == found[i] && found[i..][1..] == found[i + 1..];
      var record := ReadTree(found[i], identity, sets);
      unreadable := unreadable + record;
    }
    trees := Snapshot(sets.View(), unreadable, midCreate.value);
  }

  method ReadProfiles(profiles: seq<Path>, identity: Path -> Ident) returns (unreadable: seq<UnreadableStore>)
    ensures unreadable == ProfileRecords(profiles, identity)
  {
    unreadable := [];
    for i := 0 to |profiles|
      invariant unreadable + ProfileRecords(profiles[i..], identity) == ProfileRecords(profiles, identity)
    {
      assert profiles[i..][0] == profiles[i] && profiles[i..][1..] == profiles[i + 1..];
      unreadable := unreadable + Recorded(profiles[i], profiles[i], false, identity);
    }
  }

  /** One runtime tree's own store, where it has one; what could not be read is recorded. */
  method ReadTree(store: TreeStore<seq<Entry>>, identity: Path -> Ident, sets: NamedTrees)
    returns (record: seq<UnreadableStore>)
    modifies sets
    ensures record == RecordOf(store, identity)
    ensures sets.View() == TreeSets(old(sets.View()), store, identity)
  {
    match store.jobs {
      case Absent => record := [];
      case LinkedStore => record := [];
      case NotAStore => record := Recorded(store.tree, JobsOf(store.tree), false, identity);
      case CannotStat => record := Recorded(store.tree, JobsOf(store.tree), false, identity);
      case OwnStore(dir) =>
        var owner := ScopeOf(store.tree, identity);
        if owner.None? {
          return [];
        }
        var midCreate := sets.ReadJobsDir(dir, identity, Scope(owner, store.isolated));
        record := if midCreate == Some(false) then []
                  else Recorded(store.tree, JobsOf(store.tree), midCreate == Some(true), identity);
    }
  }
}
