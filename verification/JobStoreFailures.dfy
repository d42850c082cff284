/** The queries fail closed: whatever of the stores could not be read, what a whole reading would spare is
    spared. */
module JobStoreFailures {
  import opened Wrappers
  import opened JobStore
  import opened JobStoreTheorems

  /* ---------- the same stores, less of them read ---------- */

  /** An entry that could not be read, or whose record could not. */
  predicate Unread(entry: Entry) {
    entry.BadEntry? || (entry.JobDir? && entry.record.BadRecord?)
  }

  predicate DirFailsMore(less: Dir<set<Entry>>, more: Dir<set<Entry>>) {
    || less == more || less.CannotOpen?
    || (less.Listed? && exists entry :: entry in less.entries && Unread(entry))
  }

  predicate JobsFailMore(less: AtJobs<set<Entry>>, more: AtJobs<set<Entry>>) {
    || less == more || less.CannotStat?
    || (less.OwnStore? && more.OwnStore? && DirFailsMore(less.dir, more.dir))
  }

  /** The tree's store was read no better, or it lies in a profile directory that could not be listed. */
  predicate TreeFailsMore(store: TreeStore<set<Entry>>, trees: set<TreeStore<set<Entry>>>, profiles: set<Path>,
                          identity: Path -> Ident) {
    || (exists less :: less in trees && less.tree == store.tree && less.isolated == store.isolated
                       && JobsFailMore(less.jobs, store.jobs))
    || (exists profile :: profile in profiles && Inside(store.tree, profile, identity))
  }

  predicate Inside(tree: Path, profile: Path, identity: Path -> Ident) {
    var scope, above := ScopeOf(tree, identity), ScopeOf(profile, identity);
    scope.Some? ==> above.Some? && Under(scope.value, above.value)
  }

  /** `less` is a listing of the stores `more` lists whole, with more of them failing. */
  predicate FailsMore(less: SetStores, more: SetStores, identity: Path -> Ident) {
    && (less.home ==> more.home)
    && DirFailsMore(less.global, more.global)
    && (less.walk.Trees? ==>
          && more.walk.Trees? && more.walk.unreadable <= less.walk.unreadable
          && forall store :: store in more.walk.trees ==>
               TreeFailsMore(store, less.walk.trees, less.walk.unreadable, identity))
  }

  /* ---------- what is lost is covered ---------- */

  predicate Covered(path: Path, kept: set<Path>, scopes: set<UnreadableStore>) {
    path in kept || Affected(path, scopes)
  }

  /** Everything `more` has, `less` has, or has a scope it cannot see into over. */
  predicate KnowsLess(less: Reading, more: Reading) {
    less.Blind? ||
    (&& more.Sighted? && (more.midCreate ==> less.midCreate)
     && (forall path :: path in more.named ==> Covered(path, less.named, less.scopes))
     && (forall path :: path in more.unfinished ==> Covered(path, less.unfinished, less.scopes))
     && (forall store :: store in more.scopes ==> Affected(store.scope, less.scopes)))
  }

  lemma UnreadFails(dir: Dir<set<Entry>>, entry: Entry, identity: Path -> Ident, scope: Scope)
    requires dir.Listed? && entry in dir.entries && Unread(entry)
    ensures Fails in SeenIn(dir, identity, scope)
  {
    assert See(entry, identity, scope) == Fails;
  }

  lemma DirLosesAll(less: Dir<set<Entry>>, more: Dir<set<Entry>>, identity: Path -> Ident, scope: Scope)
    requires DirFailsMore(less, more) && less != more
    ensures Fails in SeenIn(less, identity, scope)
  {
    if !less.CannotOpen? {
      var entry :| entry in less.entries && Unread(entry);
      UnreadFails(less, entry, identity, scope);
    }
  }

  /** A tree whose own store names it, or fails, is named or under a scope in the lesser reading. */
  lemma TreeIsCovered(store: TreeStore<set<Entry>>, trees: set<TreeStore<set<Entry>>>, profiles: set<Path>,
                      identity: Path -> Ident)
    requires TreeFailsMore(store, trees, profiles, identity) && ScopeOf(store.tree, identity).Some?
    ensures var scope := ScopeOf(store.tree, identity).value;
      || Affected(scope, ProfileScopes(profiles, identity) + TreeScopes(trees, identity))
      || store in trees
  {
    var scope := ScopeOf(store.tree, identity).value;
    if profile :| profile in profiles && Inside(store.tree, profile, identity) {
      var failure := UnreadableStore(ScopeOf(profile, identity).value, profile, false);
      assert failure in Recorded(profile, profile, false, identity);
      assert failure in ProfileScopes(profiles, identity);
    } else {
      var less :| less in trees && less.tree == store.tree && less.isolated == store.isolated
                  && JobsFailMore(less.jobs, store.jobs);
      if less != store {
        LostTreeIsRecorded(less, store, identity);
        var failure := UnreadableStore(scope, JobsOf(less.tree), false);
        assert failure in TreeRecord(less.tree, less.jobs, less.isolated, identity);
        assert failure in TreeScopes(trees, identity);
      }
    }
  }

  lemma LostTreeIsRecorded(less: TreeStore<set<Entry>>, store: TreeStore<set<Entry>>, identity: Path -> Ident)
    requires less.tree == store.tree && less != store && less.isolated == store.isolated
    requires JobsFailMore(less.jobs, store.jobs) && ScopeOf(store.tree, identity).Some?
    ensures TreeRecord(less.tree, less.jobs, less.isolated, identity)
         == [UnreadableStore(ScopeOf(less.tree, identity).value, JobsOf(less.tree), false)]
  {
    if !less.jobs.CannotStat? {
      DirLosesAll(less.jobs.dir, store.jobs.dir, identity, Scope(ScopeOf(less.tree, identity), less.isolated));
    }
  }

  lemma CleanNamesItsTree(store: TreeStore<set<Entry>>, seen: Seen, identity: Path -> Ident)
    requires seen in CleanSeen(store, identity) && seen.Names?
    ensures ScopeOf(store.tree, identity) == Some(seen.job.tree)
  {
    OwnersOnly(store.jobs.dir, identity, ScopeOf(store.tree, identity).value, store.isolated, seen);
  }

  lemma ScopeIsItsTree(store: TreeStore<set<Entry>>, failure: UnreadableStore, identity: Path -> Ident)
    requires failure in TreeRecord(store.tree, store.jobs, store.isolated, identity)
    ensures ScopeOf(store.tree, identity) == Some(failure.scope)
  {}

  lemma NamedIsCovered(less: SetStores, more: SetStores, seen: Seen, identity: Path -> Ident)
    requires FailsMore(less, more, identity) && Known(less, identity).Sighted? && Known(more, identity).Sighted?
    requires seen.Names?
    requires seen in SeenIn(more.global, identity, GLOBAL) + AllCleanSeen(more.walk.trees, identity)
    ensures var known := Known(less, identity);
      && Covered(seen.job.tree, known.named, known.scopes)
      && (!seen.job.finished ==> Covered(seen.job.tree, known.unfinished, known.scopes))
  {
    var all := SeenIn(less.global, identity, GLOBAL) + AllCleanSeen(less.walk.trees, identity);
    if seen in SeenIn(more.global, identity, GLOBAL) {
      if less.global != more.global {
        DirLosesAll(less.global, more.global, identity, GLOBAL);
      }
      assert seen in all;
    } else {
      var store :| store in more.walk.trees && seen in CleanSeen(store, identity);
      CleanNamesItsTree(store, seen, identity);
      TreeIsCovered(store, less.walk.trees, less.walk.unreadable, identity);
      if store in less.walk.trees {
        assert seen in all;
      }
    }
  }

  lemma ScopeIsCovered(less: SetStores, more: SetStores, failure: UnreadableStore, identity: Path -> Ident)
    requires FailsMore(less, more, identity) && less.walk.Trees?
    requires failure in ProfileScopes(more.walk.unreadable, identity) + TreeScopes(more.walk.trees, identity)
    ensures Affected(failure.scope, ProfileScopes(less.walk.unreadable, identity) + TreeScopes(less.walk.trees, identity))
  {
    var scopes := ProfileScopes(less.walk.unreadable, identity) + TreeScopes(less.walk.trees, identity);
    if failure in ProfileScopes(more.walk.unreadable, identity) {
      assert failure in scopes;
    } else {
      var store :| store in more.walk.trees && failure in TreeRecord(store.tree, store.jobs, store.isolated, identity);
      ScopeIsItsTree(store, failure, identity);
      TreeIsCovered(store, less.walk.trees, less.walk.unreadable, identity);
      if store in less.walk.trees {
        assert failure in scopes;
      }
    }
  }

  /** Where more fails, less is known, and what is lost is under a scope. */
  lemma FailingKnowsLess(less: SetStores, more: SetStores, identity: Path -> Ident)
    requires FailsMore(less, more, identity)
    ensures KnowsLess(Known(less, identity), Known(more, identity))
  {
    var known, whole := Known(less, identity), Known(more, identity);
    if known.Sighted? {
      if less.global != more.global {
        DirLosesAll(less.global, more.global, identity, GLOBAL);
      }
      var seen := SeenIn(more.global, identity, GLOBAL) + AllCleanSeen(more.walk.trees, identity);
      forall path | path in whole.named ensures Covered(path, known.named, known.scopes) {
        var one :| one in seen && one.Names? && one.job.tree == path;
        NamedIsCovered(less, more, one, identity);
      }
      forall path | path in whole.unfinished ensures Covered(path, known.unfinished, known.scopes) {
        var one :| one in seen && one.Names? && !one.job.finished && one.job.tree == path;
        NamedIsCovered(less, more, one, identity);
      }
      forall failure | failure in whole.scopes ensures Affected(failure.scope, known.scopes) {
        ScopeIsCovered(less, more, failure, identity);
      }
    }
  }

  /* ---------- the queries ---------- */

  lemma CoveredStaysHeld(path: Path, less: set<Path>, more: set<Path>, scopes: set<UnreadableStore>,
                         known: set<UnreadableStore>, identity: Path -> Ident)
    requires forall id :: id in more ==> Covered(id, less, scopes)
    requires forall store :: store in known ==> Affected(store.scope, scopes)
    requires NamedOrAffected(path, more, known, identity)
    ensures NamedOrAffected(path, less, scopes, identity)
  {
    if identity(path).Resolved? {
      var id := identity(path).path;
      if store :| store in known && Under(id, store.scope) {
        var over :| over in scopes && Under(store.scope, over.scope);
        assert Under(id, over.scope);
      }
    }
  }

  lemma SparesWithLess(less: Reading, more: Reading, tree: Path, identity: Path -> Ident)
    requires KnowsLess(less, more)
    ensures Spares(more, tree, identity) ==> Spares(less, tree, identity)
    ensures UnfinishedNames(more, tree, identity) ==> UnfinishedNames(less, tree, identity)
  {
    if less.Sighted? {
      if NamedOrAffected(tree, more.named, more.scopes, identity) {
        CoveredStaysHeld(tree, less.named, more.named, less.scopes, more.scopes, identity);
      }
      if NamedOrAffected(tree, more.unfinished, more.scopes, identity) {
        CoveredStaysHeld(tree, less.unfinished, more.unfinished, less.scopes, more.scopes, identity);
      }
    }
  }

  /** A scope nothing is known of lies strictly above the directory. */
  predicate ScopeAbove(dir: Path, scopes: set<UnreadableStore>) {
    exists store :: store in scopes && Under(dir, store.scope) && store.scope != dir
  }

  lemma UnderOfUnder(path: Path, dir: Path, scope: Path)
    requires Under(path, dir) && Under(path, scope)
    ensures Under(scope, dir) || (Under(dir, scope) && dir != scope)
  {}

  lemma CoveredUnder(path: Path, dir: Path, less: set<Path>, scopes: set<UnreadableStore>)
    requires Covered(path, less, scopes) && Under(path, dir)
    requires !ScopeAbove(dir, scopes) && !HoldsScope(dir, scopes)
    ensures path in less
  {
    if store :| store in scopes && Under(path, store.scope) {
      UnderOfUnder(path, dir, store.scope);
    }
  }

  lemma UnderWithLess(less: Reading, more: Reading, dir: Path, identity: Path -> Ident)
    requires KnowsLess(less, more) && less.Sighted? && !less.midCreate
    requires identity(dir).Resolved? && !ScopeAbove(identity(dir).path, less.scopes)
    requires !HoldsScope(identity(dir).path, less.scopes)
    ensures SparesUnder(more, dir, identity) ==> SparesUnder(less, dir, identity)
    ensures UnfinishedUnder(more, dir, identity).Some?
      && UnfinishedUnder(more, dir, identity).value <= UnfinishedUnder(less, dir, identity).value
  {
    var id := identity(dir).path;
    assert !HoldsScope(id, more.scopes) by {
      if store :| store in more.scopes && Under(store.scope, id) {
        CoveredUnder(store.scope, id, {}, less.scopes);
      }
    }
    forall path | path in more.named && Under(path, id) ensures path in less.named {
      CoveredUnder(path, id, less.named, less.scopes);
    }
    forall path | path in more.unfinished && Under(path, id) ensures path in less.unfinished {
      CoveredUnder(path, id, less.unfinished, less.scopes);
    }
  }

  /** Whatever more of the stores fails to read, a tree a better reading spares is spared, and one it
      finds an unfinished job on is held. */
  lemma SparesFailsClosed(less: Stores<seq<Entry>>, more: Stores<seq<Entry>>, tree: Path, identity: Path -> Ident)
    requires FailsMore(Forget(less), Forget(more), identity)
    ensures var failed, whole := ReadingOf(JobTreesOf(less, identity)), ReadingOf(JobTreesOf(more, identity));
      && (Spares(whole, tree, identity) ==> Spares(failed, tree, identity))
      && (UnfinishedNames(whole, tree, identity) ==> UnfinishedNames(failed, tree, identity))
  {
    FailingKnowsLess(Forget(less), Forget(more), identity);
    SparesWithLess(Known(Forget(less), identity), Known(Forget(more), identity), tree, identity);
    SparesWhateverTheOrder(less, tree, identity);
    SparesWhateverTheOrder(more, tree, identity);
  }

  /** No better reading spares the directory where this one does not. */
  ghost predicate ClosedUnder(less: Reading, dir: Path, identity: Path -> Ident) {
    forall more :: KnowsLess(less, more) && SparesUnder(more, dir, identity) ==> SparesUnder(less, dir, identity)
  }

  /** The query on a directory fails closed exactly where it spares it, or the directory is gone, or does
      not lie inside a tree or profile directory that could not be read. (It is asked of profile
      directories alone.) */
  lemma SparesUnderFailsClosedExactlyWhen(less: Reading, dir: Path, identity: Path -> Ident)
    ensures ClosedUnder(less, dir, identity) <==>
      || SparesUnder(less, dir, identity) || !identity(dir).Resolved?
      || !ScopeAbove(identity(dir).path, less.scopes)
  {
    if !SparesUnder(less, dir, identity) && identity(dir).Resolved? {
      var id := identity(dir).path;
      if ScopeAbove(id, less.scopes) {
        var more := less.(named := less.named + {id});
        assert Affected(id, less.scopes);
        forall store | store in less.scopes ensures Affected(store.scope, less.scopes) {
          assert Under(store.scope, store.scope);
        }
        assert KnowsLess(less, more);
        assert Under(id, id) && NamedUnder(more.named, dir, identity);
        assert SparesUnder(more, dir, identity);
      } else {
        forall more | KnowsLess(less, more) ensures !SparesUnder(more, dir, identity) {
          UnderWithLess(less, more, dir, identity);
        }
      }
    } else if !SparesUnder(less, dir, identity) {
      forall more | KnowsLess(less, more) ensures !SparesUnder(more, dir, identity) {}
    }
  }

  /** A directory not inside such a tree is answered fail-closed by a whole read, and its unfinished trees
      are all there or the answer is refused. */
  lemma UnderFailsClosed(less: Stores<seq<Entry>>, more: Stores<seq<Entry>>, dir: Path, identity: Path -> Ident)
    requires FailsMore(Forget(less), Forget(more), identity)
    requires var failed := ReadingOf(JobTreesOf(less, identity));
      failed.Sighted? && identity(dir).Resolved? ==> !ScopeAbove(identity(dir).path, failed.scopes)
    ensures var failed, whole := ReadingOf(JobTreesOf(less, identity)), ReadingOf(JobTreesOf(more, identity));
      && (SparesUnder(whole, dir, identity) ==> SparesUnder(failed, dir, identity))
      && (var some, all := UnfinishedUnder(failed, dir, identity), UnfinishedUnder(whole, dir, identity);
          some.Some? ==> all.Some? && all.value <= some.value)
  {
    var known, better := Known(Forget(less), identity), Known(Forget(more), identity);
    FailingKnowsLess(Forget(less), Forget(more), identity);
    ReadIsClose(less, identity);
    SparesUnderWhateverTheOrder(less, dir, identity);
    SparesUnderWhateverTheOrder(more, dir, identity);
    if known.Sighted? && !known.midCreate && identity(dir).Resolved? && !HoldsScope(identity(dir).path, known.scopes) {
      UnderWithLess(known, better, dir, identity);
    }
  }

  /** A path whose canonical form cannot be told is spared wherever any form of it could be; one that is
      gone never is, but by a read that saw nothing or was caught mid-create. */
  lemma DoubtSpares(reading: Reading, path: Path, sure: Path -> Ident, unsure: Path -> Ident)
    requires unsure(path).Unclear?
    ensures Spares(reading, path, sure) ==> Spares(reading, path, unsure)
    ensures SparesUnder(reading, path, sure) ==> SparesUnder(reading, path, unsure)
    ensures UnfinishedNames(reading, path, sure) ==> UnfinishedNames(reading, path, unsure)
    ensures UnfinishedUnder(reading, path, unsure).None?
    ensures sure(path).Gone? && reading.Sighted? && !reading.midCreate ==>
      && !Spares(reading, path, sure) && !SparesUnder(reading, path, sure)
      && UnfinishedUnder(reading, path, sure) == Some({})
  {}
}
