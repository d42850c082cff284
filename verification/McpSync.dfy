/**
 * The sync of MCP-server logins across credential stores: the best login per server over all of
 * them, written into each.
 */
module McpSync {
  import opened Wrappers
  import opened Json
  import opened MapMerge
  import opened TokenMerge

  const MCP_OAUTH_KEY := "mcpOAuth"

  /** A store's logins per server. */
  function Entries(store: Json): map<string, Json> {
    match store.Get(MCP_OAUTH_KEY)
    case Some(Obj(entries)) => entries
    case _ => map[]
  }

  /* ---------- the winners ---------- */

  /** The logins of a store that can authenticate. */
  function UsableEntries(store: Json): map<string, Json> {
    Where(Entries(store), Usable)
  }

  /** The best copy per server over the sources, the later one's on a tie. */
  function Winners(sources: seq<Json>): map<string, Json> {
    if sources == [] then map[]
    else Merged(Winners(sources[..|sources| - 1]), UsableEntries(sources[|sources| - 1]), Pick)
  }

  /** One more usable copy of a server: it replaces the winner unless the winner stays. */
  method ConsiderCopy(winners: map<string, Json>, server: string, entry: Json) returns (after: map<string, Json>)
    requires Usable(entry)
    ensures after == winners[server := Kept(winners, server, entry, Pick)]
  {
    if server in winners {
      UsableIsToken(entry);
      FresherCopyCases(winners[server], entry);
      var kept := FresherCopy(winners[server], entry);
      if kept != entry {
        assert winners[server := winners[server]] == winners;
        return winners;
      }
    }
    return winners[server := entry];
  }

  /** One more source: each of its usable copies is considered. */
  method ConsiderSource(before: map<string, Json>, entries: map<string, Json>) returns (winners: map<string, Json>)
    ensures winners == Merged(before, Where(entries, Usable), Pick)
  {
    winners := before;
    var todo := entries.Keys;
    while todo != {}
      invariant todo <= entries.Keys
      invariant winners == Merged(before, Where(entries - todo, Usable), Pick)
      decreases todo
    {
      var server :| server in todo;
      var entry := entries[server];
      WhereOneMore(entries, todo, Usable, server);
      if Usable(entry) {
        MergeOneKey(before, Where(entries - todo, Usable), Pick, server, entry);
        winners := ConsiderCopy(winners, server, entry);
      }
      todo := todo - {server};
    }
    assert entries - todo == entries;
  }

  method McpSyncWinners(sources: seq<Json>) returns (winners: map<string, Json>)
    ensures winners == Winners(sources)
  {
    winners := map[];
    for i := 0 to |sources|
      invariant winners == Winners(sources[..i])
    {
      winners := ConsiderSource(winners, Entries(sources[i]));
      assert sources[..i + 1][..i] == sources[..i];
    }
    assert sources[..|sources|] == sources;
  }

  /* ---------- applying them ---------- */

  /** A store the sync can merge into. */
  predicate Mergeable(store: Json) {
    store.Obj? && (MCP_OAUTH_KEY in store.fields ==> store.fields[MCP_OAUTH_KEY].Obj?)
  }

  function AppliedEntries(entries: map<string, Json>, winners: map<string, Json>): map<string, Json> {
    Merged(entries, winners, FresherCopyOf)
  }

  function Applied(target: Json, winners: map<string, Json>): Json {
    if !Mergeable(target) || AppliedEntries(Entries(target), winners) == Entries(target) then target
    else Obj(target.fields[MCP_OAUTH_KEY := Obj(AppliedEntries(Entries(target), winners))])
  }

  /** A store that is no object, or whose MCP logins are none, is left as it is. */
  lemma OddStoreIsLeft(target: Json, winners: map<string, Json>)
    requires !target.Obj? || ("mcpOAuth" in target.fields && !target.fields["mcpOAuth"].Obj?)
    ensures Applied(target, winners) == target
  {}

  /** Write the winners into one target, naming the servers it changed. */
  method McpSyncApply(target: Json, winners: map<string, Json>) returns (after: Json, changed: set<string>)
    ensures after == Applied(target, winners)
    ensures changed == Changed(Entries(target), Entries(after))
  {
    if !Mergeable(target) {
      return target, {};
    }
    var entries;
    entries, changed := ApplyEntries(Entries(target), winners);
    NothingChanged(Entries(target), entries);
    if changed != {} {
      after := Obj(target.fields[MCP_OAUTH_KEY := Obj(entries)]);
      assert Entries(after) == entries;
      return after, changed;
    }
    return target, changed;
  }

  /** One server of one target: the winner, unless the target's own copy stays. */
  method ApplyWinner(entries: map<string, Json>, server: string, winner: Json)
    returns (after: map<string, Json>, moved: bool)
    ensures after == entries[server := Kept(entries, server, winner, FresherCopyOf)]
    ensures moved <==> Lookup(entries, server) != Some(Kept(entries, server, winner, FresherCopyOf))
  {
    var kept := winner;
    if server in entries {
      kept := FresherCopy(entries[server], winner);
    }
    moved := Lookup(entries, server) != Some(kept);
    after := entries[server := kept];
  }

  method ApplyEntries(entries0: map<string, Json>, winners: map<string, Json>)
    returns (entries: map<string, Json>, changed: set<string>)
    ensures entries == AppliedEntries(entries0, winners)
    ensures changed == Changed(entries0, entries)
  {
    entries, changed := entries0, {};
    var todo := winners.Keys;
    while todo != {}
      invariant todo <= winners.Keys
      invariant entries == Merged(entries0, winners - todo, FresherCopyOf)
      invariant changed == Changed(entries0, entries)
      decreases todo
    {
      var server :| server in todo;
      MergeOneMore(entries0, winners, todo, FresherCopyOf, server);
      ChangedOneMore(entries0, entries, server, Kept(entries0, server, winners[server], FresherCopyOf));
      var moved;
      entries, moved := ApplyWinner(entries, server, winners[server]);
      if moved {
        changed := changed + {server};
      }
      todo := todo - {server};
    }
    assert winners - todo == winners;
  }

  /* ---------- convergence ---------- */

  /** Whether a source holds this usable copy of a server. */
  predicate HoldsUsable(source: Json, server: string, entry: Json) {
    Lookup(UsableEntries(source), server) == Some(entry)
  }

  lemma WinnerStep(sources: seq<Json>, server: string)
    requires sources != []
    ensures var before, last := Winners(sources[..|sources| - 1]), UsableEntries(sources[|sources| - 1]);
      Lookup(Winners(sources), server) ==
      if server in last then Some(Kept(before, server, last[server], Pick)) else Lookup(before, server)
  {}

  /** A winner is one of the usable copies. */
  lemma {:induction false} WinnerIsHeld(sources: seq<Json>, server: string) returns (i: nat)
    requires server in Winners(sources)
    ensures i < |sources| && HoldsUsable(sources[i], server, Winners(sources)[server])
  {
    var last := |sources| - 1;
    WinnerStep(sources, server);
    if HoldsUsable(sources[last], server, Winners(sources)[server]) {
      i := last;
    } else {
      i := WinnerIsHeld(sources[..last], server);
    }
  }

  /** A server some source holds a usable copy of has a winner, which ranks no lower. */
  lemma {:induction false} WinnerIsBest(sources: seq<Json>, server: string, i: nat)
    requires i < |sources| && server in UsableEntries(sources[i])
    ensures server in Winners(sources)
    ensures !Below(Winners(sources)[server], UsableEntries(sources[i])[server])
  {
    var last := |sources| - 1;
    WinnerStep(sources, server);
    if i < last {
      WinnerIsBest(sources[..last], server, i);
    }
  }

  /** The stores after one pass. */
  function Synced(stores: seq<Json>): seq<Json> {
    seq(|stores|, i requires 0 <= i < |stores| => Applied(stores[i], Winners(stores)))
  }

  lemma AppliedEntriesHold(target: Json, winners: map<string, Json>)
    requires Mergeable(target)
    ensures Entries(Applied(target, winners)) == AppliedEntries(Entries(target), winners)
    ensures Mergeable(Applied(target, winners))
    ensures forall key :: key != MCP_OAUTH_KEY ==> Applied(target, winners).Get(key) == target.Get(key)
  {}

  /** Over a copy it took part against, a winner always lands. */
  lemma WinnerLands(stores: seq<Json>, i: nat, server: string)
    requires i < |stores| && server in Winners(stores) && server in Entries(stores[i])
    ensures FresherCopyOf(Entries(stores[i])[server], Winners(stores)[server]) == Winners(stores)[server]
  {
    var held, winner := Entries(stores[i])[server], Winners(stores)[server];
    var from := WinnerIsHeld(stores, server);
    UsableIsToken(winner);
    FresherCopyCases(held, winner);
    if Usable(held) {
      WinnerIsBest(stores, server, i);
    }
  }

  /** A store that took part in the pass ends with the winner under every server that has one, and
      with what it had under every other. */
  lemma SyncedEntry(stores: seq<Json>, i: nat, server: string)
    requires i < |stores| && Mergeable(stores[i])
    ensures Lookup(Entries(Synced(stores)[i]), server) ==
      if server in Winners(stores) then Some(Winners(stores)[server]) else Lookup(Entries(stores[i]), server)
  {
    AppliedEntriesHold(stores[i], Winners(stores));
    MergedAt(Entries(stores[i]), Winners(stores), FresherCopyOf, server);
    if server in Winners(stores) && server in Entries(stores[i]) {
      WinnerLands(stores, i, server);
    }
  }

  /** One pass over stores the sync can merge into converges: every store ends with the same copy
      of every server any of them held a usable copy of, one no such copy outranks. */
  lemma OnePassConverges(stores: seq<Json>, server: string, i: nat, j: nat)
    requires forall k :: 0 <= k < |stores| ==> Mergeable(stores[k])
    requires i < |stores| && j < |stores| && server in UsableEntries(stores[i])
    ensures Lookup(Entries(Synced(stores)[j]), server) == Lookup(Entries(Synced(stores)[i]), server)
    ensures server in Entries(Synced(stores)[j])
    ensures !Below(Entries(Synced(stores)[j])[server], Entries(stores[i])[server])
  {
    WinnerIsBest(stores, server, i);
    SyncedEntry(stores, i, server);
    SyncedEntry(stores, j, server);
  }

  /** Nothing else of any store changes: no other key, and no server without a usable copy. */
  lemma PassTouchesNothingElse(stores: seq<Json>, i: nat, server: string, key: string)
    requires forall k :: 0 <= k < |stores| ==> Mergeable(stores[k])
    requires i < |stores|
    ensures key != MCP_OAUTH_KEY ==> Synced(stores)[i].Get(key) == stores[i].Get(key)
    ensures (forall k :: 0 <= k < |stores| ==> server !in UsableEntries(stores[k])) ==>
      Lookup(Entries(Synced(stores)[i]), server) == Lookup(Entries(stores[i]), server)
    ensures Mergeable(Synced(stores)[i])
  {
    AppliedEntriesHold(stores[i], Winners(stores));
    SyncedEntry(stores, i, server);
    if server in Winners(stores) {
      var from := WinnerIsHeld(stores, server);
      assert server in UsableEntries(stores[from]);
    }
  }

  /** The pass changes no winner. */
  lemma WinnerStays(stores: seq<Json>, server: string)
    requires forall i :: 0 <= i < |stores| ==> Mergeable(stores[i])
    ensures Lookup(Winners(Synced(stores)), server) == Lookup(Winners(stores), server)
  {
    var synced := Synced(stores);
    if server in Winners(stores) {
      var i := WinnerIsHeld(stores, server);
      SyncedEntry(stores, i, server);
      WinnerIsBest(synced, server, i);
      var j := WinnerIsHeld(synced, server);
      SyncedEntry(stores, j, server);
    } else if server in Winners(synced) {
      var j := WinnerIsHeld(synced, server);
      SyncedEntry(stores, j, server);
      WinnerIsBest(stores, server, j);
    }
  }

  lemma WinnersStay(stores: seq<Json>)
    requires forall i :: 0 <= i < |stores| ==> Mergeable(stores[i])
    ensures Winners(Synced(stores)) == Winners(stores)
  {
    forall server ensures Lookup(Winners(Synced(stores)), server) == Lookup(Winners(stores), server) {
      WinnerStays(stores, server);
    }
    EqualByLookup(Winners(Synced(stores)), Winners(stores));
  }

  /** A second pass writes nothing. */
  lemma SecondPassWritesNothing(stores: seq<Json>)
    requires forall i :: 0 <= i < |stores| ==> Mergeable(stores[i])
    ensures Synced(Synced(stores)) == Synced(stores)
  {
    WinnersStay(stores);
    var synced, winners := Synced(stores), Winners(stores);
    forall i | 0 <= i < |stores| ensures Applied(synced[i], winners) == synced[i] {
      SecondApplyWritesNothing(stores, i);
    }
  }

  lemma SecondApplyWritesNothing(stores: seq<Json>, i: nat)
    requires i < |stores| && Mergeable(stores[i])
    ensures Applied(Synced(stores)[i], Winners(stores)) == Synced(stores)[i]
  {
    var entries, winners := Entries(Synced(stores)[i]), Winners(stores);
    forall server ensures Lookup(AppliedEntries(entries, winners), server) == Lookup(entries, server) {
      MergedAt(entries, winners, FresherCopyOf, server);
      SyncedEntry(stores, i, server);
      if server in winners {
        Idempotent(winners[server]);
      }
    }
    EqualByLookup(AppliedEntries(entries, winners), entries);
  }
}
