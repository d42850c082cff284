/** What no interleaving of the item's writers with other processes and Claude Code can lose. */
module BareItemTheorems {
  import opened Wrappers
  import opened Json
  import opened Credentials
  import opened NonLoginKeys
  import opened BareItem
  import opened BareItemMachine

  /* ---------- the carry ---------- */

  /** The two token fields of a login block that parsed are the ones read out of it. */
  lemma PairFields(item: Json)
    requires ItemPair(item).Some?
    ensures LoginField(item, "refreshToken") == ItemPair(item).value.refreshToken
    ensures RefreshToken(item) == ItemPair(item).value.refreshToken
    ensures LoginField(item, "accessToken") == Some(ItemPair(item).value.accessToken)
  {}

  /** A saved login is the one its owner's file now reads as, so the guard lets the item go without
      any placement; every other file, and every other key of that one, is as it was. */
  lemma SavedIsHeld(disk: Disk, owner: Name, account: nat, item: Json)
    requires CarryOf(disk, owner, account, item) == Saved
    ensures var after := CarryDisk(disk, owner, account, item);
      && owner in after.credentials && ReadLogin(after.credentials[owner]) == Login(ItemPair(item).value)
      && after == disk.(credentials := after.credentials)
      && (forall name :: name != owner ==> Lookup(after.credentials, name) == Lookup(disk.credentials, name))
      && (forall key :: key != LOGIN_KEY && StoreJson(disk.credentials, owner).Some? ==>
            StoreJson(after.credentials, owner).value.Get(key) == StoreJson(disk.credentials, owner).value.Get(key))
  {
    var store := StoreJson(disk.credentials, owner);
    if SameLogin(item, store) {
      SameBlockSameLogin(Doc(store.value), Doc(item));
    } else {
      RewrittenLogin(ItemPair(item).value, store);
    }
  }

  lemma SavedNeedsNoPlacement(disk: Disk, owner: Name, account: nat, item: Json)
    requires CarryOf(disk, owner, account, item) == Saved
    ensures NothingToStrand(CarryDisk(disk, owner, account, item), item)
  {
    var after := CarryDisk(disk, owner, account, item);
    SavedIsHeld(disk, owner, account, item);
    PairFields(item);
    if AccessToken(item).Some? {
      var id := ItemIdentity(item).value;
      ReadLoginField(after.credentials[owner]);
      assert ProfileHolds(after, owner, id);
      assert owner in Holders(after, id);
    }
  }

  lemma ReadLoginField(content: Content)
    requires ReadLogin(content).Login?
    ensures LoginField(content.json, "refreshToken") == ReadLogin(content).oauth.refreshToken
  {}

  /* ---------- one chain, one store ---------- */

  /** No two rostered profiles' files hold one refresh token. */
  ghost predicate ChainsApart(disk: Disk) {
    forall a, b, refresh ::
      (a in disk.Searched() && b in disk.Searched() && refresh != ""
       && HoldsChain(disk.credentials, a, refresh) && HoldsChain(disk.credentials, b, refresh)) ==> a == b
  }

  /** A carry never puts one rotating chain into two profiles' stores. */
  lemma CarryKeepsChainsApart(disk: Disk, owner: Name, account: nat, item: Json)
    requires ChainsApart(disk)
    ensures ChainsApart(CarryDisk(disk, owner, account, item))
  {
    var after := CarryDisk(disk, owner, account, item);
    if after != disk {
      SavedIsHeld(disk, owner, account, item);
      var refresh := ItemPair(item).value.refreshToken.value;
      forall name, token | name != owner ensures HoldsChain(after.credentials, name, token) <==> HoldsChain(disk.credentials, name, token) {
        assert Lookup(after.credentials, name) == Lookup(disk.credentials, name);
      }
      forall name | name in disk.Searched() && name != owner && HoldsChain(disk.credentials, name, refresh)
        ensures false
      {
        NotElsewhere(disk, owner, refresh, name);
      }
    }
  }

  lemma NotElsewhere(disk: Disk, owner: Name, refresh: string, name: Name)
    requires ChainsApart(disk) && refresh != ""
    requires owner in disk.Searched() && !ChainHeldElsewhere(disk.Searched(), disk.credentials, owner, refresh)
    requires name in disk.Searched() && name != owner
    ensures !HoldsChain(disk.credentials, name, refresh)
  {}

  /* ---------- a login the store was given ---------- */

  /** When the login a file reads as expires, none and no login reading as zero. */
  function LoginExpiry(files: map<Name, Content>, name: Name): int {
    if name in files && ReadLogin(files[name]).Login? then ReadLogin(files[name]).oauth.expiresAt.GetOr(0) else 0
  }

  /** A carry writes over a store only where that reads as no login, or as one that expires strictly earlier
      than the item's rotating pair. */
  lemma CarryOverwritesOlder(disk: Disk, owner: Name, account: nat, item: Json)
    requires CarryDisk(disk, owner, account, item) != disk
    ensures var carried := ReadLogin(Doc(item));
      && carried.Login? && carried.oauth.refreshToken.Some? && carried.oauth.refreshToken.value != ""
      && LoginExpiry(disk.credentials, owner) < carried.oauth.expiresAt.GetOr(0)
  {}

  /** No carry lowers when any profile's stored login expires. */
  lemma CarryNeverLowersExpiry(disk: Disk, owner: Name, account: nat, item: Json, name: Name)
    ensures LoginExpiry(CarryDisk(disk, owner, account, item).credentials, name) >= LoginExpiry(disk.credentials, name)
  {
    if CarryDisk(disk, owner, account, item) != disk {
      CarryOverwritesOlder(disk, owner, account, item);
      SavedIsHeld(disk, owner, account, item);
    }
  }

  /** A carry saves exactly a rotating pair, into a rostered profile that still has the account it was claimed
      under and no rotation on its way, that holds this very block already, or a login expiring earlier while
      the pair is neither spent there, by a record that reads, nor held by another profile's file. */
  lemma CarrySavesExactlyWhen(disk: Disk, owner: Name, account: nat, item: Json)
    ensures CarryOf(disk, owner, account, item) == Saved <==>
      var carried := ReadLogin(Doc(item));
      && carried.Login? && carried.oauth.refreshToken.Some? && carried.oauth.refreshToken.value != ""
      && disk.roster.Some? && owner in disk.roster.value && owner in disk.ids && disk.ids[owner] == account
      && owner !in disk.busy
      && (|| (owner in disk.credentials && disk.credentials[owner].Doc?
              && disk.credentials[owner].json.Get("claudeAiOauth").Some?
              && disk.credentials[owner].json.Get("claudeAiOauth") == item.Get("claudeAiOauth"))
          || (&& carried.oauth.expiresAt.GetOr(0) > LoginExpiry(disk.credentials, owner)
              && !(owner in disk.spent && disk.spent[owner].Unreadable?)
              && !(owner in disk.spent && carried.oauth.refreshToken.value in disk.spent[owner].tokens)
              && (HoldsChain(disk.credentials, owner, carried.oauth.refreshToken.value)
                  || forall i :: 0 <= i < |disk.Searched()| && disk.Searched()[i] != owner ==>
                       !HoldsChain(disk.credentials, disk.Searched()[i], carried.oauth.refreshToken.value))))
  {}

  /* ---------- a login the store kept its own over ---------- */

  predicate SpentThere(disk: Disk, owner: Name, item: Json) {
    RefreshToken(item).Some? && disk.SpentOf(owner).Known? && RefreshToken(item).value in disk.SpentOf(owner).tokens
  }

  /** The owner's store holds a login that expires no earlier than the item's. */
  predicate HoldsNoEarlier(disk: Disk, owner: Name, item: Json) {
    var store := StoreJson(disk.credentials, owner);
    && store.Some? && ReadLogin(Doc(store.value)).Login?
    && ExpiryOrZero(store) >= ExpiryOrZero(Some(item))
  }

  /** The store keeps its own over a login that names an expiry only where it holds one that expires
      no earlier, or where the item's was consumed. */
  lemma KeptHoldsNoEarlier(disk: Disk, owner: Name, account: nat, item: Json)
    requires CarryOf(disk, owner, account, item) == Kept
    requires ExpiryOrZero(Some(item)) > 0
    ensures HoldsNoEarlier(disk, owner, item) || SpentThere(disk, owner, item)
  {}

  /** Where it was consumed, the guard lets the item go without any placement. */
  lemma SpentNeedsNoPlacement(disk: Disk, owner: Name, item: Json)
    requires owner in disk.Searched() && SpentThere(disk, owner, item)
    ensures NothingToStrand(disk, item)
  {
    var i :| 0 <= i < |disk.Searched()| && disk.Searched()[i] == owner;
    assert RefreshSpent(disk, RefreshToken(item).value);
  }

  /** Some disk keeps its own over the login though its owner holds no login as good and nobody
      consumed it: the item may then be replaced, and the login is gone. */
  ghost predicate KeptForNothing(item: Json) {
    exists disk, owner, account ::
      && CarryOf(disk, owner, account, item) == Kept
      && !HoldsNoEarlier(disk, owner, item) && !SpentThere(disk, owner, item)
  }

  /** That happens exactly to a login that names no expiry, or one not after the epoch. */
  lemma KeptForNothingExactlyWhen(item: Json)
    requires ItemPair(item).Some?
    ensures KeptForNothing(item) <==> ExpiryOrZero(Some(item)) <= 0
  {
    if ExpiryOrZero(Some(item)) <= 0 {
      var disk := Disk(Some(["a"]), [], None, map[], map[], map[], {}, map["a" := 0], map[]);
      assert CarryOf(disk, "a", 0, item) == Kept;
      assert !SpentThere(disk, "a", item);
    } else {
      forall disk, owner, account | CarryOf(disk, owner, account, item) == Kept
        ensures HoldsNoEarlier(disk, owner, item) || SpentThere(disk, owner, item)
      {
        KeptHoldsNoEarlier(disk, owner, account, item);
      }
    }
  }

  /** On a disk where the owner's store keeps its own over a login nobody consumed, it holds nothing as good
      exactly when its file holds no login that parses. */
  lemma KeepsNothingAsGoodExactlyWhen(disk: Disk, owner: Name, account: nat, item: Json)
    requires CarryOf(disk, owner, account, item) == Kept && !SpentThere(disk, owner, item)
    ensures !HoldsNoEarlier(disk, owner, item) <==>
      StoreJson(disk.credentials, owner).None? || !ReadLogin(disk.credentials[owner]).Login?
  {
    PairFields(item);
  }

  /* ---------- every interleaving ---------- */

  /** Why a login may be replaced though no store holds it: a settle, the daemon's correction or a save the
      user picked carried it, and its owner's store, on that disk, kept its own over it; or the user chose
      so. `seen` and `oracle` are what the owner was named by. */
  datatype Grant =
    | KeptBy(login: Json, disk: Disk, owner: Name, account: nat, seen: Disk, oracle: Oracle)
    | KeptByPick(login: Json, disk: Disk, owner: Name, account: nat, seen: Disk, oracle: Oracle)
    | Chosen(login: Json)

  datatype State = State(disk: Disk, item: Option<Json>, grants: seq<Grant>)

  /** A step of any process. `Elsewhere` is Claude Code or another clauth doing anything at all. A settle,
      a correction and a save take a login read out of the item some time ago, and the disk as it was
      then. */
  datatype Event =
    | Elsewhere(disk: Disk, item: Option<Json>)
    | Settling(login: Json, seen: Disk, oracle: Oracle)
    | Correcting(login: Json, active: Option<Name>, seen: Disk, due: bool, oracle: Oracle)
    | Saving(login: Json, seen: Disk, oracle: Oracle, pick: Name, account: nat)
    | Choosing(login: Json)
    | Writing(writer: ItemWriter, read: ItemRead, placed: Option<string>, enclosing: Option<string>)

  /** A profile the save asks the user about: one of the first two cached with the login's account. */
  predicate Asked(login: Json, seen: Disk, oracle: Oracle, pick: Name) {
    && AccessToken(login).Some? && oracle.probe(AccessToken(login).value).Account?
    && var id := oracle.probe(AccessToken(login).value).id;
       var claimants := Claimants(seen.Searched(), seen.anchors, id);
       exists i :: 0 <= i < |claimants| && i < 2 && claimants[i] == pick
  }

  predicate Granted(grants: seq<Grant>, token: Option<string>) {
    token.None? || exists i :: 0 <= i < |grants| && AccessToken(grants[i].login) == token
  }

  /** A writer names only logins that were granted. */
  predicate Possible(state: State, event: Event) {
    event.Writing? ==> Granted(state.grants, event.placed) && Granted(state.grants, event.enclosing)
  }

  predicate GoesThrough(state: State, write: Event)
    requires write.Writing?
  {
    GoesAhead(state.disk, state.item, write.writer, write.read, write.placed, write.enclosing)
  }

  function Next(state: State, event: Event): State {
    match event
    case Elsewhere(disk, item) => state.(disk := disk, item := item)
    case Settling(login, seen, oracle) =>
      var decision := DecisionOf(login, seen, oracle);
      var settle := SettleBy(decision, state.disk, login);
      State(DecidedDisk(decision, state.disk, login), state.item,
            state.grants + if settle.Settled? && settle.placed.Some? && decision.Into?
                           then [KeptBy(login, state.disk, decision.owner, decision.account, seen, oracle)] else [])
    case Correcting(login, active, seen, due, oracle) =>
      var decision := RescueOf(login, active, seen, due, oracle);
      var leg := LegOf(decision, state.disk, login, active, seen, due);
      State(DecidedDisk(decision, state.disk, login), state.item,
            state.grants + if leg.PutBack? && leg.placed.Some? && decision.Into?
                           then [KeptBy(login, state.disk, decision.owner, decision.account, seen, oracle)] else [])
    case Saving(login, seen, oracle, pick, account) =>
      if NothingToStrand(seen, login) || !Asked(login, seen, oracle, pick) then state
      else
        var carry := CarryOf(state.disk, pick, account, login);
        State(CarryDisk(state.disk, pick, account, login), state.item,
              state.grants + if carry.Kept? then [KeptByPick(login, state.disk, pick, account, seen, oracle)] else [])
    case Choosing(login) => state.(grants := state.grants + [Chosen(login)])
    case Writing(writer, read, _, _) =>
      if GoesThrough(state, event) then state.(item := ItemAfter(state.item, writer, read)) else state
  }

  function Run(state: State, events: seq<Event>): State
    decreases |events|
  {
    if events == [] then state else Run(Next(state, events[0]), events[1..])
  }

  /** The owner's store kept its own, and the owner is who a settle, a correction or the user may name. */
  predicate Earned(grant: Grant) {
    grant.Chosen? ||
    (&& CarryOf(grant.disk, grant.owner, grant.account, grant.login) == Kept
     && match grant
        case KeptBy(login, _, owner, account, seen, oracle) => NamesItsOwner(Into(owner, account), login, seen, oracle)
        case KeptByPick(login, _, owner, _, seen, oracle) => Asked(login, seen, oracle, owner))
  }

  predicate AllEarned(grants: seq<Grant>) {
    forall i :: 0 <= i < |grants| ==> Earned(grants[i])
  }

  /** A settle hands out a key only for a login the store of the owner it named kept its own over. */
  lemma SettleEarns(login: Json, seen: Disk, oracle: Oracle, disk: Disk)
    ensures var decision := DecisionOf(login, seen, oracle);
      var settle := SettleBy(decision, disk, login);
      settle.Settled? && settle.placed.Some? && decision.Into? ==>
        Earned(KeptBy(login, disk, decision.owner, decision.account, seen, oracle))
  {
    DecisionNamesItsOwner(login, seen, oracle);
  }

  lemma CorrectionEarns(login: Json, active: Option<Name>, seen: Disk, due: bool, oracle: Oracle, disk: Disk)
    ensures var decision := RescueOf(login, active, seen, due, oracle);
      var leg := LegOf(decision, disk, login, active, seen, due);
      leg.PutBack? && leg.placed.Some? && decision.Into? ==>
        Earned(KeptBy(login, disk, decision.owner, decision.account, seen, oracle))
  {
    RescueNamesItsOwner(login, active, seen, due, oracle);
  }

  lemma NextKeepsEarned(state: State, event: Event)
    requires AllEarned(state.grants)
    ensures AllEarned(Next(state, event).grants)
  {
    match event {
      case Settling(login, seen, oracle) => SettleEarns(login, seen, oracle, state.disk);
      case Correcting(login, active, seen, due, oracle) =>
        CorrectionEarns(login, active, seen, due, oracle, state.disk);
      case _ =>
    }
  }

  lemma {:induction false} RunKeepsEarned(state: State, events: seq<Event>)
    requires AllEarned(state.grants)
    ensures AllEarned(Run(state, events).grants)
    decreases |events|
  {
    if events == [] {
    } else {
      NextKeepsEarned(state, events[0]);
      RunKeepsEarned(Next(state, events[0]), events[1..]);
    }
  }

  /** Whatever settles, corrections, saves and writes run, no profile's stored login comes to expire earlier:
      only another process can bring that about. */
  lemma {:induction false} RunNeverLowersExpiry(state: State, events: seq<Event>, name: Name)
    requires forall i :: 0 <= i < |events| ==> !events[i].Elsewhere?
    ensures LoginExpiry(Run(state, events).disk.credentials, name) >= LoginExpiry(state.disk.credentials, name)
    decreases |events|
  {
    if events == [] {
    } else {
      NextNeverLowersExpiry(state, events[0], name);
      RunNeverLowersExpiry(Next(state, events[0]), events[1..], name);
    }
  }

  lemma NextNeverLowersExpiry(state: State, event: Event, name: Name)
    requires !event.Elsewhere?
    ensures LoginExpiry(Next(state, event).disk.credentials, name) >= LoginExpiry(state.disk.credentials, name)
  {
    match event {
      case Settling(login, seen, oracle) => DecidedNeverLowers(DecisionOf(login, seen, oracle), state.disk, login, name);
      case Correcting(login, active, seen, due, oracle) =>
        DecidedNeverLowers(RescueOf(login, active, seen, due, oracle), state.disk, login, name);
      case Saving(login, _, _, pick, account) => CarryNeverLowersExpiry(state.disk, pick, account, login, name);
      case _ =>
    }
  }

  lemma DecidedNeverLowers(decision: Decision, disk: Disk, login: Json, name: Name)
    ensures LoginExpiry(DecidedDisk(decision, disk, login).credentials, name) >= LoginExpiry(disk.credentials, name)
  {
    if decision.Into? {
      CarryNeverLowersExpiry(disk, decision.owner, decision.account, login, name);
    }
  }

  /* ---------- what a write strands ---------- */

  /** An access token identifies a login: its refresh token and when it expires. */
  predicate TokensIdentify(grants: seq<Grant>, item: Json) {
    forall i :: 0 <= i < |grants| && AccessToken(grants[i].login) == AccessToken(item) ==>
      && RefreshToken(grants[i].login) == RefreshToken(item)
      && ExpiryOrZero(Some(grants[i].login)) == ExpiryOrZero(Some(item))
  }

  /** The grant's owner has the account that the lookup of the item's own token answered: alone, by what is
      cached or was looked up, or as the user's pick among those cached with it. */
  predicate OwnedBy(grant: Grant, item: Json)
    requires !grant.Chosen?
  {
    && AccessToken(item).Some? && grant.oracle.probe(AccessToken(item).value).Account?
    && var id := grant.oracle.probe(AccessToken(item).value).id;
       match grant
       case KeptBy(_, _, owner, _, seen, oracle) =>
         OnlyClaimant(seen.Searched(), LookedUp(seen, oracle, id).anchors, id, owner)
       case KeptByPick(_, _, owner, _, seen, oracle) => owner in Claimants(seen.Searched(), seen.anchors, id)
  }

  /** The login was set aside for a reason a user can accept: the user chose so, or its owner's store held a
      login expiring no earlier, or the item's was consumed. */
  predicate Excused(grant: Grant, item: Json) {
    && AccessToken(grant.login) == AccessToken(item)
    && (grant.Chosen? ||
        (&& OwnedBy(grant, item) && StillOwner(grant.disk, grant.owner, grant.account)
         && (HoldsNoEarlier(grant.disk, grant.owner, item) || SpentThere(grant.disk, grant.owner, item))))
  }

  lemma SameLoginSameExcuse(grant: Grant, item: Json)
    requires AccessToken(item).Some? && AccessToken(grant.login) == AccessToken(item)
    requires RefreshToken(grant.login) == RefreshToken(item)
    requires ExpiryOrZero(Some(grant.login)) == ExpiryOrZero(Some(item)) > 0
    requires Earned(grant)
    ensures Excused(grant, item)
  {
    if !grant.Chosen? {
      KeptHoldsNoEarlier(grant.disk, grant.owner, grant.account, grant.login);
      assert OwnedBy(grant, item);
    }
  }

  /** However the steps of settles, saves, daemon corrections, other processes and Claude Code
      interleave, a write changes an item that names an expiry only if its refresh token is saved or
      consumed then, or the write read no item, or the item's owner held a login expiring no earlier when
      the item's was carried to it, or the user chose to replace it. */
  lemma NoLoginStranded(start: State, events: seq<Event>, write: Event)
    requires start.grants == []
    requires var state := Run(start, events);
      && write.Writing? && Possible(state, write)
      && state.item.Some? && Next(state, write).item != state.item
      && ExpiryOrZero(state.item) > 0
      && TokensIdentify(state.grants, state.item.value)
    ensures var state := Run(start, events);
      || NothingToStrand(state.disk, state.item.value)
      || Unguarded(write.writer, write.read)
      || exists i :: 0 <= i < |state.grants| && Excused(state.grants[i], state.item.value)
  {
    var state := Run(start, events);
    var item := state.item.value;
    RunKeepsEarned(start, events);
    if !NothingToStrand(state.disk, item) && !Unguarded(write.writer, write.read) {
      var token := if write.placed == AccessToken(item) then write.placed else write.enclosing;
      var i :| 0 <= i < |state.grants| && AccessToken(state.grants[i].login) == token;
      SameLoginSameExcuse(state.grants[i], item);
    }
  }

  /** A login nobody saved, consumed or granted is written over exactly when the write could not read the
      item: an install then, or a sign-out unless the keychain is locked. */
  lemma UngrantedGoesExactlyWhen(state: State, write: Event)
    requires write.Writing? && Possible(state, write)
    requires state.item.Some? && !NothingToStrand(state.disk, state.item.value)
    requires !Granted(state.grants, AccessToken(state.item.value))
    ensures GoesThrough(state, write) <==> Unguarded(write.writer, write.read)
  {}

  const UNSAVED := OAuth("at", Some("rt"), None, None, None, map[])
  const NO_PROFILES := Disk(Some([]), [], None, map[], map[], map[], {}, map[], map[])

  /** A sign-out whose read failed deletes such a login; a locked keychain keeps it from a sign-out, and not
      from an install. */
  lemma UnreadItemIsWrittenOver()
    ensures var item := FileOf(UNSAVED).json;
      var state := State(NO_PROFILES, Some(item), []);
      && !NothingToStrand(state.disk, item)
      && Next(state, Writing(SignOut(None), Broken, None, None)).item == None
      && Next(state, Writing(SignOut(None), Locked, None, None)).item == Some(item)
      && Next(state, Writing(Install(Null), Locked, None, None)).item == Some(Null)
      && Next(state, Writing(SignOut(None), Got, None, None)).item == Some(item)
  {
    WrittenLoginReadsBack(UNSAVED);
    PairFields(FileOf(UNSAVED).json);
  }
}
