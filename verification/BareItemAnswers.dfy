/** What the guard, the settle and the daemon's correction answer for the item's login, told by the files that
    hold it, and how the settle and the guard fit together. */
module BareItemAnswers {
  import opened Wrappers
  import opened Json
  import opened Credentials
  import opened BareItem
  import opened BareItemMachine
  import opened BareItemTheorems

  /* ---------- the guard ---------- */

  /** The profiles looked through: the rostered ones, or every directory while the roster does not load. */
  function Profiles(disk: Disk): seq<Name> {
    if disk.roster.Some? then disk.roster.value else disk.directories
  }

  /** The profile's file parses and its login block has this value. */
  predicate HasField(files: map<Name, Content>, name: Name, field: string, value: string) {
    name in files && files[name].Doc? && LoginField(files[name].json, field) == Some(value)
  }

  /** Some profile's login or long-lived token is this refresh token. */
  predicate RefreshStored(disk: Disk, refresh: string) {
    exists name :: name in Profiles(disk) && (|| HasField(disk.credentials, name, "refreshToken", refresh)
                                              || HasField(disk.sidecars, name, "refreshToken", refresh))
  }

  /** Some profile's record of spent tokens reads and names it. */
  predicate RefreshConsumed(disk: Disk, refresh: string) {
    exists name :: name in Profiles(disk) && name in disk.spent && disk.spent[name].Known?
                   && refresh in disk.spent[name].tokens
  }

  lemma StoredIsHeld(disk: Disk, refresh: string)
    ensures RefreshStored(disk, refresh) <==> Holders(disk, Identity("refreshToken", refresh)) != {}
  {
    var id := Identity("refreshToken", refresh);
    forall name | name in Profiles(disk)
      ensures ProfileHolds(disk, name, id) <==> (|| HasField(disk.credentials, name, "refreshToken", refresh)
                                                 || HasField(disk.sidecars, name, "refreshToken", refresh))
      ensures ProfileHolds(disk, name, id) ==> name in Holders(disk, id)
    {}
    if name :| name in Holders(disk, id) {
      assert name in Profiles(disk);
    }
  }

  lemma ConsumedIsSpent(disk: Disk, refresh: string)
    ensures RefreshConsumed(disk, refresh) <==> RefreshSpent(disk, refresh)
  {
    if name :| name in Profiles(disk) && name in disk.spent && disk.spent[name].Known?
               && refresh in disk.spent[name].tokens
    {
      var i :| 0 <= i < |Profiles(disk)| && Profiles(disk)[i] == name;
      assert disk.SpentOf(disk.Searched()[i]) == disk.spent[name];
    }
  }

  /** The item may be replaced exactly when it holds no rotating pair, or a profile stores that pair's refresh
      token, or one has spent it, or the writer or its entry names the login. */
  lemma GuardExactlyWhen(disk: Disk, item: Json, placed: Option<string>, enclosing: Option<string>)
    ensures MayBeReplaced(disk, item, placed, enclosing) <==>
      var access, refresh := LoginField(item, "accessToken"), LoginField(item, "refreshToken");
      || access in {None, Some("")} || refresh in {None, Some("")}
      || RefreshStored(disk, refresh.value) || RefreshConsumed(disk, refresh.value)
      || placed == access || enclosing == access
  {
    if AccessToken(item).Some? && RefreshToken(item).Some? {
      StoredIsHeld(disk, RefreshToken(item).value);
      ConsumedIsSpent(disk, RefreshToken(item).value);
    }
  }

  /* ---------- the settle and the guard ---------- */

  /** Over a disk nobody changes meanwhile a settle ends well exactly when the guard then lets the write go, with
      the key the settle hands out. */
  lemma SettledExactlyWhenReplaceable(disk: Disk, login: Json, oracle: Oracle)
    ensures var decision := DecisionOf(login, disk, oracle);
      var settle, after := SettleBy(decision, disk, login), DecidedDisk(decision, disk, login);
      settle.Settled? <==> MayBeReplaced(after, login, if settle.Settled? then settle.placed else None, None)
  {
    var decision := DecisionOf(login, disk, oracle);
    if decision.Into? {
      if CarryOf(disk, decision.owner, decision.account, login).Saved? {
        SavedNeedsNoPlacement(disk, decision.owner, decision.account, login);
      }
    }
  }

  /** A correction puts another login into the item only where the guard lets it, with the key it hands on. */
  lemma PutBackFitsTheGuard(disk: Disk, login: Json, active: Option<Name>, due: bool, oracle: Oracle)
    requires AccessToken(login).Some?
    ensures var decision := RescueOf(login, active, disk, due, oracle);
      var leg, after := LegOf(decision, disk, login, active, disk, due), DecidedDisk(decision, disk, login);
      leg.PutBack? ==> due && MayBeReplaced(after, login, leg.placed, None)
  {
    var decision := RescueOf(login, active, disk, due, oracle);
    if decision.Into? && CarryOf(disk, decision.owner, decision.account, login).Saved? {
      SavedNeedsNoPlacement(disk, decision.owner, decision.account, login);
    }
  }

  /** It leaves a login it carried into the active account's store, which then holds it. */
  lemma AdoptedIsTheActives(disk: Disk, login: Json, active: Option<Name>, due: bool, oracle: Oracle)
    ensures var decision := RescueOf(login, active, disk, due, oracle);
      var leg, after := LegOf(decision, disk, login, active, disk, due), DecidedDisk(decision, disk, login);
      leg.Adopted? ==> active.Some? && active.value in after.credentials && ItemPair(login).Some?
                       && ReadLogin(after.credentials[active.value]) == Login(ItemPair(login).value)
  {
    var decision := RescueOf(login, active, disk, due, oracle);
    if decision.Into? && CarryOf(disk, decision.owner, decision.account, login).Saved? {
      SavedIsHeld(disk, decision.owner, decision.account, login);
    }
  }

  /** It leaves the active account's own login, and puts that back over one another account stores or nobody can
      use any more. */
  lemma OwnIsLeftAndOthersGo(disk: Disk, login: Json, active: Option<Name>, due: bool, oracle: Oracle)
    requires AccessToken(login).Some? && RefreshToken(login).Some?
    ensures var leg := LegOf(RescueOf(login, active, disk, due, oracle), disk, login, active, disk, due);
      var refresh := RefreshToken(login).value;
      var own := active.Some? && active.value in Profiles(disk)
                 && forall name :: name in Profiles(disk) ==>
                      ((|| HasField(disk.credentials, name, "refreshToken", refresh)
                        || HasField(disk.sidecars, name, "refreshToken", refresh)) <==> name == active.value);
      && (own ==> leg == LeaveIt)
      && (!own && due && (RefreshStored(disk, refresh) || RefreshConsumed(disk, refresh)) ==> leg == PutBack(None))
  {
    var refresh := RefreshToken(login).value;
    var id := ItemIdentity(login).value;
    StoredIsHeld(disk, refresh);
    ConsumedIsSpent(disk, refresh);
    forall name
      ensures name in Holders(disk, id) <==>
        name in Profiles(disk) && (|| HasField(disk.credentials, name, "refreshToken", refresh)
                                   || HasField(disk.sidecars, name, "refreshToken", refresh))
    {}
  }

  /* ---------- the lookups ---------- */

  /** A login that parses has expired exactly when it names an expiry that is not after the clock. */
  lemma ExpiredExactlyWhen(item: Json, now: int)
    requires ReadLogin(Doc(item)).Login?
    ensures Expired(item, now) <==>
      var at := ReadLogin(Doc(item)).oauth.expiresAt; at.Some? && at.value <= now
  {}

  /** The store file holds a login of a rostered profile, not expired, that the lookup answers so. */
  predicate AsksFor(file: StoreFile, roster: seq<Name>, oracle: Oracle, answer: Answer) {
    && file.name in roster && LoginField(file.store, "accessToken") !in {None, Some("")} && !Expired(file.store, oracle.now)
    && oracle.probe(LoginField(file.store, "accessToken").value) == answer
  }

  /** The id a profile goes by is the one its account was first cached under now. */
  lemma {:induction false} AccountIsTheCached(owner: Name, filled: seq<Filled>, oracle: Oracle, i: nat)
    requires i < |filled| && filled[i].name == owner && forall k :: 0 <= k < i ==> filled[k].name != owner
    ensures AccountOf(owner, filled, oracle) == Some(filled[i].id)
    decreases |filled|
  {
    if i > 0 {
      AccountIsTheCached(owner, filled[1..], oracle, i - 1);
    }
  }

  /** One not cached now goes by the id it can be claimed by. */
  lemma {:induction false} AccountIsTheClaimed(owner: Name, filled: seq<Filled>, oracle: Oracle)
    requires forall k :: 0 <= k < |filled| ==> filled[k].name != owner
    ensures AccountOf(owner, filled, oracle) == oracle.claim(owner)
    decreases |filled|
  {
    if filled != [] {
      AccountIsTheClaimed(owner, filled[1..], oracle);
    }
  }

  /** Where no lookup is left pending every profile whose login answered an account has one cached, if the answer
      could be, and no profile without one has a login the lookup is pending on. */
  lemma {:induction false} LookupsAreMade(stores: seq<StoreFile>, roster: seq<Name>, cached: map<Name, string>,
                                          oracle: Oracle, i: nat, id: string)
    requires i < |stores| && !FilledBy(stores, roster, cached, oracle).pending
    ensures var anchors := FilledBy(stores, roster, cached, oracle).anchors;
      && (AsksFor(stores[i], roster, oracle, Account(id)) && id != "" && oracle.cache(stores[i].name).Some? ==>
            stores[i].name in anchors && anchors[stores[i].name] != "")
      && (AsksFor(stores[i], roster, oracle, Pending) ==>
            stores[i].name in anchors && anchors[stores[i].name] != "")
    decreases |stores|
  {
    var before := stores[..|stores| - 1];
    if i < |before| {
      LookupsAreMade(before, roster, cached, oracle, i, id);
      assert before[i] == stores[i];
    }
  }

  /* ---------- whom a settle names ---------- */

  /** No profile but `owner` has the account cached. */
  predicate CachedFor(disk: Disk, id: string, owner: Name) {
    forall name :: name in Profiles(disk) ==> (name in disk.anchors && disk.anchors[name] == id <==> name == owner)
  }

  lemma {:induction false} OneClaimant(roster: seq<Name>, anchors: map<Name, string>, id: string, owner: Name)
    requires id != "" && owner in roster
    requires forall name :: name in roster ==> (name in anchors && anchors[name] == id <==> name == owner)
    requires forall i, j :: 0 <= i < j < |roster| ==> roster[i] != roster[j]
    ensures Claimants(roster, anchors, id) == [owner]
    decreases |roster|
  {
    if roster[0] == owner {
      NoClaimant(roster[1..], anchors, id);
    } else {
      assert owner in roster[1..];
      OneClaimant(roster[1..], anchors, id, owner);
    }
  }

  lemma {:induction false} NoClaimant(roster: seq<Name>, anchors: map<Name, string>, id: string)
    requires forall name :: name in roster ==> !(name in anchors && anchors[name] == id)
    ensures Claimants(roster, anchors, id) == []
    decreases |roster|
  {
    if roster == [] || id == "" {
    } else {
      NoClaimant(roster[1..], anchors, id);
    }
  }

  /** A login nobody stores or spent, not expired and answered for an account that one profile has cached, is carried
      into that profile, under the id it can be claimed by, and nobody else is looked up. */
  lemma CachedOwnerIsNamed(disk: Disk, login: Json, oracle: Oracle, id: string, owner: Name)
    requires !NothingToStrand(disk, login) && !Expired(login, oracle.now)
    requires oracle.probe(AccessToken(login).value) == Account(id) && id != ""
    requires owner in Profiles(disk) && CachedFor(disk, id, owner)
    requires forall i, j :: 0 <= i < j < |Profiles(disk)| ==> Profiles(disk)[i] != Profiles(disk)[j]
    ensures DecisionOf(login, disk, oracle) ==
      if oracle.claim(owner).Some? then Into(owner, oracle.claim(owner).value) else Stop(false)
    ensures RescueOf(login, disk.active, disk, true, oracle) ==
      if oracle.claim(owner).Some? then Into(owner, oracle.claim(owner).value) else Free
  {
    OneClaimant(Profiles(disk), disk.anchors, id, owner);
  }
}
