/** The writers of the bare Keychain item: the settle before a write, the guarded write, the daemon's
    correction. Between any two steps another process or Claude Code may change everything, so a
    decision reads the disk it saw, and a carry or a write the disk as it then is. */
module BareItemMachine {
  import opened Wrappers
  import opened Json
  import opened Credentials
  import opened BareItem
  import opened NonLoginKeys

  /** What the `/profile` lookup answers for an access token. */
  datatype Answer = Account(id: string) | Unauthorized | Pending | Unavailable

  /** A lookup's account cached for a profile, and the profile's own id then. */
  datatype Filled = Filled(name: Name, id: nat)

  /** What a decision asks of the world: the lookup, whether an answer could be cached (the profile's
      id if so), the id a profile can be claimed by, and the clock. */
  datatype Oracle = Oracle(
    probe: string -> Answer,
    cache: Name -> Option<nat>,
    claim: Name -> Option<nat>,
    now: int)

  predicate Expired(item: Json, now: int) {
    var block := item.Get(LOGIN_KEY).GetOr(Null);
    var at := block.Get("expiresAt").GetOr(Null);
    IsI64(at) && at.n.i <= now
  }


  /** The profiles a roster has under an account id, in its order; a blank id names nobody. */
  function Claimants(roster: seq<Name>, anchors: map<Name, string>, id: string): seq<Name> {
    if roster == [] || id == "" then []
    else (if Lookup(anchors, roster[0]) == Some(id) then [roster[0]] else []) + Claimants(roster[1..], anchors, id)
  }

  predicate Uncached(file: StoreFile, roster: seq<Name>, anchors: map<Name, string>) {
    AccessToken(file.store).Some? && file.name in roster && Lookup(anchors, file.name).GetOr("") == ""
  }

  /** A store file whose own live login was looked up and answered this account. */
  predicate Answered(file: StoreFile, oracle: Oracle, id: string) {
    && AccessToken(file.store).Some? && !Expired(file.store, oracle.now)
    && oracle.probe(AccessToken(file.store).value) == Account(id) && id != ""
  }

  /** The accounts cached once some lookups are through, which of them were cached now, and whether one
      lookup is still pending. */
  datatype Fillings = Fillings(pending: bool, anchors: map<Name, string>, filled: seq<Filled>)

  /** The lookup of one store file's profile, if that has no account cached. */
  function FillOne(before: Fillings, file: StoreFile, roster: seq<Name>, oracle: Oracle): Fillings {
    if !Uncached(file, roster, before.anchors) || Expired(file.store, oracle.now) then before
    else
      match oracle.probe(AccessToken(file.store).value)
      case Account(id) =>
        var claimed := oracle.cache(file.name);
        if id == "" || claimed.None? then before
        else before.(anchors := before.anchors[file.name := id],
                     filled := before.filled + [Filled(file.name, claimed.value)])
      case Pending => before.(pending := true)
      case _ => before
  }

  /** The lookups of the profiles that hold a login and have no account cached, up to a pending one. */
  function FilledBy(stores: seq<StoreFile>, roster: seq<Name>, cached: map<Name, string>, oracle: Oracle): Fillings {
    if stores == [] then Fillings(false, cached, [])
    else
      var before := FilledBy(stores[..|stores| - 1], roster, cached, oracle);
      if before.pending then before else FillOne(before, stores[|stores| - 1], roster, oracle)
  }

  method FillAnchors(stores: seq<StoreFile>, roster: seq<Name>, cached: map<Name, string>, oracle: Oracle)
    returns (pending: bool, anchors: map<Name, string>, filled: seq<Filled>)
    ensures Fillings(pending, anchors, filled) == FilledBy(stores, roster, cached, oracle)
  {
    pending, anchors, filled := false, cached, [];
    for i := 0 to |stores|
      invariant !pending && Fillings(false, anchors, filled) == FilledBy(stores[..i], roster, cached, oracle)
    {
      var file := stores[i];
      assert stores[..i + 1][..i] == stores[..i];
      if Uncached(file, roster, anchors) && !Expired(file.store, oracle.now) {
        match oracle.probe(AccessToken(file.store).value) {
          case Account(id) =>
            var claimed := oracle.cache(file.name);
            if id != "" && claimed.Some? {
              anchors := anchors[file.name := id];
              filled := filled + [Filled(file.name, claimed.value)];
            }
          case Pending =>
            PendingStays(stores, i + 1, roster, cached, oracle);
            return true, anchors, filled;
          case _ =>
        }
      }
    }
    assert stores[..|stores|] == stores;
  }

  lemma {:induction false} PendingStays(stores: seq<StoreFile>, k: nat, roster: seq<Name>, cached: map<Name, string>,
                                        oracle: Oracle)
    requires k <= |stores| && FilledBy(stores[..k], roster, cached, oracle).pending
    ensures FilledBy(stores, roster, cached, oracle) == FilledBy(stores[..k], roster, cached, oracle)
    decreases |stores|
  {
    if k == |stores| {
      assert stores[..k] == stores;
    } else {
      var short := stores[..|stores| - 1];
      assert short[..k] == stores[..k];
      PendingStays(short, k, roster, cached, oracle);
    }
  }

  /** An account already cached is never replaced, and one is added only where that profile's own login
      answered it. */
  lemma {:induction false} FillKeepsAnchors(stores: seq<StoreFile>, roster: seq<Name>, cached: map<Name, string>,
                                            oracle: Oracle, name: Name)
    ensures var anchors := FilledBy(stores, roster, cached, oracle).anchors;
      && (Lookup(cached, name).GetOr("") != "" ==> Lookup(anchors, name) == Lookup(cached, name))
      && (Lookup(anchors, name) != Lookup(cached, name) ==>
            name in anchors && exists i :: 0 <= i < |stores| && stores[i].name == name
                                           && Answered(stores[i], oracle, anchors[name]))
    decreases |stores|
  {
    if stores == [] {
    } else {
      var before := stores[..|stores| - 1];
      FillKeepsAnchors(before, roster, cached, oracle, name);
      var anchors := FilledBy(before, roster, cached, oracle).anchors;
      if i :| 0 <= i < |before| && before[i].name == name && name in anchors && Answered(before[i], oracle, anchors[name]) {
        assert stores[i] == before[i];
      }
      assert stores[|stores| - 1] in stores;
    }
  }

  /** A store file of the profile's own answered this account. */
  predicate AnswersOwn(disk: Disk, name: Name, oracle: Oracle, id: string) {
    exists file :: file in FilesOf(disk, name) && Answered(file, oracle, id)
  }

  /** The accounts a settle goes by: those cached at the read, and, for a profile with none cached, one
      its own login answered. */
  ghost predicate AnchorsFrom(seen: Disk, oracle: Oracle, anchors: map<Name, string>) {
    && (forall name :: seen.AnchorOf(name) != "" ==> Lookup(anchors, name) == Lookup(seen.anchors, name))
    && (forall name :: Lookup(anchors, name) != Lookup(seen.anchors, name) ==>
          name in anchors && AnswersOwn(seen, name, oracle, anchors[name]))
  }

  /** The accounts a settle goes by: the uncached ones are looked up where no cached one is the login's. */
  function LookedUp(seen: Disk, oracle: Oracle, id: string): Fillings {
    if Claimants(seen.Searched(), seen.anchors, id) == []
    then FilledBy(StoresOf(seen, seen.Searched()), seen.Searched(), seen.anchors, oracle)
    else Fillings(false, seen.anchors, [])
  }

  lemma LookedUpAnchors(seen: Disk, oracle: Oracle, id: string)
    ensures AnchorsFrom(seen, oracle, LookedUp(seen, oracle, id).anchors)
  {
    var anchors, stores := LookedUp(seen, oracle, id).anchors, StoresOf(seen, seen.Searched());
    forall name
      ensures seen.AnchorOf(name) != "" ==> Lookup(anchors, name) == Lookup(seen.anchors, name)
      ensures Lookup(anchors, name) != Lookup(seen.anchors, name) ==>
        name in anchors && AnswersOwn(seen, name, oracle, anchors[name])
    {
      FillKeepsAnchors(stores, seen.Searched(), seen.anchors, oracle, name);
      if Lookup(anchors, name) != Lookup(seen.anchors, name) {
        var i :| 0 <= i < |stores| && stores[i].name == name && Answered(stores[i], oracle, anchors[name]);
        StoresOfAre(seen, seen.Searched(), stores[i]);
      }
    }
  }

  /** A login is carried only to the one profile that has the account the login answered, under the id
      that account had when its answer was cached, or has now. */
  predicate NamesItsOwner(decision: Decision, login: Json, seen: Disk, oracle: Oracle) {
    decision.Into? ==>
      && AccessToken(login).Some? && !Expired(login, oracle.now)
      && oracle.probe(AccessToken(login).value).Account?
      && var id := oracle.probe(AccessToken(login).value).id;
         var looked := LookedUp(seen, oracle, id);
         && OnlyClaimant(seen.Searched(), looked.anchors, id, decision.owner)
         && Some(decision.account) ==
              AccountOf(decision.owner, if looked.pending then [] else looked.filled, oracle)
  }

  /** The id an owner goes by: the one an answer was just cached under, or the one it can be claimed by. */
  function AccountOf(owner: Name, filled: seq<Filled>, oracle: Oracle): Option<nat> {
    if filled == [] then oracle.claim(owner)
    else if filled[0].name == owner then Some(filled[0].id)
    else AccountOf(owner, filled[1..], oracle)
  }

  method OwnerAccount(owner: Name, filled: seq<Filled>, oracle: Oracle) returns (account: Option<nat>)
    ensures account == AccountOf(owner, filled, oracle)
  {
    for i := 0 to |filled|
      invariant AccountOf(owner, filled, oracle) == AccountOf(owner, filled[i..], oracle)
    {
      if filled[i].name == owner {
        return Some(filled[i].id);
      }
    }
    account := oracle.claim(owner);
  }

  lemma {:induction false} ClaimantsAre(roster: seq<Name>, anchors: map<Name, string>, id: string, name: Name)
    ensures name in Claimants(roster, anchors, id) <==> id != "" && name in roster && Lookup(anchors, name) == Some(id)
    decreases |roster|
  {
    if roster == [] || id == "" {
    } else {
      ClaimantsAre(roster[1..], anchors, id, name);
    }
  }

  /** The one rostered profile that the account is cached for. */
  predicate OnlyClaimant(roster: seq<Name>, anchors: map<Name, string>, id: string, owner: Name) {
    && id != "" && owner in roster
    && forall i :: 0 <= i < |roster| ==> (Lookup(anchors, roster[i]) == Some(id) <==> roster[i] == owner)
  }

  lemma SoleClaimant(roster: seq<Name>, anchors: map<Name, string>, id: string)
    requires |Claimants(roster, anchors, id)| == 1
    ensures OnlyClaimant(roster, anchors, id, Claimants(roster, anchors, id)[0])
  {
    var claimants := Claimants(roster, anchors, id);
    ClaimantsAre(roster, anchors, id, claimants[0]);
    forall i | 0 <= i < |roster| ensures Lookup(anchors, roster[i]) == Some(id) <==> roster[i] == claimants[0] {
      ClaimantsAre(roster, anchors, id, roster[i]);
    }
  }

  datatype Unplaced = NotCached | SharedBy(first: Name, second: Name) | UnknownAccount | ExpiredLogin

  /** Who the item's login is carried into, or why nobody is. */
  datatype Decision =
    | Free
    | Ask(why: Unplaced)
    | Stop(pending: bool)
    | Into(owner: Name, account: nat)

  /** The profiles that hold the item's login on the disk as seen. */
  method HoldersSeen(item: Json, seen: Disk) returns (holders: Option<seq<Name>>, stores: seq<StoreFile>)
    ensures holders.None? <==> ItemIdentity(item).None?
    ensures holders.Some? ==> forall name :: name in holders.value <==> name in Holders(seen, ItemIdentity(item).value)
    ensures holders.Some? ==> forall i, j :: 0 <= i < j < |holders.value| ==> holders.value[i] != holders.value[j]
    ensures stores == StoresOf(seen, seen.Searched())
  {
    stores := BareItemStores(seen, seen.Searched());
    holders := BareItemTokenHolders(item, stores);
    if holders.Some? {
      forall name ensures name in holders.value <==> name in Holders(seen, ItemIdentity(item).value) {
        HoldersOfAllFiles(seen, stores, ItemIdentity(item).value, name);
      }
    }
  }

  /** Name the owner of a looked-up account, looking up the uncached profiles when no cached one has
      it. */
  method NameOwner(id: string, seen: Disk, stores: seq<StoreFile>, oracle: Oracle)
    returns (pending: bool, claimants: seq<Name>, anchors: map<Name, string>, filled: seq<Filled>)
    requires stores == StoresOf(seen, seen.Searched())
    ensures claimants == Claimants(seen.Searched(), anchors, id)
    ensures Fillings(pending, anchors, filled) == LookedUp(seen, oracle, id)
  {
    pending, anchors, filled := false, seen.anchors, [];
    if Claimants(seen.Searched(), anchors, id) == [] {
      pending, anchors, filled := FillAnchors(stores, seen.Searched(), seen.anchors, oracle);
    }
    claimants := Claimants(seen.Searched(), anchors, id);
  }

  /** Once the lookup answered an account, the profiles that have it decide: one can be carried into, two
      or none cannot. */
  predicate DecidedByClaimants(decision: Decision, seen: Disk, oracle: Oracle, answer: Answer) {
    answer.Account? ==>
      var claimants := Claimants(seen.Searched(), LookedUp(seen, oracle, answer.id).anchors, answer.id);
      if |claimants| >= 2 then decision == Ask(SharedBy(claimants[0], claimants[1]))
      else if |claimants| == 0 then decision == Ask(NotCached) || decision == Ask(UnknownAccount)
      else decision.Into? || decision == Stop(false)
  }

  /** What the settle decides before its carry: whom the login is saved into, off the disk seen and what
      the lookups answer. */
  function DecisionOf(item: Json, seen: Disk, oracle: Oracle): Decision {
    if NothingToStrand(seen, item) then Free
    else if Expired(item, oracle.now) then Ask(ExpiredLogin)
    else
      match oracle.probe(AccessToken(item).value)
      case Pending => Stop(true)
      case Unauthorized => Ask(ExpiredLogin)
      case Unavailable => Stop(false)
      case Account(id) => DecisionOn(seen, oracle, LookedUp(seen, oracle, id), id)
  }

  function DecisionOn(seen: Disk, oracle: Oracle, looked: Fillings, id: string): Decision {
    var claimants := Claimants(seen.Searched(), looked.anchors, id);
    if looked.pending then Stop(true)
    else if |claimants| >= 2 then Ask(SharedBy(claimants[0], claimants[1]))
    else if |claimants| == 0 then
      var stores := StoresOf(seen, seen.Searched());
      Ask(if exists i :: 0 <= i < |stores| && Uncached(stores[i], seen.Searched(), looked.anchors)
          then NotCached else UnknownAccount)
    else
      var account := AccountOf(claimants[0], looked.filled, oracle);
      if account.Some? then Into(claimants[0], account.value) else Stop(false)
  }

  lemma DecisionNamesItsOwner(item: Json, seen: Disk, oracle: Oracle)
    ensures NamesItsOwner(DecisionOf(item, seen, oracle), item, seen, oracle)
  {
    if DecisionOf(item, seen, oracle).Into? {
      var id := oracle.probe(AccessToken(item).value).id;
      SoleClaimant(seen.Searched(), LookedUp(seen, oracle, id).anchors, id);
    }
  }

  /** The settle up to its carry. It lets the write go on exactly when there is nothing to strand, and
      names an owner only when that profile alone has the account the item's login answered. */
  method DecideSettle(item: Json, seen: Disk, oracle: Oracle) returns (decision: Decision)
    ensures decision == DecisionOf(item, seen, oracle)
    ensures decision.Free? <==> NothingToStrand(seen, item)
    ensures NamesItsOwner(decision, item, seen, oracle)
    ensures decision == Ask(ExpiredLogin) <==>
      !NothingToStrand(seen, item) && (Expired(item, oracle.now) || oracle.probe(AccessToken(item).value).Unauthorized?)
    ensures decision == Stop(true) <==>
      && !NothingToStrand(seen, item) && !Expired(item, oracle.now)
      && var answer := oracle.probe(AccessToken(item).value);
         answer.Pending? || (answer.Account? && LookedUp(seen, oracle, answer.id).pending)
    ensures NothingToStrand(seen, item) || Expired(item, oracle.now) || decision == Stop(true)
      || DecidedByClaimants(decision, seen, oracle, oracle.probe(AccessToken(item).value))
  {
    if AccessToken(item).None? || RefreshToken(item).None? {
      return Free;
    }
    var holders, stores := HoldersSeen(item, seen);
    if holders.value != [] {
      assert holders.value[0] in Holders(seen, ItemIdentity(item).value);
      return Free;
    }
    assert Holders(seen, ItemIdentity(item).value) == {};
    if RefreshSpent(seen, RefreshToken(item).value) {
      return Free;
    }
    if Expired(item, oracle.now) {
      return Ask(ExpiredLogin);
    }
    match oracle.probe(AccessToken(item).value) {
      case Pending => return Stop(true);
      case Unauthorized => return Ask(ExpiredLogin);
      case Unavailable => return Stop(false);
      case Account(id) =>
        var pending, claimants, anchors, filled := NameOwner(id, seen, stores, oracle);
        if pending {
          return Stop(true);
        }
        if |claimants| >= 2 {
          return Ask(SharedBy(claimants[0], claimants[1]));
        }
        if |claimants| == 0 {
          var uncached := exists i :: 0 <= i < |stores| && Uncached(stores[i], seen.Searched(), anchors);
          return Ask(if uncached then NotCached else UnknownAccount);
        }
        SoleClaimant(seen.Searched(), anchors, id);
        var account := OwnerAccount(claimants[0], filled, oracle);
        decision := if account.Some? then Into(claimants[0], account.value) else Stop(false);
    }
  }

  datatype Settle =
    | Settled(savedInto: Option<Name>, placed: Option<string>)
    | NeedsChoice(why: Unplaced)
    | NotSettled(pending: bool)

  /** What a settle answers once it carried. */
  function SettleBy(decision: Decision, disk: Disk, login: Json): Settle {
    match decision
    case Free => Settled(None, None)
    case Ask(why) => NeedsChoice(why)
    case Stop(pending) => NotSettled(pending)
    case Into(owner, account) =>
      match CarryOf(disk, owner, account, login)
      case Saved => Settled(Some(owner), None)
      case Kept => Settled(None, AccessToken(login))
      case _ => NotSettled(false)
  }

  /** The disk after what was decided. */
  function DecidedDisk(decision: Decision, disk: Disk, login: Json): Disk {
    if decision.Into? then CarryDisk(disk, decision.owner, decision.account, login) else disk
  }

  /** What the daemon's correction leaves to do. */
  datatype Leg = LeaveIt | Adopted | PutBack(placed: Option<string>)

  function LegBy(carry: Carry, owner: Name, active: Option<Name>, item: Json): Leg {
    match carry
    case Saved => if active == Some(owner) then Adopted else PutBack(None)
    case Kept => PutBack(AccessToken(item))
    case _ => LeaveIt
  }

  datatype ItemWrite = Landed | Left | Declined

  /** How the read of the item right before a write ended: with the item or its absence, on a locked
      keychain, or on anything else. */
  datatype ItemRead = Got | Locked | Broken

  /** The two writers of the item, with what the item holds after: the login installed, or what is left of
      it without its account's keys. */
  datatype ItemWriter = Install(next: Json) | SignOut(stripped: Option<Json>)

  /** No guard is asked: an install goes ahead over any failed read, a sign-out over one that is no locked
      keychain. */
  predicate Unguarded(writer: ItemWriter, read: ItemRead) {
    read.Broken? || (read.Locked? && writer.Install?)
  }

  predicate GoesAhead(disk: Disk, item: Option<Json>, writer: ItemWriter, read: ItemRead,
                      placed: Option<string>, enclosing: Option<string>) {
    || Unguarded(writer, read)
    || (read.Got? && (item.None? || MayBeReplaced(disk, item.value, placed, enclosing)))
  }

  /** The item after a write that went ahead: a sign-out deletes one it did not read. */
  function ItemAfter(item: Option<Json>, writer: ItemWriter, read: ItemRead): Option<Json> {
    match writer
    case Install(next) => Some(next)
    case SignOut(stripped) => if read.Got? && item.Some? then stripped else None
  }

  /** The active account alone holds the login. */
  predicate IsOwn(disk: Disk, active: Option<Name>, login: Json) {
    active.Some? && ItemIdentity(login).Some? && Holders(disk, ItemIdentity(login).value) == {active.value}
  }

  /** Some store holds the login, or nobody can use it any more. */
  predicate IsSavedOrSpent(disk: Disk, login: Json) {
    ItemIdentity(login).Some? &&
    (Holders(disk, ItemIdentity(login).value) != {}
     || (RefreshToken(login).Some? && RefreshSpent(disk, RefreshToken(login).value)))
  }

  /** The profile the daemon's correction carries the login into, if any: one no store holds, nobody spent
      and its account's only profile here. */
  function RescueOf(login: Json, active: Option<Name>, seen: Disk, due: bool, oracle: Oracle): Decision {
    if !due || NothingToStrand(seen, login) || Expired(login, oracle.now) then Free
    else
      match oracle.probe(AccessToken(login).value)
      case Account(id) => RescuedBy(seen, oracle, id)
      case _ => Free
  }

  /** The one profile that has the account the lookup answered. */
  function RescuedBy(seen: Disk, oracle: Oracle, id: string): Decision {
    var looked := LookedUp(seen, oracle, id);
    var claimants := Claimants(seen.Searched(), looked.anchors, id);
    if |claimants| != 1 then Free
    else
      var account := AccountOf(claimants[0], if looked.pending then [] else looked.filled, oracle);
      if account.Some? then Into(claimants[0], account.value) else Free
  }

  lemma RescueNamesItsOwner(login: Json, active: Option<Name>, seen: Disk, due: bool, oracle: Oracle)
    ensures NamesItsOwner(RescueOf(login, active, seen, due, oracle), login, seen, oracle)
  {
    if RescueOf(login, active, seen, due, oracle).Into? {
      var id := oracle.probe(AccessToken(login).value).id;
      SoleClaimant(seen.Searched(), LookedUp(seen, oracle, id).anchors, id);
    }
  }

  /** What the correction leaves to do once it carried. */
  function LegOf(decision: Decision, disk: Disk, login: Json, active: Option<Name>, seen: Disk, due: bool): Leg {
    if decision.Into? then
      LegBy(CarryOf(disk, decision.owner, decision.account, login), decision.owner, active, login)
    else if due && IsSavedOrSpent(seen, login) && !IsOwn(seen, active, login) then PutBack(None)
    else LeaveIt
  }

  /** The correction up to its carry: whom the login is carried into, or else whether the active account's
      own is put back. */
  method DecideCorrection(login: Json, active: Option<Name>, seen: Disk, due: bool, oracle: Oracle)
    returns (decision: Decision, putBack: bool)
    ensures decision == RescueOf(login, active, seen, due, oracle)
    ensures putBack <==> due && IsSavedOrSpent(seen, login) && !IsOwn(seen, active, login)
  {
    var holders, stores := HoldersSeen(login, seen);
    var owned := ClassifyBareItemLogin(holders, active);
    if owned.Inert? || owned.ActiveOwn? || !due {
      return Free, false;
    }
    if owned.Foreign? {
      assert holders.value[0] in Holders(seen, ItemIdentity(login).value);
      return Free, true;
    }
    if |holders.value| > 1 {
      assert holders.value[0] in Holders(seen, ItemIdentity(login).value);
      assert holders.value[1] in Holders(seen, ItemIdentity(login).value);
      return Free, true;
    }
    assert Holders(seen, ItemIdentity(login).value) == {};
    if RefreshToken(login).None? {
      return Free, false;
    }
    if RefreshSpent(seen, RefreshToken(login).value) {
      return Free, true;
    }
    if Expired(login, oracle.now) || !oracle.probe(AccessToken(login).value).Account? {
      return Free, false;
    }
    decision := RescueInto(oracle.probe(AccessToken(login).value).id, seen, stores, oracle);
    putBack := false;
  }

  method RescueInto(id: string, seen: Disk, stores: seq<StoreFile>, oracle: Oracle) returns (decision: Decision)
    requires stores == StoresOf(seen, seen.Searched())
    ensures decision == RescuedBy(seen, oracle, id)
  {
    var pending, claimants, anchors, filled := NameOwner(id, seen, stores, oracle);
    if |claimants| != 1 {
      return Free;
    }
    var account := OwnerAccount(claimants[0], if pending then [] else filled, oracle);
    decision := if account.Some? then Into(claimants[0], account.value) else Free;
  }

  /** The disk and the item, as one process at a time changes them. */
  class Machine {
    var disk: Disk
    var item: Option<Json>

    method CarryBareItemLoginInto(owner: Name, account: nat, login: Json) returns (carry: Carry)
      modifies this`disk
      ensures carry == CarryOf(old(disk), owner, account, login)
      ensures disk == CarryDisk(old(disk), owner, account, login)
    {
      var pair := ItemPair(login);
      if pair.None? {
        return Refused;
      }
      if !StillOwner(disk, owner, account) {
        return Failed;
      }
      if owner in disk.busy {
        return Refused;
      }
      var store := StoreJson(disk.credentials, owner);
      if SameLogin(login, store) {
        return Saved;
      }
      if !ItemOutranksStore(login, store) {
        return Kept;
      }
      var refresh := pair.value.refreshToken.value;
      if disk.SpentOf(owner).Unreadable? {
        return Refused;
      }
      if refresh in disk.SpentOf(owner).tokens {
        return Kept;
      }
      if ChainHeldElsewhere(disk.Searched(), disk.credentials, owner, refresh) {
        return Failed;
      }
      disk := disk.(credentials := disk.credentials[owner := WithLogin(pair.value, store)]);
      carry := Saved;
    }

    /** Settle a login read out of the item: `seen` is the disk at that read, this disk the one at the
        carry. A key to replace the item by is handed out only for a login the owner's store kept its
        own over. */
    method SettleBareItemBeforeWrite(login: Json, seen: Disk, oracle: Oracle)
      returns (settle: Settle, decision: Decision)
      modifies this`disk
      ensures decision == DecisionOf(login, seen, oracle)
      ensures settle == SettleBy(decision, old(disk), login) && disk == DecidedDisk(decision, old(disk), login)
      ensures decision.Free? <==> NothingToStrand(seen, login)
      ensures NamesItsOwner(decision, login, seen, oracle)
      ensures decision.Into? ==>
        var carry := CarryOf(old(disk), decision.owner, decision.account, login);
        && disk == CarryDisk(old(disk), decision.owner, decision.account, login)
        && (settle.Settled? <==> carry.Saved? || carry.Kept?) && !settle.NeedsChoice?
        && (settle.Settled? ==>
              && settle.savedInto == (if carry.Saved? then Some(decision.owner) else None)
              && settle.placed == if carry.Kept? then AccessToken(login) else None)
      ensures !decision.Into? ==>
        && disk == old(disk)
        && (settle.Settled? <==> decision.Free?)
        && (settle.Settled? ==> settle == Settled(None, None))
    {
      decision := DecideSettle(login, seen, oracle);
      match decision {
        case Free => settle := Settled(None, None);
        case Ask(why) => settle := NeedsChoice(why);
        case Stop(pending) => settle := NotSettled(pending);
        case Into(owner, account) =>
          var carry := CarryBareItemLoginInto(owner, account, login);
          settle := match carry
            case Saved => Settled(Some(owner), None)
            case Kept => Settled(None, AccessToken(login))
            case _ => NotSettled(false);
      }
    }

    /** The save a user picked: the key the item may be replaced by where the owner's store kept its own,
        none where it took the login. */
    method SaveBareItemInto(owner: Name, account: nat, login: Json) returns (placed: Option<Option<string>>)
      modifies this`disk
      ensures disk == CarryDisk(old(disk), owner, account, login)
      ensures var carry := CarryOf(old(disk), owner, account, login);
        && (placed.Some? <==> carry.Saved? || carry.Kept?)
        && (placed.Some? ==> placed.value == if carry.Kept? then AccessToken(login) else None)
    {
      var carry := CarryBareItemLoginInto(owner, account, login);
      placed := match carry
        case Saved => Some(None)
        case Kept => Some(AccessToken(login))
        case _ => None;
    }

    /** Put `next` into the item, under the guard unless the read of the item failed. */
    method InstallItem(next: Json, placed: Option<string>, enclosing: Option<string>, read: ItemRead)
      returns (write: ItemWrite)
      modifies this`item
      ensures write == if GoesAhead(disk, old(item), Install(next), read, placed, enclosing) then Landed else Declined
      ensures write.Declined? <==>
        read.Got? && old(item).Some? && !MayBeReplaced(disk, old(item).value, placed, enclosing)
      ensures item == if write.Landed? then Some(next) else old(item)
    {
      if read.Got? && item.Some? && !MayBeReplaced(disk, item.value, placed, enclosing) {
        return Declined;
      }
      item := Some(next);
      write := Landed;
    }

    /** Sign the item out: never over an item the guard keeps. One that could not be read is deleted, but
        for one in a locked keychain, which is left. */
    method SignOutItem(stripped: Option<Json>, placed: Option<string>, enclosing: Option<string>, read: ItemRead)
      returns (write: ItemWrite)
      modifies this`item
      ensures write.Landed? <==> GoesAhead(disk, old(item), SignOut(stripped), read, placed, enclosing)
      ensures write.Left? <==> read.Locked?
      ensures write.Declined? <==>
        read.Got? && old(item).Some? && !MayBeReplaced(disk, old(item).value, placed, enclosing)
      ensures item == if write.Landed? then ItemAfter(old(item), SignOut(stripped), read) else old(item)
      ensures read.Broken? ==> item.None?
    {
      match read {
        case Locked => return Left;
        case Broken =>
          item := None;
          return Landed;
        case Got =>
      }
      if item.None? {
        return Landed;
      }
      if !MayBeReplaced(disk, item.value, placed, enclosing) {
        return Declined;
      }
      item := stripped;
      write := Landed;
    }

    /** The daemon's put-back, skipped when a switch landed since the leg read the active profile.
        `install` is the active store's login, none when there is none to put back. */
    method RestoreBareItem(active: Option<Name>, install: Option<Json>, stripped: Option<Json>,
                           placed: Option<string>, read: ItemRead)
      returns (write: ItemWrite)
      modifies this`item
      ensures var writer := if active.Some? && install.Some? then Install(install.value) else SignOut(stripped);
        && (write.Landed? <==>
              disk.roster.Some? && disk.active == active && GoesAhead(disk, old(item), writer, read, placed, None))
        && item == if write.Landed? then ItemAfter(old(item), writer, read) else old(item)
      ensures var kept := old(item).Some? && !MayBeReplaced(disk, old(item).value, placed, None);
        write == if disk.roster.None? || disk.active != active then Left
                 else if read.Got? then (if kept then Declined else Landed)
                 else if read.Locked? && !(active.Some? && install.Some?) then Left else Landed
    {
      if disk.roster.None? || disk.active != active {
        return Left;
      }
      if active.Some? && install.Some? {
        write := InstallItem(install.value, placed, None, read);
      } else {
        write := SignOutItem(stripped, placed, None, read);
      }
    }

    /** The daemon's correction of a login read out of the item, up to its put-back: `seen` is the
        disk at that read, `due` whether this login may be handled again yet. */
    method CorrectBareItem(login: Json, active: Option<Name>, seen: Disk, due: bool, oracle: Oracle)
      returns (leg: Leg, decision: Decision)
      modifies this`disk
      ensures decision == RescueOf(login, active, seen, due, oracle)
      ensures leg == LegOf(decision, old(disk), login, active, seen, due)
      ensures disk == DecidedDisk(decision, old(disk), login)
      ensures NamesItsOwner(decision, login, seen, oracle)
      ensures decision.Into? ==>
        var carry := CarryOf(old(disk), decision.owner, decision.account, login);
        && (leg.Adopted? <==> carry.Saved? && active == Some(decision.owner))
        && (leg.PutBack? <==> carry.Kept? || (carry.Saved? && active != Some(decision.owner)))
        && (leg.PutBack? ==> leg.placed == if carry.Kept? then AccessToken(login) else None)
      ensures decision.Into? ==>
        && disk == CarryDisk(old(disk), decision.owner, decision.account, login)
        && !NothingToStrand(seen, login)
      ensures !decision.Into? ==>
        && disk == old(disk)
        && leg == if due && IsSavedOrSpent(seen, login) && !IsOwn(seen, active, login) then PutBack(None) else LeaveIt
    {
      var putBack;
      decision, putBack := DecideCorrection(login, active, seen, due, oracle);
      RescueNamesItsOwner(login, active, seen, due, oracle);
      match decision {
        case Into(owner, account) =>
          var carry := CarryBareItemLoginInto(owner, account, login);
          leg := LegBy(carry, owner, active, login);
        case _ =>
          leg := if putBack then PutBack(None) else LeaveIt;
      }
    }
  }
}
