/**
 * The login in the bare Keychain item, where Claude Code refreshes whatever account it runs on: whose
 * it is, when a writer may replace it, and how it is carried into its owner's store. A single-use
 * refresh token in the item may be an account's only live one. Digests of tokens are injective here,
 * so a token stands for its digest.
 */
module BareItem {
  import opened Wrappers
  import opened Json
  import opened Credentials
  import opened NonLoginKeys

  type Name = string

  datatype SpentRecord = Unreadable | Known(tokens: set<string>)

  /** The files the rules read. `roster` is none while profiles.toml does not load; `busy` are the
      profiles with a rotation staged or pending. */
  datatype Disk = Disk(
    roster: Option<seq<Name>>,
    directories: seq<Name>,
    active: Option<Name>,
    credentials: map<Name, Content>,
    sidecars: map<Name, Content>,
    spent: map<Name, SpentRecord>,
    busy: set<Name>,
    ids: map<Name, nat>,
    anchors: map<Name, string>)
  {
    /** The roster a search goes through. */
    function Searched(): seq<Name> {
      roster.GetOr(directories)
    }

    function SpentOf(name: Name): SpentRecord {
      Lookup(spent, name).GetOr(Known({}))
    }

    function AnchorOf(name: Name): string {
      Lookup(anchors, name).GetOr("")
    }
  }

  /* ---------- whose login the item holds ---------- */

  function StoreJson(files: map<Name, Content>, name: Name): Option<Json> {
    if name in files && files[name].Doc? then Some(files[name].json) else None
  }

  /** What identifies the item's login: a rotating pair's refresh token, a mint's access token. */
  datatype Identity = Identity(field: string, token: string)

  function ItemIdentity(item: Json): Option<Identity> {
    if AccessToken(item).None? then None
    else if RefreshToken(item).Some? then Some(Identity("refreshToken", RefreshToken(item).value))
    else Some(Identity("accessToken", AccessToken(item).value))
  }

  predicate StoreHolds(store: Json, id: Identity) {
    LoginField(store, id.field) == Some(id.token)
  }

  predicate FileHolds(files: map<Name, Content>, name: Name, id: Identity) {
    StoreJson(files, name).Some? && StoreHolds(StoreJson(files, name).value, id)
  }

  /** One of the profile's store files holds the login. */
  predicate ProfileHolds(disk: Disk, name: Name, id: Identity) {
    FileHolds(disk.credentials, name, id) || FileHolds(disk.sidecars, name, id)
  }

  function Holders(disk: Disk, id: Identity): set<Name> {
    set name | name in disk.Searched() && ProfileHolds(disk, name, id)
  }

  datatype StoreFile = StoreFile(name: Name, store: Json)

  function FileOfName(files: map<Name, Content>, name: Name): seq<StoreFile> {
    if StoreJson(files, name).Some? then [StoreFile(name, StoreJson(files, name).value)] else []
  }

  function FilesOf(disk: Disk, name: Name): seq<StoreFile> {
    FileOfName(disk.credentials, name) + FileOfName(disk.sidecars, name)
  }

  /** Every store file of a roster, in its order. */
  function StoresOf(disk: Disk, roster: seq<Name>): seq<StoreFile> {
    if roster == [] then []
    else StoresOf(disk, roster[..|roster| - 1]) + FilesOf(disk, roster[|roster| - 1])
  }

  lemma {:induction false} StoresOfAre(disk: Disk, roster: seq<Name>, file: StoreFile)
    ensures file in StoresOf(disk, roster) <==> file.name in roster && file in FilesOf(disk, file.name)
    decreases |roster|
  {
    if roster == [] {
    } else {
      var before := roster[..|roster| - 1];
      StoresOfAre(disk, before, file);
      assert roster == before + [roster[|roster| - 1]];
    }
  }

  method BareItemStores(disk: Disk, roster: seq<Name>) returns (stores: seq<StoreFile>)
    ensures stores == StoresOf(disk, roster)
  {
    stores := [];
    for i := 0 to |roster|
      invariant stores == StoresOf(disk, roster[..i])
    {
      stores := stores + FilesOf(disk, roster[i]);
      assert roster[..i + 1][..i] == roster[..i];
    }
    assert roster[..|roster|] == roster;
  }

  /** The profiles whose stores hold the item's login, each once, or none when it holds no login. */
  method BareItemTokenHolders(item: Json, stores: seq<StoreFile>) returns (holders: Option<seq<Name>>)
    ensures holders.None? <==> ItemIdentity(item).None?
    ensures holders.Some? ==> forall name :: name in holders.value <==>
      exists i :: 0 <= i < |stores| && stores[i].name == name && StoreHolds(stores[i].store, ItemIdentity(item).value)
    ensures holders.Some? ==> forall i, j :: 0 <= i < j < |holders.value| ==> holders.value[i] != holders.value[j]
  {
    var id := ItemIdentity(item);
    if id.None? {
      return None;
    }
    var found := [];
    for i := 0 to |stores|
      invariant forall name :: name in found <==>
        exists j :: 0 <= j < i && stores[j].name == name && StoreHolds(stores[j].store, id.value)
      invariant forall j, k :: 0 <= j < k < |found| ==> found[j] != found[k]
    {
      if StoreHolds(stores[i].store, id.value) && stores[i].name !in found {
        found := found + [stores[i].name];
      }
    }
    holders := Some(found);
  }

  /** The holders among every store file of the roster are the profiles that hold the login. */
  lemma HoldersOfAllFiles(disk: Disk, stores: seq<StoreFile>, id: Identity, name: Name)
    requires stores == StoresOf(disk, disk.Searched())
    ensures (exists i :: 0 <= i < |stores| && stores[i].name == name && StoreHolds(stores[i].store, id))
      <==> name in Holders(disk, id)
  {
    if name in Holders(disk, id) {
      var file := if FileHolds(disk.credentials, name, id) then FileOfName(disk.credentials, name)[0]
                  else FileOfName(disk.sidecars, name)[0];
      StoresOfAre(disk, disk.Searched(), file);
      var i :| 0 <= i < |stores| && stores[i] == file;
    }
    if exists i :: 0 <= i < |stores| && stores[i].name == name && StoreHolds(stores[i].store, id) {
      var i :| 0 <= i < |stores| && stores[i].name == name && StoreHolds(stores[i].store, id);
      StoresOfAre(disk, disk.Searched(), stores[i]);
    }
  }

  datatype BareItemLogin = Inert | ActiveOwn | Foreign(owner: Name) | Unmatched

  function ClassifyBareItemLogin(holders: Option<seq<Name>>, active: Option<Name>): BareItemLogin {
    if holders.None? then Inert
    else if |holders.value| != 1 then Unmatched
    else if active == Some(holders.value[0]) then ActiveOwn
    else Foreign(holders.value[0])
  }

  /* ---------- when the item may be replaced ---------- */

  predicate RefreshSpent(disk: Disk, refresh: string) {
    exists i :: 0 <= i < |disk.Searched()|
      && disk.SpentOf(disk.Searched()[i]).Known? && refresh in disk.SpentOf(disk.Searched()[i]).tokens
  }

  /** The item holds nothing single-use, or what it holds is saved or consumed. */
  predicate NothingToStrand(disk: Disk, item: Json) {
    || AccessToken(item).None? || RefreshToken(item).None?
    || Holders(disk, ItemIdentity(item).value) != {}
    || RefreshSpent(disk, RefreshToken(item).value)
  }

  /** The guard of every item writer; `placed` and `enclosing` name a login the entry settled. */
  predicate MayBeReplaced(disk: Disk, item: Json, placed: Option<string>, enclosing: Option<string>) {
    NothingToStrand(disk, item) || placed == AccessToken(item) || enclosing == AccessToken(item)
  }

  /* ---------- carrying the login into its owner's store ---------- */

  /** An expiry as the carry compares it: no login and no expiry read as zero. */
  function ExpiryOrZero(store: Option<Json>): int {
    if store.None? then 0
    else match ReadLogin(Doc(store.value))
      case Login(oauth) => if oauth.expiresAt.Some? then oauth.expiresAt.value else 0
      case _ => 0
  }

  predicate ItemOutranksStore(item: Json, store: Option<Json>) {
    ExpiryOrZero(Some(item)) > ExpiryOrZero(store)
  }

  datatype Carry = Saved | Kept | Refused | Failed

  /** The rotating pair an item carries, if it parses and has one. */
  function ItemPair(item: Json): Option<OAuth> {
    match ReadLogin(Doc(item))
    case Login(oauth) => if NonEmpty(oauth.refreshToken).Some? then Some(oauth) else None
    case _ => None
  }

  /** Whether the profile named is still the one whose account was claimed. */
  predicate StillOwner(disk: Disk, owner: Name, account: nat) {
    disk.roster.Some? && owner in disk.roster.value && Lookup(disk.ids, owner) == Some(account)
  }

  predicate SameLogin(item: Json, store: Option<Json>) {
    store.Some? && store.value.Get(LOGIN_KEY).Some? && store.value.Get(LOGIN_KEY) == item.Get(LOGIN_KEY)
  }

  function CarryOf(disk: Disk, owner: Name, account: nat, item: Json): Carry {
    var pair := ItemPair(item);
    if pair.None? then Refused
    else if !StillOwner(disk, owner, account) then Failed
    else if owner in disk.busy then Refused
    else
      var store := StoreJson(disk.credentials, owner);
      var refresh := pair.value.refreshToken.value;
      if SameLogin(item, store) then Saved
      else if !ItemOutranksStore(item, store) then Kept
      else if disk.SpentOf(owner).Unreadable? then Refused
      else if refresh in disk.SpentOf(owner).tokens then Kept
      else if ChainHeldElsewhere(disk.Searched(), disk.credentials, owner, refresh) then Failed
      else Saved
  }

  function CarryDisk(disk: Disk, owner: Name, account: nat, item: Json): Disk {
    var store := StoreJson(disk.credentials, owner);
    if CarryOf(disk, owner, account, item) != Saved || SameLogin(item, store) then disk
    else disk.(credentials := disk.credentials[owner := WithLogin(ItemPair(item).value, store)])
  }
}
