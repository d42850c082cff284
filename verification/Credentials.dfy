/** What a credential file holds: the typed login read out of it, and the login written back. */
module Credentials {
  import opened Wrappers
  import opened Json
  import TokenMerge
  import opened NonLoginKeys

  type I64 = x: int | TokenMerge.I64_MIN <= x <= TokenMerge.I64_MAX witness 0

  /** A login block. `extra` holds every key of the block that has no field here. */
  datatype OAuth = OAuth(
    accessToken: string,
    refreshToken: Option<string>,
    expiresAt: Option<I64>,
    scopes: Option<seq<string>>,
    subscriptionType: Option<string>,
    extra: map<string, Json>)

  const NAMED_FIELDS := {"accessToken", "refreshToken", "expiresAt", "scopes", "subscriptionType"}

  /** The bytes of a credential file: JSON, or something that does not parse as JSON. */
  datatype Content = Garbage(text: string) | Doc(json: Json)

  /** The credentials read out of a file's bytes. */
  datatype Parsed = Torn | NoLogin | Login(oauth: OAuth)

  /* ---------- reading ---------- */

  /** An optional field: absent and null read alike; a value `accepts` refuses fails the parse. */
  predicate Reads(block: Json, field: string, accepts: Json -> bool) {
    var held := block.Get(field);
    held.None? || held.value.Null? || accepts(held.value)
  }

  predicate IsStr(value: Json) {
    value.Str?
  }

  predicate IsI64(value: Json) {
    value.Num? && value.n.Integer? && TokenMerge.I64_MIN <= value.n.i <= TokenMerge.I64_MAX
  }

  predicate IsStrings(value: Json) {
    value.Arr? && forall i :: 0 <= i < |value.items| ==> value.items[i].Str?
  }

  function OptionalStr(block: Json, field: string): Option<string> {
    match block.Get(field)
    case Some(Str(s)) => Some(s)
    case _ => None
  }

  function OptionalI64(block: Json, field: string): Option<I64>
    requires Reads(block, field, IsI64)
  {
    match block.Get(field)
    case Some(Num(Integer(i))) => Some(i)
    case _ => None
  }

  function OptionalStrings(block: Json, field: string): Option<seq<string>>
    requires Reads(block, field, IsStrings)
  {
    match block.Get(field)
    case Some(Arr(items)) => Some(seq(|items|, i requires 0 <= i < |items| => items[i].s))
    case _ => None
  }

  predicate ParsesAsLogin(block: Json) {
    && block.Obj?
    && block.Get("accessToken").Some? && block.fields["accessToken"].Str?
    && Reads(block, "refreshToken", IsStr)
    && Reads(block, "expiresAt", IsI64)
    && Reads(block, "scopes", IsStrings)
    && Reads(block, "subscriptionType", IsStr)
  }

  function ParseLogin(block: Json): Option<OAuth> {
    if !ParsesAsLogin(block) then None
    else Some(OAuth(
      block.fields["accessToken"].s,
      OptionalStr(block, "refreshToken"),
      OptionalI64(block, "expiresAt"),
      OptionalStrings(block, "scopes"),
      OptionalStr(block, "subscriptionType"),
      block.fields - NAMED_FIELDS))
  }

  function LoginUnder(block: Option<Json>): Parsed {
    if block.None? || block.value.Null? then NoLogin
    else match ParseLogin(block.value)
      case Some(oauth) => Login(oauth)
      case None => Torn
  }

  function ReadLogin(content: Content): Parsed {
    if content.Doc? && content.json.Obj? then LoginUnder(content.json.Get(LOGIN_KEY)) else Torn
  }

  /** A string field of a store's login block. */
  function LoginField(store: Json, field: string): Option<string> {
    var block := store.Get(LOGIN_KEY).GetOr(Null);
    block.Get(field).GetOr(Null).AsStr()
  }

  function NonEmpty(token: Option<string>): Option<string> {
    if token == Some("") then None else token
  }

  function AccessToken(store: Json): Option<string> {
    NonEmpty(LoginField(store, "accessToken"))
  }

  function RefreshToken(store: Json): Option<string> {
    NonEmpty(LoginField(store, "refreshToken"))
  }

  /** A profile's file holds a login with this refresh token. */
  predicate HoldsChain(files: map<string, Content>, name: string, refresh: string) {
    name in files && ReadLogin(files[name]).Login? && ReadLogin(files[name]).oauth.refreshToken == Some(refresh)
  }

  /** Another rostered profile's file holds the chain, and this one's does not. */
  predicate ChainHeldElsewhere(roster: seq<string>, files: map<string, Content>, name: string, refresh: string) {
    && !HoldsChain(files, name, refresh)
    && exists i :: 0 <= i < |roster| && roster[i] != name && HoldsChain(files, roster[i], refresh)
  }

  /* ---------- writing ---------- */

  function StrValue(value: Option<string>): Option<Json> {
    if value.Some? then Some(Str(value.value)) else None
  }

  function I64Value(value: Option<I64>): Option<Json> {
    if value.Some? then Some(Num(Integer(value.value))) else None
  }

  function StringsValue(value: Option<seq<string>>): Option<Json> {
    if value.None? then None
    else Some(Arr(seq(|value.value|, i requires 0 <= i < |value.value| => Str(value.value[i]))))
  }

  /** What a written block holds under `key`: a field without a value is left out. */
  function WrittenUnder(oauth: OAuth, key: string): Option<Json> {
    if key == "accessToken" then Some(Str(oauth.accessToken))
    else if key == "refreshToken" then StrValue(oauth.refreshToken)
    else if key == "expiresAt" then I64Value(oauth.expiresAt)
    else if key == "scopes" then StringsValue(oauth.scopes)
    else if key == "subscriptionType" then StrValue(oauth.subscriptionType)
    else Lookup(oauth.extra, key)
  }

  function LoginBlock(oauth: OAuth): Json {
    Obj(map key | key in NAMED_FIELDS + oauth.extra.Keys && WrittenUnder(oauth, key).Some? ::
          WrittenUnder(oauth, key).value)
  }

  /** A credential file written from a login alone. */
  function FileOf(oauth: OAuth): Content {
    Doc(Obj(map[LOGIN_KEY := LoginBlock(oauth)]))
  }

  /** A file rewritten with a login, its other keys kept. */
  function WithLogin(oauth: OAuth, existing: Option<Json>): Content {
    var kept := if existing.Some? && existing.value.Obj? then existing.value.fields - {LOGIN_KEY} else map[];
    Doc(Obj(kept[LOGIN_KEY := LoginBlock(oauth)]))
  }

  /* ---------- the two are inverse ---------- */

  lemma WrittenAt(oauth: OAuth, key: string)
    ensures LoginBlock(oauth).Get(key) == WrittenUnder(oauth, key)
  {}

  lemma StringsComeBack(strings: seq<string>)
    ensures var items := seq(|strings|, i requires 0 <= i < |strings| => Str(strings[i]));
      && IsStrings(Arr(items))
      && seq(|items|, i requires 0 <= i < |items| => items[i].s) == strings
  {}

  lemma WrittenLoginParses(oauth: OAuth)
    ensures ParsesAsLogin(LoginBlock(oauth))
  {}

  lemma WrittenExtra(oauth: OAuth)
    requires oauth.extra.Keys !! NAMED_FIELDS
    ensures LoginBlock(oauth).fields - NAMED_FIELDS == oauth.extra
  {}

  /** Reading back a written login gives the login, the keys clauth has no field for included. */
  lemma WrittenLoginReadsBack(oauth: OAuth)
    requires oauth.extra.Keys !! NAMED_FIELDS
    ensures ReadLogin(FileOf(oauth)) == Login(oauth)
  {
    var block := LoginBlock(oauth);
    WrittenLoginParses(oauth);
    WrittenExtra(oauth);
    WrittenAt(oauth, "accessToken");
    WrittenAt(oauth, "refreshToken");
    WrittenAt(oauth, "expiresAt");
    WrittenAt(oauth, "scopes");
    WrittenAt(oauth, "subscriptionType");
    if oauth.scopes.Some? {
      StringsComeBack(oauth.scopes.value);
    }
    assert ParseLogin(block) == Some(oauth);
  }

  /** Rewriting a login that was read keeps every key of its block: the ones clauth has no field for
      verbatim, a named one unless it was null. */
  lemma RewriteKeepsTheBlock(block: Json, oauth: OAuth, key: string)
    requires ParseLogin(block) == Some(oauth)
    ensures LoginBlock(oauth).Get(key) ==
      if key in NAMED_FIELDS && block.Get(key) == Some(Null) then None else block.Get(key)
  {
    WrittenAt(oauth, key);
    if key == "scopes" && oauth.scopes.Some? {
      var items, strings := block.fields["scopes"].items, oauth.scopes.value;
      assert items == seq(|strings|, i requires 0 <= i < |strings| => Str(strings[i]));
    }
  }

  /** What a file's login parses as depends on its login block alone. */
  lemma SameBlockSameLogin(a: Content, b: Content)
    requires a.Doc? && b.Doc? && a.json.Obj? && b.json.Obj?
    requires a.json.Get(LOGIN_KEY) == b.json.Get(LOGIN_KEY)
    ensures ReadLogin(a) == ReadLogin(b)
  {}

  lemma RewrittenLogin(oauth: OAuth, existing: Option<Json>)
    requires oauth.extra.Keys !! NAMED_FIELDS
    ensures ReadLogin(WithLogin(oauth, existing)) == Login(oauth)
    ensures WithLogin(oauth, existing).json.Get(LOGIN_KEY) == Some(LoginBlock(oauth))
  {
    WrittenLoginReadsBack(oauth);
    SameBlockSameLogin(WithLogin(oauth, existing), FileOf(oauth));
  }
}
