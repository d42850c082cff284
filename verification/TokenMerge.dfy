/**
 * What stays of a credential-store key two copies of a store both hold. A token (a login, an MCP
 * server's entry) is one value: the copy that can authenticate beats one that cannot, then the one
 * that expires later stays. A map of tokens is merged entry by entry.
 */
module TokenMerge {
  import opened Wrappers
  import opened Json
  import opened MapMerge

  /* ---------- tokens and their rank ---------- */

  predicate IsToken(value: Json) {
    value.Obj? && ("expiresAt" in value.fields || "accessToken" in value.fields || "refreshToken" in value.fields)
  }

  predicate HoldsText(value: Json, field: string) {
    value.Get(field).Some? && value.Get(field).value.Str? && value.Get(field).value.s != ""
  }

  /** Whether a token entry can authenticate. */
  predicate Usable(entry: Json) {
    HoldsText(entry, "accessToken") || HoldsText(entry, "refreshToken")
  }

  const I64_MAX: int := 0x7FFF_FFFF_FFFF_FFFF
  const I64_MIN: int := -0x8000_0000_0000_0000

  /** A number read as a signed 64-bit one: saturated, a fraction cut toward zero. */
  function AsI64(n: Number): int {
    var whole := match n
      case Integer(i) => i
      case Decimal(r) => if r >= 0.0 then r.Floor else -((-r).Floor);
    if whole > I64_MAX then I64_MAX else if whole < I64_MIN then I64_MIN else whole
  }

  function Expiry(value: Json): Option<int> {
    match value.Get("expiresAt")
    case Some(Num(n)) => Some(AsI64(n))
    case _ => None
  }

  /** The token rule: nothing when neither side is a token. */
  function FresherToken(held: Json, source: Json): Option<Json> {
    if !IsToken(held) && !IsToken(source) then None
    else if IsToken(held) && !IsToken(source) then Some(held)
    else if Usable(held) && !Usable(source) then Some(held)
    else if !Usable(held) && Usable(source) then Some(source)
    else
      match (Expiry(held), Expiry(source))
      case (Some(heldAt), Some(sourceAt)) => Some(if heldAt > sourceAt then held else source)
      case (Some(_), None) => Some(held)
      case _ => Some(source)
  }

  /** `a` ranks strictly below `b`: by being a token, then by being usable, then by expiry, no
      expiry ranking lowest. */
  predicate Below(a: Json, b: Json) {
    if IsToken(a) != IsToken(b) then IsToken(b)
    else if !IsToken(a) then false
    else if Usable(a) != Usable(b) then Usable(b)
    else
      match (Expiry(a), Expiry(b))
      case (None, Some(_)) => true
      case (Some(x), Some(y)) => x < y
      case _ => false
  }

  /** The right-biased maximum by rank. */
  function Pick(held: Json, source: Json): Json {
    if Below(source, held) then held else source
  }

  /** Only a token is usable. */
  lemma UsableIsToken(value: Json)
    requires Usable(value)
    ensures IsToken(value)
  {}

  /** The token rule is that maximum, and applies exactly when either side is a token. */
  lemma TokenRuleIsMaximum(held: Json, source: Json)
    ensures FresherToken(held, source) ==
      if IsToken(held) || IsToken(source) then Some(Pick(held, source)) else None
  {}

  /* ---------- merging ---------- */

  /** One entry of a merged map. */
  function MergedEntry(held: Json, source: Json): Json {
    FresherToken(held, source).GetOr(source)
  }

  function MergedFields(held: map<string, Json>, source: map<string, Json>): map<string, Json> {
    Merged(held, source, MergedEntry)
  }

  function FresherCopyOf(held: Json, source: Json): Json {
    if FresherToken(held, source).Some? then FresherToken(held, source).value
    else if held.Obj? && source.Obj? then Obj(MergedFields(held.fields, source.fields))
    else source
  }

  /** A field of an object that is a string with something in it. */
  predicate HasText(value: Json, field: string) {
    value.Obj? && field in value.fields && value.fields[field].Str? && value.fields[field].s != ""
  }

  predicate CanLogIn(value: Json) {
    HasText(value, "accessToken") || HasText(value, "refreshToken")
  }

  /** A copy that can log in outlives one that cannot, on whichever side it is. */
  lemma LoginOutlivesSignedOut(login: Json, other: Json)
    requires CanLogIn(login) && !CanLogIn(other)
    ensures FresherCopyOf(login, other) == login && FresherCopyOf(other, login) == login
  {}

  /** Of two that can, the one that expires later, the source where they expire together. */
  lemma LaterLoginStays(held: Json, source: Json, heldAt: int, sourceAt: int)
    requires CanLogIn(held) && CanLogIn(source)
    requires held.Get("expiresAt") == Some(Num(Integer(heldAt))) && I64_MIN <= heldAt <= I64_MAX
    requires source.Get("expiresAt") == Some(Num(Integer(sourceAt))) && I64_MIN <= sourceAt <= I64_MAX
    ensures FresherCopyOf(held, source) == if heldAt > sourceAt then held else source
  {}

  /** A token, signed out or not, is never replaced by something that is none. */
  lemma TokenIsNotEmptied(held: Json, source: Json)
    requires held.Obj? && exists field <- held.fields.Keys :: field in ["expiresAt", "accessToken", "refreshToken"]
    requires source.Obj? ==> forall field <- source.fields.Keys :: field !in ["expiresAt", "accessToken", "refreshToken"]
    ensures FresherCopyOf(held, source) == held
  {}

  /** The merge as the program runs it: the held map updated entry by entry. */
  method MergeFields(held: map<string, Json>, source: map<string, Json>) returns (merged: map<string, Json>)
    ensures merged == MergedFields(held, source)
  {
    merged := held;
    var todo := source.Keys;
    while todo != {}
      invariant todo <= source.Keys
      invariant merged == Merged(held, source - todo, MergedEntry)
      decreases todo
    {
      var entry :| entry in todo;
      MergeOneMore(held, source, todo, MergedEntry, entry);
      merged := merged[entry := Kept(held, entry, source[entry], MergedEntry)];
      todo := todo - {entry};
    }
    assert source - todo == source;
  }

  method FresherCopy(held: Json, source: Json) returns (kept: Json)
    ensures kept == FresherCopyOf(held, source)
  {
    var token := FresherToken(held, source);
    if token.Some? {
      return token.value;
    }
    if held.Obj? && source.Obj? {
      var merged := MergeFields(held.fields, source.fields);
      return Obj(merged);
    }
    return source;
  }

  /* ---------- the algebra ---------- */

  lemma FresherCopyCases(held: Json, source: Json)
    ensures FresherCopyOf(held, source) ==
      if IsToken(held) || IsToken(source) then Pick(held, source)
      else if held.Obj? && source.Obj? then Obj(MergedFields(held.fields, source.fields))
      else source
  {}

  lemma MergedEntryIsPick(held: Json, source: Json)
    ensures MergedEntry(held, source) == Pick(held, source)
  {}

  lemma PickAssociative(a: Json, b: Json, c: Json)
    ensures Pick(Pick(a, b), c) == Pick(a, Pick(b, c))
  {}

  lemma MergedEntryAssociative(a: Json, b: Json, c: Json)
    ensures MergedEntry(MergedEntry(a, b), c) == MergedEntry(a, MergedEntry(b, c))
  {
    MergedEntryIsPick(a, b);
    MergedEntryIsPick(b, c);
    MergedEntryIsPick(Pick(a, b), c);
    MergedEntryIsPick(a, Pick(b, c));
    PickAssociative(a, b, c);
  }

  lemma MergedFieldsAssociative(a: map<string, Json>, b: map<string, Json>, c: map<string, Json>)
    ensures MergedFields(MergedFields(a, b), c) == MergedFields(a, MergedFields(b, c))
  {
    forall x, y, z ensures MergedEntry(MergedEntry(x, y), z) == MergedEntry(x, MergedEntry(y, z)) {
      MergedEntryAssociative(x, y, z);
    }
    MergedAssociative(a, b, c, MergedEntry);
  }

  /** Merging maps that are not tokens gives a map that is not one. */
  lemma MergeIsNoToken(held: map<string, Json>, source: map<string, Json>)
    ensures IsToken(Obj(MergedFields(held, source))) <==> IsToken(Obj(held)) || IsToken(Obj(source))
  {}

  /** The one shape that breaks associativity: a value that is no object between two maps of
      entries, which drops what only the first one held. */
  predicate DropsBetween(a: Json, b: Json, c: Json) {
    && a.Obj? && !IsToken(a) && !b.Obj? && c.Obj? && !IsToken(c)
    && MergedFields(a.fields, c.fields) != c.fields
  }

  /** Merging is associative exactly unless a plain value stands between two maps of entries and the first
      has something to add to the last. */
  lemma AssociativeExactlyWhen(a: Json, b: Json, c: Json)
    ensures FresherCopyOf(FresherCopyOf(a, b), c) == FresherCopyOf(a, FresherCopyOf(b, c))
      <==> !DropsBetween(a, b, c)
  {
    FresherCopyCases(a, b);
    FresherCopyCases(b, c);
    FresherCopyCases(FresherCopyOf(a, b), c);
    FresherCopyCases(a, FresherCopyOf(b, c));
    if a.Obj? && b.Obj? {
      MergeIsNoToken(a.fields, b.fields);
    }
    if b.Obj? && c.Obj? {
      MergeIsNoToken(b.fields, c.fields);
    }
    PickAssociative(a, b, c);
    if a.Obj? && b.Obj? && c.Obj? {
      MergedFieldsAssociative(a.fields, b.fields, c.fields);
    }
    if a.Obj? && c.Obj? {
      FresherCopyCases(a, c);
    }
  }

  /** On object values, so, merging is associative. */
  lemma AssociativeOnObjects(a: Json, b: Json, c: Json)
    requires a.Obj? && b.Obj? && c.Obj?
    ensures FresherCopyOf(FresherCopyOf(a, b), c) == FresherCopyOf(a, FresherCopyOf(b, c))
  {
    AssociativeExactlyWhen(a, b, c);
  }

  /** A concrete case of the shape: the entry under `a` is gone only when merged in this order. */
  lemma PlainValueBetweenMapsDropsAnEntry()
    ensures var a, b, c := Obj(map["a" := Null]), Str("x"), Obj(map[]);
      FresherCopyOf(FresherCopyOf(a, b), c) == Obj(map[]) && FresherCopyOf(a, FresherCopyOf(b, c)) == a
  {}

  /** Merging a copy with itself changes nothing. */
  lemma Idempotent(a: Json)
    ensures FresherCopyOf(a, a) == a
  {}

  /** Nothing a merge keeps ranks below what either side held: a token as a whole, an entry of a
      map of tokens on its own. */
  lemma NeverRegresses(held: Json, source: Json)
    ensures !Below(FresherCopyOf(held, source), held) && !Below(FresherCopyOf(held, source), source)
    ensures held.Obj? && source.Obj? && !IsToken(held) && !IsToken(source) ==>
      && FresherCopyOf(held, source).Obj?
      && forall entry :: entry in held.fields || entry in source.fields ==>
           && entry in FresherCopyOf(held, source).fields
           && (entry in held.fields ==> !Below(FresherCopyOf(held, source).fields[entry], held.fields[entry]))
           && (entry in source.fields ==> !Below(FresherCopyOf(held, source).fields[entry], source.fields[entry]))
  {
    FresherCopyCases(held, source);
    if held.Obj? && source.Obj? && !IsToken(held) && !IsToken(source) {
      forall entry | entry in held.fields && entry in source.fields
        ensures MergedFields(held.fields, source.fields)[entry] == Pick(held.fields[entry], source.fields[entry])
      {
        MergedEntryIsPick(held.fields[entry], source.fields[entry]);
      }
    }
  }
}
