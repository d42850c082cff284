/**
 * The keys a credential store holds beside its login, and their merge from one store into another.
 */
module NonLoginKeys {
  import opened Wrappers
  import opened Json
  import opened MapMerge
  import opened TokenMerge

  const LOGIN_KEY := "claudeAiOauth"

  /** The login and the keys that authenticate or identify its account. */
  const LOGIN_CREDENTIAL_KEYS: set<string> :=
    {LOGIN_KEY, "organizationUuid", "trustedDeviceToken", "enterpriseGateway"}

  /** One key of a store after a merge: the fresher of two copies, `sourceOnTie` naming the side
      that stays on a tie. */
  function MergedKey(target: map<string, Json>, key: string, value: Json, sourceOnTie: bool): Json {
    if key !in target then value
    else if sourceOnTie then FresherCopyOf(target[key], value)
    else FresherCopyOf(value, target[key])
  }

  method MergeFresherKey(target: map<string, Json>, key: string, value: Json, sourceOnTie: bool)
    returns (after: map<string, Json>, changed: bool)
    ensures after == target[key := MergedKey(target, key, value, sourceOnTie)]
    ensures changed <==> after != target
  {
    var merged := value;
    if key in target {
      if sourceOnTie {
        merged := FresherCopy(target[key], value);
      } else {
        merged := FresherCopy(value, target[key]);
      }
    }
    if key in target && target[key] == merged {
      assert target[key := merged] == target;
      return target, false;
    }
    after := target[key := merged];
    changed := true;
    assert after[key] == merged;
  }

  function CopiedFields(target: map<string, Json>, source: map<string, Json>): map<string, Json> {
    Merged(target, source - LOGIN_CREDENTIAL_KEYS, FresherCopyOf)
  }

  function Copied(target: Json, source: Json): Json {
    if target.Obj? && source.Obj? then Obj(CopiedFields(target.fields, source.fields)) else target
  }

  /** Copy every non-login key of `source` onto `target`. */
  method CopyNonLoginKeys(target: Json, source: Json) returns (after: Json, changed: bool)
    ensures after == Copied(target, source)
    ensures changed <==> after != target
  {
    if !target.Obj? || !source.Obj? {
      return target, false;
    }
    var fields;
    fields, changed := CopyFields(target.fields, source.fields - LOGIN_CREDENTIAL_KEYS);
    return Obj(fields), changed;
  }

  method CopyFields(target: map<string, Json>, source: map<string, Json>)
    returns (fields: map<string, Json>, changed: bool)
    ensures fields == Merged(target, source, FresherCopyOf)
    ensures changed <==> fields != target
  {
    fields, changed := target, false;
    var todo := source.Keys;
    while todo != {}
      invariant todo <= source.Keys
      invariant fields == Merged(target, source - todo, FresherCopyOf)
      invariant changed <==> fields != target
      decreases todo
    {
      var key :| key in todo;
      MergeOneMore(target, source, todo, FresherCopyOf, key);
      UpdateChanges(target, fields, key, Kept(target, key, source[key], FresherCopyOf));
      UpdateChanges(fields, fields, key, Kept(target, key, source[key], FresherCopyOf));
      var moved;
      fields, moved := MergeFresherKey(fields, key, source[key], true);
      changed := changed || moved;
      todo := todo - {key};
    }
    assert source - todo == source;
  }

  /* ---------- what any number of merges keeps ---------- */

  function CopiedAll(target: Json, sources: seq<Json>): Json
    decreases |sources|
  {
    if sources == [] then target else CopiedAll(Copied(target, sources[0]), sources[1..])
  }

  lemma CopiedAt(target: Json, source: Json, key: string)
    ensures target.Obj? ==> Copied(target, source).Obj?
    ensures Copied(target, source).Get(key) ==
      if target.Obj? && source.Obj? && key in source.fields && key !in LOGIN_CREDENTIAL_KEYS
      then Some(MergedKey(target.fields, key, source.fields[key], true))
      else target.Get(key)
  {}

  /** No number of merges, of whatever sources, touches a login key. */
  lemma {:induction false} LoginKeysUntouched(target: Json, sources: seq<Json>, key: string)
    requires key in LOGIN_CREDENTIAL_KEYS
    ensures CopiedAll(target, sources).Get(key) == target.Get(key)
    decreases |sources|
  {
    if sources == [] {
    } else {
      CopiedAt(target, sources[0], key);
      LoginKeysUntouched(Copied(target, sources[0]), sources[1..], key);
    }
  }

  /** No number of merges loses a key, or replaces a token by one that ranks below it. */
  lemma {:induction false} TokensNeverRegress(target: Json, sources: seq<Json>, key: string)
    requires target.Get(key).Some?
    ensures CopiedAll(target, sources).Get(key).Some?
    ensures !Below(CopiedAll(target, sources).Get(key).value, target.Get(key).value)
    decreases |sources|
  {
    if sources == [] {
    } else {
      var after := Copied(target, sources[0]);
      CopiedAt(target, sources[0], key);
      if target.Obj? && sources[0].Get(key).Some? {
        NeverRegresses(target.fields[key], sources[0].fields[key]);
      }
      TokensNeverRegress(after, sources[1..], key);
      BelowTransitive(target.Get(key).value, after.Get(key).value, CopiedAll(target, sources).Get(key).value);
    }
  }

  lemma BelowTransitive(a: Json, b: Json, c: Json)
    requires !Below(b, a) && !Below(c, b)
    ensures !Below(c, a)
  {}

  /** Whether a source's copy of a key, if it has one, is a map of entries. */
  predicate MapUnder(source: Json, key: string) {
    source.Get(key).Some? ==> source.Get(key).value.Obj? && !IsToken(source.Get(key).value)
  }

  /** Where every source's copy of a key is a map of entries, no number of merges deletes an entry,
      or replaces an entry by one that ranks below it. */
  lemma {:induction false} EntriesNeverRegress(target: Json, sources: seq<Json>, key: string, entry: string)
    requires key !in LOGIN_CREDENTIAL_KEYS
    requires MapUnder(target, key) && forall i :: 0 <= i < |sources| ==> MapUnder(sources[i], key)
    requires target.Get(key).Some? && target.Get(key).value.Get(entry).Some?
    ensures var after := CopiedAll(target, sources);
      && after.Get(key).Some? && after.Get(key).value.Get(entry).Some?
      && !Below(after.Get(key).value.Get(entry).value, target.Get(key).value.Get(entry).value)
    decreases |sources|
  {
    if sources == [] {
    } else {
      var after := Copied(target, sources[0]);
      CopiedAt(target, sources[0], key);
      if sources[0].Get(key).Some? {
        var held, source := target.fields[key], sources[0].fields[key];
        NeverRegresses(held, source);
        FresherCopyCases(held, source);
        MergeIsNoToken(held.fields, source.fields);
      }
      EntriesNeverRegress(after, sources[1..], key, entry);
      BelowTransitive(target.Get(key).value.Get(entry).value, after.Get(key).value.Get(entry).value,
                      CopiedAll(target, sources).Get(key).value.Get(entry).value);
    }
  }

  /** Merging the same source again changes nothing. */
  lemma CopyTwice(target: Json, source: Json)
    ensures Copied(Copied(target, source), source) == Copied(target, source)
  {
    if target.Obj? && source.Obj? {
      var taken := source.fields - LOGIN_CREDENTIAL_KEYS;
      var once := Merged(target.fields, taken, FresherCopyOf);
      forall key ensures Lookup(Merged(once, taken, FresherCopyOf), key) == Lookup(once, key) {
        if key in taken {
          if key in target.fields {
            MergeAgain(target.fields[key], taken[key]);
          } else {
            Idempotent(taken[key]);
          }
        }
      }
      EqualByLookup(Merged(once, taken, FresherCopyOf), once);
    }
  }

  lemma MergeAgain(held: Json, source: Json)
    ensures FresherCopyOf(FresherCopyOf(held, source), source) == FresherCopyOf(held, source)
  {}
}
