/**
 * Merging one map over another: a key only one side holds stays, and where both hold one, a rule
 * picks what stays.
 */
module MapMerge {
  import opened Wrappers

  /** What stays of a key: `held` is the map merged into, `value` the other side's. */
  function Kept<V>(held: map<string, V>, key: string, value: V, pick: (V, V) -> V): V {
    if key in held then pick(held[key], value) else value
  }

  function Merged<V>(held: map<string, V>, source: map<string, V>, pick: (V, V) -> V): map<string, V> {
    held + map key | key in source :: Kept(held, key, source[key], pick)
  }

  lemma MergedAt<V>(held: map<string, V>, source: map<string, V>, pick: (V, V) -> V, key: string)
    ensures Lookup(Merged(held, source, pick), key) ==
      if key in source then Some(Kept(held, key, source[key], pick)) else Lookup(held, key)
  {}

  /** Merging one key more is one update more, of a key the merge so far left alone. */
  lemma MergeOneMore<V>(
    held: map<string, V>, source: map<string, V>, todo: set<string>, pick: (V, V) -> V, key: string
  )
    requires key in todo && key in source
    ensures Lookup(Merged(held, source - todo, pick), key) == Lookup(held, key)
    ensures Merged(held, source - (todo - {key}), pick)
         == Merged(held, source - todo, pick)[key := Kept(held, key, source[key], pick)]
  {}

  lemma MergeOneKey<V>(held: map<string, V>, done: map<string, V>, pick: (V, V) -> V, key: string, value: V)
    requires key !in done
    ensures Lookup(Merged(held, done, pick), key) == Lookup(held, key)
    ensures Merged(held, done[key := value], pick)
         == Merged(held, done, pick)[key := Kept(held, key, value, pick)]
  {}

  /** An update of a key the map so far left alone changes it exactly when it changes the key. */
  lemma UpdateChanges<V>(before: map<string, V>, so_far: map<string, V>, key: string, value: V)
    requires Lookup(so_far, key) == Lookup(before, key)
    ensures so_far[key := value] != before <==> so_far != before || Lookup(before, key) != Some(value)
  {}

  lemma MergedAssociative<V(!new)>(a: map<string, V>, b: map<string, V>, c: map<string, V>, pick: (V, V) -> V)
    requires forall x, y, z :: pick(pick(x, y), z) == pick(x, pick(y, z))
    ensures Merged(Merged(a, b, pick), c, pick) == Merged(a, Merged(b, c, pick), pick)
  {
    var left, right := Merged(Merged(a, b, pick), c, pick), Merged(a, Merged(b, c, pick), pick);
    forall key ensures Lookup(left, key) == Lookup(right, key) {
      MergedAt(Merged(a, b, pick), c, pick, key);
      MergedAt(a, b, pick, key);
      MergedAt(a, Merged(b, c, pick), pick, key);
      MergedAt(b, c, pick, key);
    }
    EqualByLookup(left, right);
  }

  /** The entries whose value passes a test. */
  function Where<V>(m: map<string, V>, test: V -> bool): map<string, V> {
    map key | key in m && test(m[key]) :: m[key]
  }

  lemma WhereOneMore<V>(m: map<string, V>, todo: set<string>, test: V -> bool, key: string)
    requires key in todo && key in m
    ensures Where(m - (todo - {key}), test) ==
      if test(m[key]) then Where(m - todo, test)[key := m[key]] else Where(m - todo, test)
  {}

  /** The keys whose value a map changed. */
  function Changed<V(==)>(before: map<string, V>, after: map<string, V>): set<string> {
    set key | key in after && Lookup(after, key) != Lookup(before, key)
  }

  lemma ChangedOneMore<V>(before: map<string, V>, after: map<string, V>, key: string, value: V)
    requires Lookup(after, key) == Lookup(before, key)
    ensures Changed(before, after[key := value]) ==
      if Lookup(before, key) != Some(value) then Changed(before, after) + {key} else Changed(before, after)
  {}

  lemma NothingChanged<V>(before: map<string, V>, after: map<string, V>)
    requires before.Keys <= after.Keys
    ensures Changed(before, after) == {} <==> after == before
  {
    if Changed(before, after) == {} {
      forall key ensures Lookup(after, key) == Lookup(before, key) {
        if key in after {
          assert key !in Changed(before, after);
        }
      }
      EqualByLookup(after, before);
    }
  }

  /* ---------- laying a function of the keys over a map ---------- */

  function Overlaid<K, V>(base: map<K, V>, keys: set<K>, f: K -> V): map<K, V> {
    base + map key | key in keys :: f(key)
  }

  lemma OverlaidOneMore<K, V>(base: map<K, V>, keys: set<K>, todo: set<K>, f: K -> V, key: K)
    requires key in todo && todo <= keys
    ensures Overlaid(base, keys - (todo - {key}), f) == Overlaid(base, keys - todo, f)[key := f(key)]
    ensures Lookup(base, key) == Some(f(key)) ==>
      Overlaid(base, keys - (todo - {key}), f) == Overlaid(base, keys - todo, f)
  {}
}
