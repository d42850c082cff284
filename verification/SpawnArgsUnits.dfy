/** When folding the settings flags out keeps every other flag's words together, and when a flag with an
    optional value takes a word a settings flag stood before. */
module SpawnArgsUnits {
  import opened Wrappers
  import opened SpawnArgs
  import opened SpawnArgsTheorems

  /** The units that are no settings flag. */
  function KeptUnits(units: seq<Unit>): seq<Unit> {
    if units == [] then [] else (if units[0].Kept? then [units[0]] else []) + KeptUnits(units[1..])
  }

  /** A flag with an optional value that has none, and a unit that starts with a word it would take. */
  predicate WouldTake(unit: Unit, next: Unit) {
    && unit.Kept? && |unit.words| == 1 && TakesUndashed(unit.words[0])
    && next.Kept? && next.words != [] && !Dashed(next.words[0])
  }

  predicate AllSettings(units: seq<Unit>) {
    forall k :: 0 <= k < |units| ==> units[k].Settings?
  }

  /** One or more settings flags keep such a flag from such a unit. */
  predicate Parted(units: seq<Unit>, i: nat, j: nat)
    requires i < j < |units|
  {
    i + 1 < j && AllSettings(units[i + 1..j]) && WouldTake(units[i], units[j])
  }

  predicate SettingsPart(units: seq<Unit>) {
    exists i, j :: 0 <= i < j < |units| && Parted(units, i, j)
  }

  /* ---------- units and words ---------- */

  lemma {:induction false} UnitsHaveWords(args: Args)
    ensures forall i :: 0 <= i < |Units(args)| ==> Units(args)[i].words != []
    ensures Units(args) != [] ==> args != [] && Units(args)[0].words[0] == args[0]
    decreases |args|
  {
    if args == [] || args[0] == END {
    } else if SETTINGS_EQ <= args[0] {
      UnitsHaveWords(args[1..]);
    } else if args[0] == SETTINGS {
      if |args| > 1 {
        UnitsHaveWords(args[2..]);
      }
    } else {
      UnitsHaveWords(args[OptionSpan(args)..]);
    }
  }

  lemma {:induction false} FirstKeptWord(units: seq<Unit>)
    requires forall i :: 0 <= i < |units| ==> units[i].words != []
    ensures KeptWords(units) == [] <==> KeptUnits(units) == []
    ensures KeptUnits(units) != [] ==>
      KeptUnits(units)[0].Kept? && KeptUnits(units)[0].words != [] && KeptWords(units)[0] == KeptUnits(units)[0].words[0]
    decreases |units|
  {
    if units == [] {
    } else {
      FirstKeptWord(units[1..]);
    }
  }

  /** In the list itself no unit starts with a word the flag right before it would take. */
  lemma {:induction false} NoneTakesTheNext(args: Args, i: nat)
    requires i + 1 < |Units(args)|
    ensures !WouldTake(Units(args)[i], Units(args)[i + 1])
    decreases |args|
  {
    if args[0] == END {
    } else if SETTINGS_EQ <= args[0] {
      NotAtFirst(args, args[1..], i);
    } else if args[0] == SETTINGS {
      NotAtFirst(args, args[2..], i);
    } else {
      FirstTakesNotTheNext(args);
      NotAtFirst(args, args[OptionSpan(args)..], i);
    }
  }

  lemma {:induction false} NotAtFirst(args: Args, rest: Args, i: nat)
    requires |rest| < |args| && Units(args) != [] && Units(args)[1..] == Units(rest)
    requires i + 1 < |Units(args)|
    requires |Units(args)| > 1 ==> !WouldTake(Units(args)[0], Units(args)[1])
    ensures !WouldTake(Units(args)[i], Units(args)[i + 1])
    decreases |args|, 0
  {
    if i > 0 {
      NoneTakesTheNext(rest, i - 1);
      assert Units(rest)[i - 1] == Units(args)[i] && Units(rest)[i] == Units(args)[i + 1];
    }
  }

  lemma FirstTakesNotTheNext(args: Args)
    requires args != [] && PlainWord(args[0]) && |Units(args)| > 1
    ensures !WouldTake(Units(args)[0], Units(args)[1])
  {
    var rest := args[OptionSpan(args)..];
    assert Units(args) == [Kept(args[..OptionSpan(args)])] + Units(rest);
    assert Units(args)[1] == Units(rest)[0];
    UnitsHaveWords(rest);
  }

  /* ---------- neighbours among the kept units ---------- */

  predicate TakesNext(units: seq<Unit>) {
    exists i :: 0 <= i < |units| - 1 && WouldTake(units[i], units[i + 1])
  }

  lemma TakesNextCons(unit: Unit, rest: seq<Unit>)
    ensures TakesNext([unit] + rest) <==> (rest != [] && WouldTake(unit, rest[0])) || TakesNext(rest)
  {
    var units := [unit] + rest;
    if i :| 0 <= i < |units| - 1 && WouldTake(units[i], units[i + 1]) {
      if i > 0 {
        assert units[i] == rest[i - 1] && units[i + 1] == rest[i - 1 + 1];
      }
    }
    if i :| 0 <= i < |rest| - 1 && WouldTake(rest[i], rest[i + 1]) {
      assert units[i + 1] == rest[i] && units[i + 1 + 1] == rest[i + 1];
    }
    if rest != [] && WouldTake(unit, rest[0]) {
      assert units[0] == unit && units[0 + 1] == rest[0];
    }
  }

  /** Two units with settings flags alone between them, or nothing. */
  predicate NearAt(units: seq<Unit>, i: nat, j: nat) {
    i < j < |units| && AllSettings(units[i + 1..j]) && WouldTake(units[i], units[j])
  }

  predicate Near(units: seq<Unit>) {
    exists i, j :: 0 <= i < j < |units| && NearAt(units, i, j)
  }

  /** The first kept unit has settings flags alone before it. */
  lemma {:induction false} FirstKeptAt(units: seq<Unit>)
    ensures KeptUnits(units) != [] <==> !AllSettings(units)
    ensures KeptUnits(units) != [] ==>
      exists j :: 0 <= j < |units| && AllSettings(units[..j]) && units[j] == KeptUnits(units)[0] && units[j].Kept?
    decreases |units|
  {
    if units == [] {
    } else if units[0].Kept? {
      assert AllSettings(units[..0]);
    } else {
      FirstKeptAt(units[1..]);
      if KeptUnits(units) != [] {
        var j :| 0 <= j < |units[1..]| && AllSettings(units[1..][..j]) && units[1..][j] == KeptUnits(units[1..])[0]
                 && units[1..][j].Kept?;
        assert units[..j + 1] == [units[0]] + units[1..][..j];
        assert units[j + 1] == units[1..][j];
      }
    }
  }

  lemma {:induction false} FirstKeptIsFirst(units: seq<Unit>, j: nat)
    requires j < |units| && AllSettings(units[..j]) && units[j].Kept?
    ensures KeptUnits(units) != [] && KeptUnits(units)[0] == units[j]
    decreases j
  {
    if j > 0 {
      assert units[..j][0] == units[0];
      assert units[1..][..j - 1] == units[..j][1..];
      FirstKeptIsFirst(units[1..], j - 1);
    }
  }

  lemma {:induction false} NearIsNextAmongKept(units: seq<Unit>)
    ensures Near(units) <==> TakesNext(KeptUnits(units))
    decreases |units|
  {
    if units == [] {
    } else {
      var rest := units[1..];
      NearIsNextAmongKept(rest);
      NearCons(units);
      if units[0].Kept? {
        TakesNextCons(units[0], KeptUnits(rest));
      } else {
        assert KeptUnits(units) == KeptUnits(rest);
      }
    }
  }

  lemma NearShift(units: seq<Unit>, i: nat, j: nat)
    requires units != []
    ensures NearAt(units, i + 1, j + 1) <==> NearAt(units[1..], i, j)
  {
    if i < j < |units| - 1 {
      assert units[i + 1 + 1..j + 1] == units[1..][i + 1..j];
    }
  }

  lemma NearFirst(units: seq<Unit>)
    requires units != []
    ensures var kept := KeptUnits(units[1..]);
      (exists j: nat :: NearAt(units, 0, j)) <==> kept != [] && WouldTake(units[0], kept[0])
  {
    var rest, kept := units[1..], KeptUnits(units[1..]);
    if j: nat :| NearAt(units, 0, j) {
      assert rest[..j - 1] == units[1..j] && rest[j - 1] == units[j];
      FirstKeptIsFirst(rest, j - 1);
    }
    if kept != [] && WouldTake(units[0], kept[0]) {
      FirstKeptAt(rest);
      var j :| 0 <= j < |rest| && AllSettings(rest[..j]) && rest[j] == kept[0] && rest[j].Kept?;
      assert units[0 + 1..j + 1] == rest[..j] && units[j + 1] == rest[j];
      assert NearAt(units, 0, j + 1);
    }
  }

  lemma NearCons(units: seq<Unit>)
    requires units != []
    ensures var kept := KeptUnits(units[1..]);
      Near(units) <==> Near(units[1..]) || (kept != [] && WouldTake(units[0], kept[0]))
  {
    NearFirst(units);
    if i, j :| 0 <= i < j < |units| && NearAt(units, i, j) {
      if i > 0 {
        NearShift(units, i - 1, j - 1);
      }
    }
    if i, j :| 0 <= i < j < |units[1..]| && NearAt(units[1..], i, j) {
      NearShift(units, i, j);
    }
  }

  /* ---------- the units of what the fold keeps ---------- */

  lemma {:induction false} RegroupsExactlyNext(args: Args)
    requires Fold(args).Some?
    ensures Units(Fold(args).value.clean) == KeptUnits(Units(args)) <==> !TakesNext(KeptUnits(Units(args)))
    decreases |args|
  {
    if args == [] {
    } else if args[0] == END {
      EndStays(args);
    } else if SETTINGS_EQ <= args[0] {
      JoinedLeaves(args);
      RegroupsExactlyNext(args[1..]);
    } else if args[0] == SETTINGS {
      BareFolds(args);
      BareUnits(args);
      RegroupsExactlyNext(args[2..]);
    } else {
      var rest := args[OptionSpan(args)..];
      RegroupsExactlyNext(rest);
      KeptFirst(args, rest);
      PlainRegroups(args, rest, Fold(rest).value.clean);
    }
  }

  lemma EndStays(args: Args)
    requires args != [] && args[0] == END
    ensures Units(Fold(args).value.clean) == KeptUnits(Units(args)) && !TakesNext(KeptUnits(Units(args)))
  {
    assert Units(args)[1..] == [];
    assert KeptUnits(Units(args)) == [Kept(args)] + KeptUnits([]);
  }

  lemma JoinedLeaves(args: Args)
    requires Fold(args).Some? && args != [] && args[0] != END && SETTINGS_EQ <= args[0]
    ensures Fold(args[1..]).Some? && Fold(args[1..]).value.clean == Fold(args).value.clean
    ensures KeptUnits(Units(args)) == KeptUnits(Units(args[1..]))
  {
    var unit := Settings(args[..1], args[0][|SETTINGS_EQ|..]);
    assert Units(args) == [unit] + Units(args[1..]);
    SettingsUnitGoes(unit, Units(args[1..]));
  }

  lemma BareFolds(args: Args)
    requires Fold(args).Some? && args != [] && args[0] == SETTINGS
    ensures |args| >= 2
    ensures Fold(args) == WithSettings(args[1], Fold(args[2..]))
  {}

  lemma BareUnits(args: Args)
    requires args != [] && args[0] == SETTINGS && Fold(args).Some?
    ensures KeptUnits(Units(args)) == KeptUnits(Units(args[2..]))
  {
    SettingsUnitGoes(Settings(args[..2], args[1]), Units(args[2..]));
  }

  lemma SettingsUnitGoes(unit: Unit, rest: seq<Unit>)
    requires unit.Settings?
    ensures KeptUnits([unit] + rest) == KeptUnits(rest)
  {
    assert ([unit] + rest)[1..] == rest;
  }

  lemma KeptFirst(args: Args, rest: Args)
    requires args != [] && PlainWord(args[0]) && rest == args[OptionSpan(args)..]
    ensures KeptUnits(Units(args)) == [Kept(args[..OptionSpan(args)])] + KeptUnits(Units(rest))
  {
    assert Units(args)[1..] == Units(rest);
  }

  lemma PlainRegroups(args: Args, rest: Args, clean: Args)
    requires args != [] && PlainWord(args[0]) && rest == args[OptionSpan(args)..]
    requires Fold(rest).Some? && Fold(rest).value.clean == clean
    requires Units(clean) == KeptUnits(Units(rest)) <==> !TakesNext(KeptUnits(Units(rest)))
    ensures var words := args[..OptionSpan(args)];
      var kept := [Kept(words)] + KeptUnits(Units(rest));
      Units(words + clean) == kept <==> !TakesNext(kept)
  {
    var words, kept := args[..OptionSpan(args)], KeptUnits(Units(rest));
    SpanAfterFold(args, clean);
    ExactlySettingsGo(rest);
    UnitsHaveWords(rest);
    FirstKeptWord(Units(rest));
    TakesNextCons(Kept(words), kept);
    if OptionSpan(words + clean) == |words| {
      assert (words + clean)[..|words|] == words && (words + clean)[|words|..] == clean;
      assert Units(words + clean) == [Kept(words)] + Units(clean);
      assert Units(words + clean)[1..] == Units(clean) && ([Kept(words)] + kept)[1..] == kept;
      OneWordTakesNothing(words, clean, kept);
    } else {
      OneWordTakesFirst(args, clean, kept);
    }
  }

  lemma OneWordTakesNothing(words: Args, clean: Args, kept: seq<Unit>)
    requires words != [] && OptionSpan(words + clean) == |words|
    requires kept != [] ==> kept[0].words != [] && clean != [] && clean[0] == kept[0].words[0]
    ensures kept != [] ==> !WouldTake(Kept(words), kept[0])
  {
    if kept != [] && |words| == 1 {
      assert (words + clean)[1] == clean[0];
    }
  }

  lemma OneWordTakesFirst(args: Args, clean: Args, kept: seq<Unit>)
    requires args != [] && PlainWord(args[0]) && OptionSpan(args) == 1
    requires |args| == 1 ==> clean == []
    requires clean != [] && !Dashed(clean[0]) && OptionSpan(args[..1] + clean) == 2
    requires kept != [] && kept[0].Kept? && kept[0].words != [] && clean[0] == kept[0].words[0]
    ensures WouldTake(Kept(args[..1]), kept[0])
    ensures Units(args[..1] + clean) != [Kept(args[..1])] + kept
  {
    assert |Units(args[..1] + clean)[0].words| == 2;
  }

  /** What a fold keeps has its flags' words as they were, unless one or more settings flags parted a flag
      with an optional value from a unit that starts with no dash. */
  lemma RegroupsExactlyWhen(args: Args)
    requires Fold(args).Some?
    ensures Units(Fold(args).value.clean) == KeptUnits(Units(args)) <==> !SettingsPart(Units(args))
  {
    RegroupsExactlyNext(args);
    NearIsNextAmongKept(Units(args));
    var units := Units(args);
    if i, j :| 0 <= i < j < |units| && NearAt(units, i, j) {
      if j == i + 1 {
        NoneTakesTheNext(args, i);
      }
      assert Parted(units, i, j);
    }
    if i, j :| 0 <= i < j < |units| && Parted(units, i, j) {
      assert NearAt(units, i, j);
    }
  }
}
