/** Which words a flag takes as its value, and the advisor a list of words names: the last one that is not
    blank, in either spelling, among the words that are flags. */
module SpawnArgsAdvisor {
  import opened Wrappers
  import ShellWords
  import opened SpawnArgs
  import opened SpawnArgsTheorems

  /* ---------- trimming ---------- */

  predicate Blank(s: string) {
    forall i :: 0 <= i < |s| ==> ShellWords.Space(s[i])
  }

  /** `core` is `s` without the white space at its ends: none is left at either end, and what is taken off
      is white space. */
  ghost predicate Trimmed(core: string, s: string) {
    && (core != "" ==> !ShellWords.Space(core[0]) && !ShellWords.Space(core[|core| - 1]))
    && exists k :: 0 <= k <= |s| - |core| && s[k..k + |core|] == core && Blank(s[..k]) && Blank(s[k + |core|..])
  }

  lemma {:induction false} TrimStartCuts(s: string)
    ensures |TrimStart(s)| <= |s| && s[|s| - |TrimStart(s)|..] == TrimStart(s)
    ensures Blank(s[..|s| - |TrimStart(s)|])
    ensures TrimStart(s) != "" ==> !ShellWords.Space(TrimStart(s)[0])
    decreases |s|
  {
    if s != "" && ShellWords.Space(s[0]) {
      TrimStartCuts(s[1..]);
      var before := s[1..][..|s| - 1 - |TrimStart(s)|];
      assert s[..|s| - |TrimStart(s)|] == [s[0]] + before;
    }
  }

  lemma {:induction false} TrimEndCuts(s: string)
    ensures TrimEnd(s) <= s && Blank(s[|TrimEnd(s)|..])
    ensures TrimEnd(s) != "" ==> !ShellWords.Space(TrimEnd(s)[|TrimEnd(s)| - 1])
    decreases |s|
  {
    if s != "" && ShellWords.Space(s[|s| - 1]) {
      var less := s[..|s| - 1];
      TrimEndCuts(less);
      assert s[|TrimEnd(s)|..] == less[|TrimEnd(s)|..] + [s[|s| - 1]];
    }
  }

  /** Trimming takes white space alone, and all of it, off both ends. */
  lemma TrimCuts(s: string)
    ensures Trimmed(Trim(s), s) && (Trim(s) == "" <==> Blank(s))
  {
    var tail := TrimStart(s);
    var core, k := TrimEnd(tail), |s| - |tail|;
    TrimStartCuts(s);
    TrimEndCuts(tail);
    CutTwice(s, tail, core, k);
    if core != "" {
      assert core[0] == tail[0];
    }
    TrimmedBlank(core, s, k);
  }

  lemma CutTwice(s: string, tail: string, core: string, k: nat)
    requires k <= |s| && s[k..] == tail && core <= tail
    ensures s[k..k + |core|] == core && s[k + |core|..] == tail[|core|..]
  {}

  lemma TrimmedBlank(core: string, s: string, k: nat)
    requires k + |core| <= |s| && s[k..k + |core|] == core && Blank(s[..k]) && Blank(s[k + |core|..])
    requires core != "" ==> !ShellWords.Space(core[0])
    ensures core == "" <==> Blank(s)
  {
    if core == "" {
      assert s == s[..k] + s[k..];
    } else {
      assert s[k] == core[0];
    }
  }

  /* ---------- the last advisor ---------- */

  /** The value a unit of the walk gives the advisor flag: the word after it, or what follows its `=`. */
  predicate Advises(unit: Unit, value: string) {
    && unit.Kept?
    && (unit.words == ["--advisor", value] || (unit.words != [] && unit.words[0] == "--advisor=" + value))
  }

  /** No unit from `i` on gives the flag more than white space. */
  ghost predicate NoAdvice(units: seq<Unit>, i: nat) {
    forall k, value :: i <= k < |units| && Advises(units[k], value) ==> Blank(value)
  }

  /** The last value that is more than white space is `advisor` once trimmed. */
  ghost predicate LastAdvice(units: seq<Unit>, advisor: string) {
    exists i, value :: 0 <= i < |units| && Advises(units[i], value) && !Blank(value) && Trimmed(advisor, value)
                       && NoAdvice(units, i + 1)
  }

  ghost predicate AdvisorIs(units: seq<Unit>, advisor: Option<string>) {
    if advisor.None? then NoAdvice(units, 0) else LastAdvice(units, advisor.value)
  }

  lemma AfterPrefix(prefix: string, value: string)
    ensures prefix <= prefix + value && (prefix + value)[|prefix|..] == value
  {}

  /** A flag's words give the advisor flag the value that `AdvisorOf` reads, and no other. */
  lemma UnitAdvises(args: Args, value: string)
    requires args != [] && Advises(Kept(args[..OptionSpan(args)]), value)
    ensures AdvisorOf(args) == if Trim(value) != "" then Some(Trim(value)) else None
  {
    var words := args[..OptionSpan(args)];
    if words == ["--advisor", value] {
      assert OptionSpan(args) == |words| == 2;
      assert args[0] == words[0] == ADVISOR && args[1] == words[1] == value;
      assert |args[0]| < |ADVISOR_EQ|;
    } else {
      assert args[0] == words[0] == ADVISOR_EQ + value;
      AfterPrefix(ADVISOR_EQ, value);
    }
  }

  lemma AdviceIsGiven(args: Args) returns (value: string)
    requires args != [] && AdvisorOf(args).Some?
    ensures Advises(Kept(args[..OptionSpan(args)]), value) && AdvisorOf(args) == Some(Trim(value)) && Trim(value) != ""
  {
    if ADVISOR_EQ <= args[0] {
      value := args[0][|ADVISOR_EQ|..];
      assert args[..OptionSpan(args)][0] == ADVISOR_EQ + value;
    } else {
      value := args[1];
      assert args[..OptionSpan(args)] == [ADVISOR, value];
    }
  }

  lemma OneMoreAdvice(unit: Unit, units: seq<Unit>, own: Option<string>, rest: Option<string>)
    requires AdvisorIs(units, rest)
    requires own.None? ==> forall value :: Advises(unit, value) ==> Blank(value)
    requires own.Some? ==> exists value :: Advises(unit, value) && !Blank(value) && Trimmed(own.value, value)
    ensures AdvisorIs([unit] + units, Later(own, rest))
  {
    var all := [unit] + units;
    assert forall k :: 0 < k < |all| ==> all[k] == units[k - 1];
    if rest.Some? {
      var i, value :| 0 <= i < |units| && Advises(units[i], value) && !Blank(value) && Trimmed(rest.value, value)
                      && NoAdvice(units, i + 1);
      assert all[i + 1] == units[i] && NoAdvice(all, i + 1 + 1);
    } else if own.Some? {
      var value :| Advises(unit, value) && !Blank(value) && Trimmed(own.value, value);
      assert all[0] == unit && NoAdvice(all, 0 + 1);
    }
  }

  /** The advisor a fold yields is the last one a flag names that is not blank, trimmed, in either spelling;
      it yields none exactly when no flag names one. */
  lemma {:induction false} AdvisorIsTheLast(args: Args)
    requires Fold(args).Some?
    ensures AdvisorIs(Units(args), Fold(args).value.advisor)
    decreases |args|
  {
    if args == [] {
    } else if args[0] == END {
      assert Units(args) == [Kept(args)];
    } else if SETTINGS_EQ <= args[0] {
      AdvisorIsTheLast(args[1..]);
      OneMoreAdvice(Settings(args[..1], args[0][|SETTINGS_EQ|..]), Units(args[1..]), None,
                    Fold(args[1..]).value.advisor);
    } else if args[0] == SETTINGS {
      AdvisorIsTheLast(args[2..]);
      OneMoreAdvice(Settings(args[..2], args[1]), Units(args[2..]), None, Fold(args[2..]).value.advisor);
    } else {
      var span := OptionSpan(args);
      var unit := Kept(args[..span]);
      AdvisorIsTheLast(args[span..]);
      forall value | Advises(unit, value) ensures AdvisorOf(args).None? ==> Blank(value) {
        UnitAdvises(args, value);
        TrimCuts(value);
      }
      if AdvisorOf(args).Some? {
        var value := AdviceIsGiven(args);
        TrimCuts(value);
      }
      OneMoreAdvice(unit, Units(args[span..]), AdvisorOf(args), Fold(args[span..]).value.advisor);
    }
  }

  /* ---------- which words are taken as values ---------- */

  lemma UnitsPlain(args: Args, span: nat)
    requires args != [] && PlainWord(args[0]) && span == OptionSpan(args)
    ensures Units(args) == [Kept(args[..span])] + Units(args[span..])
  {}

  lemma OneTaken(flag: string, rest: Args)
    requires PlainWord(flag) && OptionSpan([flag] + rest) == 1
    ensures Units([flag] + rest) == [Kept([flag])] + Units(rest)
  {
    var args := [flag] + rest;
    UnitsPlain(args, 1);
    assert args[..1] == [flag] && args[1..] == rest;
  }

  lemma TwoTaken(flag: string, word: string, rest: Args)
    requires PlainWord(flag) && OptionSpan([flag, word] + rest) == 2
    ensures Units([flag, word] + rest) == [Kept([flag, word])] + Units(rest)
  {
    var args := [flag, word] + rest;
    UnitsPlain(args, 2);
    assert args[..2] == [flag, word] && args[2..] == rest;
  }

  lemma TwoSpan(flag: string, word: string, rest: Args)
    requires TakesAny(flag) || (TakesUndashed(flag) && !Dashed(word))
    ensures OptionSpan([flag, word] + rest) == 2
  {}

  lemma OneSpans(flag: string, word: string, rest: Args)
    requires !TakesAny(flag) && Dashed(word)
    ensures OptionSpan([flag, word] + rest) == 1
  {}

  lemma FlagIsPlain(flag: string)
    requires flag in VALUE_FLAGS || flag in OPTIONAL_VALUE_FLAGS
    requires flag != SETTINGS
    ensures PlainWord(flag)
  {
    FlagsAreDashed(flag);
    if SETTINGS_EQ <= flag {
      JoinedLooks(flag);
    }
    if flag in VALUE_FLAGS {
      ValueFlagsAreLong(flag);
    }
  }

  lemma ClusterIsPlain(flag: string)
    requires ShortClusterTakesValue(flag)
    ensures PlainWord(flag)
  {
    assert flag[1] in BOOLEAN_SHORTS;
    assert flag[1] != '-';
  }

  /** A flag that takes a value takes the next word whatever it is: a flag, or the mark that ends the flags. */
  lemma ValueFlagTakesAnyWord(flag: string, word: string, rest: Args)
    requires TakesAny(flag) && flag != SETTINGS
    ensures Units([flag, word] + rest) == [Kept([flag, word])] + Units(rest)
  {
    if ShortClusterTakesValue(flag) {
      ClusterIsPlain(flag);
    } else {
      FlagIsPlain(flag);
    }
    TwoSpan(flag, word, rest);
    TwoTaken(flag, word, rest);
  }

  lemma ClusterTakesAnyWord(shorts: string, word: string, rest: Args)
    requires shorts != "" && forall i :: 0 <= i < |shorts| ==> shorts[i] in "chpv"
    ensures var flag := "-" + shorts + "n"; Units([flag, word] + rest) == [Kept([flag, word])] + Units(rest)
  {
    ClusterTakesAny(shorts);
    ClusterWord("-" + shorts + "n", word, rest);
  }

  lemma ClusterWord(flag: string, word: string, rest: Args)
    requires ShortClusterTakesValue(flag)
    ensures Units([flag, word] + rest) == [Kept([flag, word])] + Units(rest)
  {
    ClusterIsPlain(flag);
    TwoSpan(flag, word, rest);
    TwoTaken(flag, word, rest);
  }

  /** A cluster of short flags that ends in the one that takes a value is such a flag. */
  lemma ClusterTakesAny(shorts: string)
    requires shorts != "" && forall i :: 0 <= i < |shorts| ==> shorts[i] in "chpv"
    ensures ShortClusterTakesValue("-" + shorts + "n")
  {
    var flag := "-" + shorts + "n";
    assert forall i :: 1 <= i < |flag| - 1 ==> flag[i] == shorts[i - 1];
  }

  lemma OptionalIsPlain(flag: string)
    requires TakesUndashed(flag) && !TakesAny(flag)
    ensures PlainWord(flag)
  {
    assert SETTINGS in VALUE_FLAGS_R_Z;
    FlagIsPlain(flag);
  }

  /** A flag with an optional value takes a word with no dash. */
  lemma OptionalTakesUndashed(flag: string, word: string, rest: Args)
    requires TakesUndashed(flag) && !TakesAny(flag) && !Dashed(word)
    ensures Units([flag, word] + rest) == [Kept([flag, word])] + Units(rest)
  {
    OptionalIsPlain(flag);
    TwoSpan(flag, word, rest);
    TwoTaken(flag, word, rest);
  }

  /** It leaves one with a dash to be read as a flag of its own. */
  lemma OptionalLeavesDashed(flag: string, word: string, rest: Args)
    requires TakesUndashed(flag) && !TakesAny(flag) && Dashed(word)
    ensures Units([flag, word] + rest) == [Kept([flag])] + Units([word] + rest)
  {
    OptionalIsPlain(flag);
    OneSpans(flag, word, rest);
    assert [flag, word] + rest == [flag] + ([word] + rest);
    OneTaken(flag, [word] + rest);
  }
}
