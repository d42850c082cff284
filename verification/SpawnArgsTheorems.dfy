/** Folding the settings flags out leaves a list that folds to itself, with exactly those words gone. */
module SpawnArgsTheorems {
  import opened Wrappers
  import opened SpawnArgs

  /* ---------- the flag tables ---------- */

  lemma DashedAD(arg: string)
    requires arg in VALUE_FLAGS_A_D
    ensures Dashed(arg) && (|arg| <= 10 || arg[10] != '=') && (|arg| > 2 || (|arg| == 2 && arg[1] == 'n'))
  {}

  lemma DashedDM(arg: string)
    requires arg in VALUE_FLAGS_D_M
    ensures Dashed(arg) && (|arg| <= 10 || arg[10] != '=') && (|arg| > 2 || (|arg| == 2 && arg[1] == 'n'))
  {}

  lemma DashedMR(arg: string)
    requires arg in VALUE_FLAGS_M_R
    ensures Dashed(arg) && (|arg| <= 10 || arg[10] != '=') && (|arg| > 2 || (|arg| == 2 && arg[1] == 'n'))
  {}

  lemma DashedRZ(arg: string)
    requires arg in VALUE_FLAGS_R_Z
    ensures Dashed(arg) && (|arg| <= 10 || arg[10] != '=') && (|arg| > 2 || (|arg| == 2 && arg[1] == 'n'))
  {}

  lemma DashedOptional(arg: string)
    requires arg in OPTIONAL_VALUE_FLAGS
    ensures Dashed(arg) && (|arg| <= 10 || arg[10] != '=')
  {}

  /** Every flag of the tables starts with a dash, and none holds a joined value. */
  lemma FlagsAreDashed(arg: string)
    requires arg in VALUE_FLAGS || arg in OPTIONAL_VALUE_FLAGS
    ensures Dashed(arg) && (|arg| <= 10 || arg[10] != '=')
  {
    if arg in VALUE_FLAGS_A_D {
      DashedAD(arg);
    } else if arg in VALUE_FLAGS_D_M {
      DashedDM(arg);
    } else if arg in VALUE_FLAGS_M_R {
      DashedMR(arg);
    } else if arg in VALUE_FLAGS_R_Z {
      DashedRZ(arg);
    } else {
      DashedOptional(arg);
    }
  }

  /** A word with no leading dash is never a flag. */
  lemma UndashedIsPlain(word: string, rest: Args)
    requires !Dashed(word)
    ensures PlainWord(word) && OptionSpan([word] + rest) == 1
    ensures AdvisorOf([word] + rest) == None
  {
    if TakesAny(word) && word in VALUE_FLAGS {
      FlagsAreDashed(word);
    }
    if TakesUndashed(word) {
      FlagsAreDashed(word);
    }
  }

  lemma JoinedLooks(arg: string)
    requires SETTINGS_EQ <= arg
    ensures |arg| > 10 && arg[1] == '-' && arg[10] == '='
  {}

  lemma DashIsNoShort(arg: string)
    requires |arg| > 10 && arg[1] == '-'
    ensures !ShortClusterTakesValue(arg)
  {}

  lemma JoinedTakesNone(arg: string)
    requires |arg| > 10 && arg[1] == '-' && arg[10] == '='
    ensures !TakesAny(arg) && !TakesUndashed(arg)
  {
    DashIsNoShort(arg);
    if arg in VALUE_FLAGS || arg in OPTIONAL_VALUE_FLAGS {
      FlagsAreDashed(arg);
    }
  }

  /** A settings flag with its value joined takes no other word. */
  lemma JoinedSpansOne(args: Args)
    requires args != [] && SETTINGS_EQ <= args[0]
    ensures OptionSpan(args) == 1
  {
    JoinedLooks(args[0]);
    JoinedTakesNone(args[0]);
  }

  lemma BareSpansTwo(args: Args)
    requires |args| >= 2 && (args[0] == SETTINGS || args[0] == ADVISOR)
    ensures OptionSpan(args) == 2
  {}

  /* ---------- the words a flag takes, once settings flags before them are gone ---------- */

  /** What is left after a flag spans as many words as before, or it has come to stand before a word
      with no dash and takes that one too; the advisor it names stays. */
  lemma SpanAfterFold(args: Args, rest: Args)
    requires args != [] && PlainWord(args[0])
    requires |args| == 1 ==> rest == []
    ensures var span := OptionSpan(args);
      var clean := args[..span] + rest;
      && AdvisorOf(clean) == AdvisorOf(args)
      && (OptionSpan(clean) == span
          || (span == 1 && OptionSpan(clean) == 2 && rest != [] && !Dashed(rest[0])))
  {}

  /* ---------- folding again ---------- */

  lemma FoldUndashed(word: string, rest: Args)
    requires !Dashed(word)
    ensures Fold([word] + rest) == WithWords([word], None, Fold(rest))
  {
    UndashedIsPlain(word, rest);
    FoldPlain([word] + rest);
    assert ([word] + rest)[..1] == [word] && ([word] + rest)[1..] == rest;
  }

  /** Folding what a fold kept changes nothing more: no settings value, the same words, the same
      advisor. */
  lemma {:induction false} FoldTwice(args: Args)
    requires Fold(args).Some?
    ensures var folded := Fold(args).value;
      Fold(folded.clean) == Some(Folded(None, folded.clean, folded.advisor))
    decreases |args|
  {
    if args == [] || args[0] == END {
    } else if SETTINGS_EQ <= args[0] {
      FoldTwice(args[1..]);
    } else if args[0] == SETTINGS {
      FoldTwice(args[2..]);
    } else {
      var span := OptionSpan(args);
      FoldTwice(args[span..]);
      PlainTwice(args, Fold(args[span..]).value);
    }
  }

  lemma PlainTwice(args: Args, rest: Folded)
    requires args != [] && PlainWord(args[0])
    requires Fold(args[OptionSpan(args)..]) == Some(rest)
    requires Fold(rest.clean) == Some(Folded(None, rest.clean, rest.advisor))
    ensures var clean := args[..OptionSpan(args)] + rest.clean;
      Fold(clean) == Some(Folded(None, clean, Later(AdvisorOf(args), rest.advisor)))
  {
    var words := args[..OptionSpan(args)];
    SpanAfterFold(args, rest.clean);
    if OptionSpan(words + rest.clean) == |words| {
      SameSpanTwice(words, rest);
    } else {
      assert words == [args[0]];
      TakesNextTwice(args[0], rest);
    }
  }

  lemma SameSpanTwice(words: Args, rest: Folded)
    requires words != [] && PlainWord(words[0]) && OptionSpan(words + rest.clean) == |words|
    requires Fold(rest.clean) == Some(Folded(None, rest.clean, rest.advisor))
    ensures var clean := words + rest.clean;
      Fold(clean) == Some(Folded(None, clean, Later(AdvisorOf(clean), rest.advisor)))
  {
    var clean := words + rest.clean;
    FoldPlain(clean);
    assert clean[..|words|] == words && clean[|words|..] == rest.clean;
  }

  lemma TakesNextTwice(flag: string, rest: Folded)
    requires PlainWord(flag) && rest.clean != [] && !Dashed(rest.clean[0])
    requires OptionSpan([flag] + rest.clean) == 2
    requires Fold(rest.clean) == Some(Folded(None, rest.clean, rest.advisor))
    ensures var clean := [flag] + rest.clean;
      Fold(clean) == Some(Folded(None, clean, Later(AdvisorOf(clean), rest.advisor)))
  {
    var word, after := rest.clean[0], rest.clean[1..];
    assert rest.clean == [word] + after;
    FoldUndashed(word, after);
    var clean := [flag] + rest.clean;
    assert clean == [flag, word] + after;
    SameSpanTwice([flag, word], Folded(rest.settings, after, rest.advisor));
  }

  /* ---------- where the flags end ---------- */

  /** `tail` ends the list, and is where its flags end. */
  predicate EndsWith(args: Args, tail: Args) {
    |args| >= |tail| && args[|args| - |tail|..] == tail && OptionsEnd(args) == |args| - |tail|
  }

  lemma OneMoreEndsWith(words: Args, rest: Args, tail: Args)
    requires EndsWith(rest, tail) && words != [] && words[0] != END
    requires OptionSpan(words + rest) == |words|
    ensures EndsWith(words + rest, tail)
  {
    var args := words + rest;
    assert args[|words|..] == rest;
    assert args[|args| - |tail|..] == rest[|rest| - |tail|..];
  }

  lemma UndashedEndsWith(word: string, rest: Args, tail: Args)
    requires EndsWith([word] + rest, tail) && !Dashed(word)
    ensures EndsWith(rest, tail)
  {
    var args := [word] + rest;
    UndashedIsPlain(word, rest);
    assert args[1..] == rest;
    assert |rest| >= |tail|;
    assert args[|args| - |tail|..] == rest[|rest| - |tail|..];
  }

  lemma TakesNextEndsWith(flag: string, rest: Args, tail: Args)
    requires EndsWith(rest, tail) && rest != [] && !Dashed(rest[0]) && flag != END
    requires OptionSpan([flag] + rest) == 2
    ensures EndsWith([flag] + rest, tail)
  {
    var word, after := rest[0], rest[1..];
    assert rest == [word] + after;
    UndashedEndsWith(word, after, tail);
    assert [flag] + rest == [flag, word] + after;
    OneMoreEndsWith([flag, word], after, tail);
  }

  lemma PlainTail(args: Args, rest: Args, tail: Args)
    requires args != [] && PlainWord(args[0]) && (|args| == 1 ==> rest == [])
    requires EndsWith(rest, tail)
    ensures EndsWith(args[..OptionSpan(args)] + rest, tail)
  {
    var words := args[..OptionSpan(args)];
    SpanAfterFold(args, rest);
    if OptionSpan(words + rest) == |words| {
      OneMoreEndsWith(words, rest, tail);
    } else {
      assert words == [args[0]];
      TakesNextEndsWith(args[0], rest, tail);
    }
  }

  /** Everything from the end of the flags on goes through as it is, and is still where they end. */
  lemma {:induction false} TailIsVerbatim(args: Args)
    requires Fold(args).Some?
    ensures EndsWith(Fold(args).value.clean, args[OptionsEnd(args)..])
    decreases |args|
  {
    if args == [] || args[0] == END {
    } else {
      var joined := SETTINGS_EQ <= args[0];
      var span := OptionSpan(args);
      if joined {
        JoinedSpansOne(args);
      } else if args[0] == SETTINGS {
        BareSpansTwo(args);
      }
      var rest := args[span..];
      TailIsVerbatim(rest);
      assert args[OptionsEnd(args)..] == rest[OptionsEnd(rest)..];
      if !joined && args[0] != SETTINGS {
        PlainTail(args, Fold(rest).value.clean, rest[OptionsEnd(rest)..]);
      }
    }
  }

  /* ---------- exactly the settings words go ---------- */

  /** The words of the walk, grouped by the flag they belong to. */
  datatype Unit = Kept(words: Args) | Settings(words: Args, value: string)

  function Units(args: Args): seq<Unit>
    decreases |args|
  {
    if args == [] then []
    else if args[0] == END then [Kept(args)]
    else if SETTINGS_EQ <= args[0] then [Settings(args[..1], args[0][|SETTINGS_EQ|..])] + Units(args[1..])
    else if args[0] == SETTINGS then
      if |args| == 1 then [] else [Settings(args[..2], args[1])] + Units(args[2..])
    else [Kept(args[..OptionSpan(args)])] + Units(args[OptionSpan(args)..])
  }

  function Words(units: seq<Unit>): Args {
    if units == [] then [] else units[0].words + Words(units[1..])
  }

  function KeptWords(units: seq<Unit>): Args {
    if units == [] then [] else (if units[0].Kept? then units[0].words else []) + KeptWords(units[1..])
  }

  function LastValue(units: seq<Unit>): Option<string> {
    if units == [] then None
    else Later(if units[0].Settings? then Some(units[0].value) else None, LastValue(units[1..]))
  }

  /** The words of a settings flag: joined to its value, or before it. */
  predicate SettingsWords(unit: Unit) {
    unit.Settings? ==> unit.words == [SETTINGS, unit.value] || unit.words == [SETTINGS_EQ + unit.value]
  }

  /** The units make the list up, the kept ones are what the fold keeps, and the last settings value is
      the one it yields. */
  predicate Accounts(units: seq<Unit>, args: Args, folded: Folded) {
    && Words(units) == args && KeptWords(units) == folded.clean && LastValue(units) == folded.settings
    && forall i :: 0 <= i < |units| ==> SettingsWords(units[i])
  }

  lemma OneMoreUnit(unit: Unit, units: seq<Unit>, args: Args, folded: Folded, advisor: Option<string>)
    requires Accounts(units, args, folded) && SettingsWords(unit)
    ensures Accounts([unit] + units, unit.words + args,
      if unit.Settings? then folded.(settings := Later(Some(unit.value), folded.settings))
      else folded.(clean := unit.words + folded.clean, advisor := Later(advisor, folded.advisor)))
  {}

  /** A fold that ends well splits the list into units that make it up again; the words it keeps are those
      of the units that are no settings flag, and the value it yields is the last settings flag's. */
  lemma {:induction false} ExactlySettingsGo(args: Args)
    requires Fold(args).Some?
    ensures Accounts(Units(args), args, Fold(args).value)
    decreases |args|
  {
    if args == [] {
    } else if args[0] == END {
      assert Units(args)[1..] == [];
    } else if SETTINGS_EQ <= args[0] {
      JoinedGoes(args);
    } else if args[0] == SETTINGS {
      BareGoes(args);
    } else {
      PlainStays(args);
    }
  }

  lemma {:induction false} JoinedGoes(args: Args)
    requires args != [] && args[0] != END && SETTINGS_EQ <= args[0]
    requires Fold(args).Some?
    ensures Accounts(Units(args), args, Fold(args).value)
    decreases |args|, 0
  {
    var value := args[0][|SETTINGS_EQ|..];
    ExactlySettingsGo(args[1..]);
    assert args[0] == SETTINGS_EQ + value;
    OneMoreUnit(Settings(args[..1], value), Units(args[1..]), args[1..], Fold(args[1..]).value, None);
    assert args == args[..1] + args[1..];
  }

  lemma {:induction false} BareGoes(args: Args)
    requires args != [] && args[0] == SETTINGS && Fold(args).Some?
    ensures Accounts(Units(args), args, Fold(args).value)
    decreases |args|, 0
  {
    ExactlySettingsGo(args[2..]);
    OneMoreUnit(Settings(args[..2], args[1]), Units(args[2..]), args[2..], Fold(args[2..]).value, None);
    assert args == args[..2] + args[2..];
  }

  lemma {:induction false} PlainStays(args: Args)
    requires args != [] && PlainWord(args[0]) && Fold(args).Some?
    ensures Accounts(Units(args), args, Fold(args).value)
    decreases |args|, 0
  {
    var span := OptionSpan(args);
    var rest := args[span..];
    ExactlySettingsGo(rest);
    OneMoreUnit(Kept(args[..span]), Units(rest), rest, Fold(rest).value, AdvisorOf(args));
    assert args == args[..span] + rest;
  }

  /** A fold fails exactly when the walk ends at a settings flag with no word left to take. */
  lemma {:induction false} FoldFailsExactlyWhen(args: Args)
    ensures Fold(args).None? <==> args == Words(Units(args)) + [SETTINGS]
    decreases |args|
  {
    if Fold(args).Some? {
      ExactlySettingsGo(args);
      assert |Words(Units(args)) + [SETTINGS]| == |args| + 1;
    } else {
      FailsAtBareSettings(args);
    }
  }

  lemma {:induction false} FailsAtBareSettings(args: Args)
    requires Fold(args).None?
    ensures args == Words(Units(args)) + [SETTINGS]
    decreases |args|
  {
    if SETTINGS_EQ <= args[0] {
      FailsAfter(args, Settings(args[..1], args[0][|SETTINGS_EQ|..]), 1);
    } else if args[0] == SETTINGS {
      if |args| == 1 {
        assert args == [] + [SETTINGS];
      } else {
        FailsAfter(args, Settings(args[..2], args[1]), 2);
      }
    } else {
      FailsAfter(args, Kept(args[..OptionSpan(args)]), OptionSpan(args));
    }
  }

  lemma {:induction false} FailsAfter(args: Args, unit: Unit, span: nat)
    requires 0 < span <= |args| && unit.words == args[..span]
    requires Fold(args[span..]).None? && Units(args) == [unit] + Units(args[span..])
    ensures args == Words(Units(args)) + [SETTINGS]
    decreases |args|, 0
  {
    FailsAtBareSettings(args[span..]);
    assert ([unit] + Units(args[span..]))[1..] == Units(args[span..]);
    assert args == args[..span] + args[span..];
  }

  /** Taking a settings flag out can give the flag before it a word it did not have: a flag with an
      optional value, which a settings flag kept from the prompt after it, takes the prompt. */
  lemma FoldCanMoveAValue(flag: string, value: string, word: string)
    requires TakesUndashed(flag) && !TakesAny(flag) && PlainWord(flag) && !Dashed(word)
    ensures var args := [flag, SETTINGS, value, word];
      && OptionSpan(args) == 1
      && Fold(args).Some? && Fold(args).value.clean == [flag, word]
      && OptionSpan(Fold(args).value.clean) == 2
  {
    var args := [flag, SETTINGS, value, word];
    assert Dashed(args[1]);
    FoldPlain(args);
    var rest := args[1..];
    assert args[..1] == [flag] && rest == [SETTINGS, value, word];
    FoldSettings(value, [word]);
    assert rest == [SETTINGS, value] + [word];
    FoldUndashed(word, []);
    assert [word] + [] == [word];
    assert [flag] + [word] == [flag, word];
  }

  lemma FoldSettings(value: string, rest: Args)
    ensures Fold([SETTINGS, value] + rest) == WithSettings(value, Fold(rest))
  {}

  /** It happens to `claude -r --settings f prompt`. */
  lemma ResumeTakesThePrompt()
    ensures TakesUndashed("-r") && !TakesAny("-r") && PlainWord("-r") && !Dashed("prompt")
  {
    if "-r" in VALUE_FLAGS {
      ValueFlagsAreLong("-r");
    }
  }

  lemma ValueFlagsAreLong(arg: string)
    requires arg in VALUE_FLAGS
    ensures |arg| > 2 || (|arg| == 2 && arg[1] == 'n')
  {
    if arg in VALUE_FLAGS_A_D {
      DashedAD(arg);
    } else if arg in VALUE_FLAGS_D_M {
      DashedDM(arg);
    } else if arg in VALUE_FLAGS_M_R {
      DashedMR(arg);
    } else {
      DashedRZ(arg);
    }
  }
}
