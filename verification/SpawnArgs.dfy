/**
 * The walk over the words handed on to `claude`: which of them are flags, which are values another flag
 * takes, and what is left once every settings flag is folded out.
 */
module SpawnArgs {
  import opened Wrappers
  import ShellWords

  type Args = seq<string>

  /** Root flags that take the next word whatever it holds. */
  const VALUE_FLAGS := VALUE_FLAGS_A_D + VALUE_FLAGS_D_M + VALUE_FLAGS_M_R + VALUE_FLAGS_R_Z

  const VALUE_FLAGS_A_D: set<string> := {
    "--add-dir", "--advisor", "--agent", "--agent-color", "--agent-id", "--agent-name", "--agent-type", "--agents",
    "--allowed-tools", "--allowedTools", "--append-subagent-system-prompt", "--append-subagent-system-prompt-file",
    "--append-system-prompt", "--append-system-prompt-file", "--attach-serve", "--autocompact", "--betas",
    "--channels", "--client-data-url", "--correlation-id"}

  const VALUE_FLAGS_D_M: set<string> := {
    "--dangerously-load-development-channels", "--debug-file", "--deep-link-last-fetch", "--deep-link-repo",
    "--disallowed-tools", "--disallowedTools", "--effort", "--environment", "--fallback-model", "--fast-mode",
    "--file", "--forward-home-settings", "--inherit-permission-mode", "--input-format", "--json-schema",
    "--managed-settings", "--max-budget-usd", "--max-thinking-tokens", "--max-turns", "--mcp-config"}

  const VALUE_FLAGS_M_R: set<string> := {
    "--messaging-socket-path", "--model", "--name", "--on-branch", "--output-format", "--parent-session-id",
    "--permission-mode", "--permission-prompt-tool", "--permission-prompts", "--plan-mode-instructions",
    "--plugin-dir", "--plugin-dir-no-mcp", "--plugin-url", "--pool", "--prefill", "--proactivity",
    "--project-config-root", "--ref", "--remote", "--remote-control-session-name-prefix", "--resume-drops-turn"}

  const VALUE_FLAGS_R_Z: set<string> := {
    "--resume-session-at", "--rewind-files", "--runner-declares", "--sdk-url", "--session-id", "--setting-sources",
    "--settings", "--system-prompt", "--system-prompt-file", "--system-prompt-snapshot", "--task-budget",
    "--team-name", "--teammate-mode", "--thinking", "--thinking-display", "--tools", "--watch-artifact",
    "--watch-artifact-no-autoreact", "--workload", "-n"}

  /** Root flags that take the next word unless it starts with a dash. */
  const OPTIONAL_VALUE_FLAGS := {
    "-r", "--resume", "-d", "--debug", "-w", "--worktree", "--from-pr", "--teleport", "--cloud", "--remote-control",
    "--prompt-suggestions"}

  /** The short flags a cluster may hold before its value-taking `n`. */
  const BOOLEAN_SHORTS := "chpv"

  predicate Dashed(word: string) {
    word != "" && word[0] == '-'
  }

  predicate ShortClusterTakesValue(arg: string) {
    && |arg| > 2 && arg[0] == '-' && arg[|arg| - 1] == 'n'
    && forall i :: 1 <= i < |arg| - 1 ==> arg[i] in BOOLEAN_SHORTS
  }

  /** A flag that takes whatever word is next. */
  predicate TakesAny(arg: string) {
    arg in VALUE_FLAGS || ShortClusterTakesValue(arg)
  }

  predicate TakesUndashed(arg: string) {
    arg in OPTIONAL_VALUE_FLAGS
  }

  /** How many words the first one spans. */
  function OptionSpan(args: Args): (span: nat)
    requires args != []
    ensures 1 <= span <= 2 && span <= |args|
  {
    if |args| == 1 then 1
    else if TakesAny(args[0]) || (TakesUndashed(args[0]) && !Dashed(args[1])) then 2
    else 1
  }

  const END := "--"
  const SETTINGS := "--settings"
  const SETTINGS_EQ := "--settings="
  const ADVISOR := "--advisor"
  const ADVISOR_EQ := "--advisor="

  /** One value trimmed of white space at both ends. */
  function Trim(s: string): string {
    TrimEnd(TrimStart(s))
  }

  function TrimStart(s: string): string {
    if s != "" && ShellWords.Space(s[0]) then TrimStart(s[1..]) else s
  }

  function TrimEnd(s: string): string {
    if s != "" && ShellWords.Space(s[|s| - 1]) then TrimEnd(s[..|s| - 1]) else s
  }

  /** The advisor a flag and its span name; a blank value names none. */
  function AdvisorOf(args: Args): Option<string>
    requires args != []
  {
    var value :=
      if ADVISOR_EQ <= args[0] then Some(args[0][|ADVISOR_EQ|..])
      else if args[0] == ADVISOR && OptionSpan(args) == 2 then Some(args[1])
      else None;
    if value.Some? && Trim(value.value) != "" then Some(Trim(value.value)) else None
  }

  /** The later of two values of one flag. */
  function Later<T>(first: Option<T>, later: Option<T>): Option<T> {
    if later.Some? then later else first
  }

  datatype Folded = Folded(settings: Option<string>, clean: Args, advisor: Option<string>)

  /** What one walk yields; nothing when a settings flag has no word left to take. */
  function Fold(args: Args): Option<Folded>
    decreases |args|
  {
    if args == [] then Some(Folded(None, [], None))
    else if args[0] == END then Some(Folded(None, args, None))
    else if SETTINGS_EQ <= args[0] then WithSettings(args[0][|SETTINGS_EQ|..], Fold(args[1..]))
    else if args[0] == SETTINGS then
      if |args| == 1 then None else WithSettings(args[1], Fold(args[2..]))
    else
      var span := OptionSpan(args);
      WithWords(args[..span], AdvisorOf(args), Fold(args[span..]))
  }

  function WithSettings(value: string, rest: Option<Folded>): Option<Folded> {
    if rest.None? then None else Some(rest.value.(settings := Later(Some(value), rest.value.settings)))
  }

  function WithWords(words: Args, advisor: Option<string>, rest: Option<Folded>): Option<Folded> {
    if rest.None? then None
    else Some(rest.value.(clean := words + rest.value.clean, advisor := Later(advisor, rest.value.advisor)))
  }

  /** Where the flags end: the first `--` in a flag position, else the end. */
  function OptionsEnd(args: Args): (end: nat)
    ensures end <= |args|
    decreases |args|
  {
    if args == [] || args[0] == END then 0
    else OptionSpan(args) + OptionsEnd(args[OptionSpan(args)..])
  }

  /* ---------- the walks as they run ---------- */

  /** A walk's words so far, before what is left of it. */
  function Before(settings: Option<string>, clean: Args, advisor: Option<string>, rest: Option<Folded>): Option<Folded> {
    if rest.None? then None
    else Some(Folded(Later(settings, rest.value.settings), clean + rest.value.clean,
                     Later(advisor, rest.value.advisor)))
  }

  lemma BeforeAll(args: Args)
    ensures args[0..] == args
    ensures Fold(args) == Before(None, [], None, Fold(args))
  {
    var fold := Fold(args);
    assert fold.Some? ==> [] + fold.value.clean == fold.value.clean;
  }

  lemma BeforeSettings(settings: Option<string>, clean: Args, advisor: Option<string>, value: string, rest: Option<Folded>)
    ensures Before(settings, clean, advisor, WithSettings(value, rest)) == Before(Some(value), clean, advisor, rest)
  {}

  lemma BeforeWords(settings: Option<string>, clean: Args, advisor: Option<string>, words: Args, more: Option<string>,
                    rest: Option<Folded>)
    ensures Before(settings, clean, advisor, WithWords(words, more, rest)) ==
      Before(settings, clean + words, Later(advisor, more), rest)
  {
    if rest.Some? {
      assert clean + (words + rest.value.clean) == clean + words + rest.value.clean;
    }
  }

  /** The walk at a word past which nothing is a flag. */
  function Verbatim(args: Args): Option<Folded> {
    Some(Folded(None, args, None))
  }

  lemma BeforeVerbatim(settings: Option<string>, clean: Args, advisor: Option<string>, args: Args)
    requires args != []
    ensures Before(settings, clean, advisor, Verbatim(args)) ==
      Before(settings, clean + [args[0]], advisor, Verbatim(args[1..]))
  {
    assert clean + args == clean + [args[0]] + args[1..];
  }

  /** One word of the walk that is no settings flag and does not end the flags. */
  predicate PlainWord(arg: string) {
    arg != END && !(SETTINGS_EQ <= arg) && arg != SETTINGS
  }

  lemma FoldPlain(args: Args)
    requires args != [] && PlainWord(args[0])
    ensures var span := OptionSpan(args);
      Fold(args) == WithWords(args[..span], AdvisorOf(args), Fold(args[span..]))
  {}

  method FoldArgs(args: Args) returns (folded: Option<Folded>)
    ensures folded == Fold(args)
  {
    BeforeAll(args);
    var value, advisor := None, None;
    var clean: Args := [];
    var i := 0;
    while i < |args| && args[i] != END
      invariant 0 <= i <= |args|
      invariant Fold(args) == Before(value, clean, advisor, Fold(args[i..]))
      decreases |args| - i
    {
      var next;
      next, value, clean, advisor := FoldAt(args, i, value, clean, advisor);
      if next == i {
        return None;
      }
      i := next;
    }
    folded := PushRest(args[i..], value, clean, advisor);
  }

  /** Past the end of the flags every word goes through. */
  method PushRest(args: Args, value: Option<string>, clean: Args, advisor: Option<string>) returns (folded: Option<Folded>)
    requires args != [] ==> args[0] == END
    ensures folded == Before(value, clean, advisor, Fold(args))
  {
    var pushed := clean;
    for i := 0 to |args|
      invariant Before(value, clean, advisor, Verbatim(args)) == Before(value, pushed, advisor, Verbatim(args[i..]))
    {
      BeforeVerbatim(value, pushed, advisor, args[i..]);
      assert args[i..][1..] == args[i + 1..];
      pushed := pushed + [args[i]];
    }
    assert pushed + [] == pushed;
    folded := Some(Folded(value, pushed, advisor));
  }

  /** One step of the walk at `i`: where it goes on, at `i` again when a settings flag has no word to
      take. */
  method FoldAt(args: Args, i: nat, settings: Option<string>, kept: Args, last: Option<string>)
    returns (next: nat, value: Option<string>, clean: Args, advisor: Option<string>)
    requires i < |args| && args[i] != END
    ensures i <= next <= |args|
    ensures next == i ==> Before(settings, kept, last, Fold(args[i..])).None?
    ensures next > i ==>
      Before(settings, kept, last, Fold(args[i..])) == Before(value, clean, advisor, Fold(args[next..]))
  {
    var span;
    span, value, clean, advisor := FoldOne(args[i..], settings, kept, last);
    next := i + span;
    assert args[i..][span..] == args[next..];
  }

  /** One step of the walk: the words it spans, none when a settings flag has no word to take, and the
      last settings value, the kept words and the last advisor so far. */
  method FoldOne(args: Args, settings: Option<string>, kept: Args, last: Option<string>)
    returns (span: nat, value: Option<string>, clean: Args, advisor: Option<string>)
    requires args != [] && args[0] != END
    ensures span <= |args|
    ensures span == 0 ==> Fold(args).None?
    ensures span > 0 ==> Before(settings, kept, last, Fold(args)) == Before(value, clean, advisor, Fold(args[span..]))
  {
    var arg := args[0];
    value, clean, advisor := settings, kept, last;
    if SETTINGS_EQ <= arg {
      BeforeSettings(settings, kept, last, arg[|SETTINGS_EQ|..], Fold(args[1..]));
      return 1, Some(arg[|SETTINGS_EQ|..]), clean, advisor;
    }
    if arg == SETTINGS {
      if |args| == 1 {
        return 0, value, clean, advisor;
      }
      BeforeSettings(settings, kept, last, args[1], Fold(args[2..]));
      return 2, Some(args[1]), clean, advisor;
    }
    span := OptionSpan(args);
    FoldPlain(args);
    BeforeWords(settings, kept, last, args[..span], AdvisorOf(args), Fold(args[span..]));
    advisor := NoteFlag(last, args);
    clean := kept + args[..span];
  }

  /** Record the advisor the flag at the head names, if any. */
  method NoteFlag(advisor: Option<string>, args: Args) returns (noted: Option<string>)
    requires args != []
    ensures noted == Later(advisor, AdvisorOf(args))
  {
    if ADVISOR_EQ <= args[0] {
      noted := NoteAdvisor(advisor, args[0][|ADVISOR_EQ|..]);
    } else if args[0] == ADVISOR && OptionSpan(args) == 2 {
      noted := NoteAdvisor(advisor, args[1]);
    } else {
      noted := advisor;
    }
  }

  method NoteAdvisor(advisor: Option<string>, value: string) returns (noted: Option<string>)
    ensures noted == Later(advisor, if Trim(value) != "" then Some(Trim(value)) else None)
  {
    noted := if Trim(value) != "" then Some(Trim(value)) else advisor;
  }

  method FindOptionsEnd(args: Args) returns (end: nat)
    ensures end == OptionsEnd(args)
  {
    end := 0;
    while end < |args|
      invariant 0 <= end <= |args|
      invariant OptionsEnd(args) == end + OptionsEnd(args[end..])
      decreases |args| - end
    {
      if args[end] == END {
        return;
      }
      var span := OptionSpan(args[end..]);
      assert args[end..][span..] == args[end + span..];
      end := end + span;
    }
  }
}
