/**
 * Shell quoting, and the helper command Claude Code runs for an api key: what a POSIX shell splits it
 * into, and the account name read back out of it.
 */
module ShellWords {
  import opened Wrappers

  /* ---------- quoting ---------- */

  /** Every single quote closed, escaped and reopened. */
  function Escaped(s: string): string {
    if s == "" then ""
    else (if s[0] == '\'' then "'\\''" else [s[0]]) + Escaped(s[1..])
  }

  function PosixQuote(s: string): string {
    "'" + Escaped(s) + "'"
  }

  predicate Alphanumeric(c: char) {
    'a' <= c <= 'z' || 'A' <= c <= 'Z' || '0' <= c <= '9'
  }

  predicate SafeChar(c: char) {
    || Alphanumeric(c)
    || c == '_' || c == '.' || c == '/' || c == ':' || c == '@' || c == '=' || c == ',' || c == '+' || c == '-'
    || c == '%'
  }

  predicate AllSafe(s: string) {
    forall i :: 0 <= i < |s| ==> SafeChar(s[i])
  }

  function ShellQuote(s: string): string {
    if s == "" then "''" else if AllSafe(s) then s else PosixQuote(s)
  }

  lemma {:induction false} EscapedTogether(a: string, b: string)
    ensures Escaped(a + b) == Escaped(a) + Escaped(b)
    decreases |a|
  {
    if a == "" {
      assert a + b == b;
    } else {
      assert (a + b)[1..] == a[1..] + b;
      EscapedTogether(a[1..], b);
    }
  }

  /** The quoting as it runs, one character at a time. */
  method Quote(s: string) returns (out: string)
    ensures out == ShellQuote(s)
  {
    if s == "" {
      return "''";
    }
    if AllSafe(s) {
      return s;
    }
    out := "'";
    for i := 0 to |s|
      invariant out == "'" + Escaped(s[..i])
    {
      assert s[..i + 1] == s[..i] + [s[i]];
      EscapedTogether(s[..i], [s[i]]);
      assert [s[i]][1..] == "";
      if s[i] == '\'' {
        out := out + "'\\''";
      } else {
        out := out + [s[i]];
      }
    }
    assert s[..|s|] == s;
    out := out + "'";
  }

  /* ---------- what a shell makes of it ---------- */

  predicate Blank(c: char) {
    c == ' ' || c == '\t'
  }

  /** The characters that mean something else to a shell when nothing quotes them. */
  predicate Special(c: char) {
    || c == '|' || c == '&' || c == ';' || c == '<' || c == '>' || c == '(' || c == ')'
    || c == '$' || c == '`' || c == '"' || c == '\n' || c == '*' || c == '?' || c == '[' || c == '#' || c == '~'
  }

  /** The words of a command line by the quoting rules of sections 2.2.1 and 2.2.2 of the POSIX.1-2017
      Shell Command Language: a backslash keeps the next character, single quotes keep everything up to
      the next. `word` is the word being read, if one has begun; nothing comes of a line that uses an
      unquoted special character, or ends inside a quote. */
  function Words(s: string, word: Option<string>, quoted: bool): Option<seq<string>>
    decreases |s|
  {
    if s == "" then
      if quoted then None else Some(if word.Some? then [word.value] else [])
    else if quoted then
      if s[0] == '\'' then Words(s[1..], word, false)
      else Words(s[1..], Some(word.GetOr("") + [s[0]]), true)
    else if Blank(s[0]) then
      var rest := Words(s[1..], None, false);
      if word.Some? && rest.Some? then Some([word.value] + rest.value) else rest
    else if s[0] == '\'' then Words(s[1..], Some(word.GetOr("")), true)
    else if s[0] == '\\' then
      if |s| == 1 then None
      else if s[1] == '\n' then Words(s[2..], word, false)
      else Words(s[2..], Some(word.GetOr("") + [s[1]]), false)
    else if Special(s[0]) then None
    else Words(s[1..], Some(word.GetOr("") + [s[0]]), false)
  }

  function ShellSplit(s: string): Option<seq<string>> {
    Words(s, None, false)
  }

  lemma {:induction false} InsideQuotes(s: string, tail: string, word: string)
    ensures Words(Escaped(s) + "'" + tail, Some(word), true) == Words(tail, Some(word + s), false)
    decreases |s|
  {
    var line := Escaped(s) + "'" + tail;
    if s == "" {
      assert line == "'" + tail;
      assert line[1..] == tail;
      assert word + s == word;
    } else {
      var rest := Escaped(s[1..]) + "'" + tail;
      if s[0] == '\'' {
        assert line == "'\\''" + rest;
        assert line[1..] == "\\''" + rest;
        assert line[1..][2..] == "'" + rest;
        assert line[1..][2..][1..] == rest;
        assert Words(line[1..], Some(word), false) == Words("'" + rest, Some(word + "'"), false);
      } else {
        assert line == [s[0]] + rest;
        assert line[1..] == rest;
      }
      InsideQuotes(s[1..], tail, word + [s[0]]);
      assert word + [s[0]] + s[1..] == word + s;
    }
  }

  lemma {:induction false} SafeWord(s: string, tail: string, word: Option<string>)
    requires AllSafe(s) && s != ""
    ensures Words(s + tail, word, false) == Words(tail, Some(word.GetOr("") + s), false)
    decreases |s|
  {
    assert (s + tail)[0] == s[0] && (s + tail)[1..] == s[1..] + tail;
    assert SafeChar(s[0]);
    var next := word.GetOr("") + [s[0]];
    if |s| == 1 {
      assert s[1..] + tail == tail;
      assert s == [s[0]];
    } else {
      SafeWord(s[1..], tail, Some(next));
      assert next + s[1..] == word.GetOr("") + s;
    }
  }

  /** A quoted string is read back whole, as one piece of one word, whatever characters it holds and
      whatever stands around it. */
  lemma QuotedIsOneWord(s: string, tail: string, word: Option<string>)
    ensures Words(PosixQuote(s) + tail, word, false) == Words(tail, Some(word.GetOr("") + s), false)
    ensures Words(ShellQuote(s) + tail, word, false) == Words(tail, Some(word.GetOr("") + s), false)
  {
    var line := PosixQuote(s) + tail;
    assert line[1..] == Escaped(s) + "'" + tail;
    InsideQuotes(s, tail, word.GetOr(""));
    if s == "" {
      assert PosixQuote(s) == "''";
    } else if AllSafe(s) {
      SafeWord(s, tail, word);
    }
  }

  /** It is printed as it is exactly when it is letters, digits and characters no shell minds. */
  lemma PlainExactlyWhen(s: string)
    ensures ShellQuote(s) == s <==>
      s != "" && forall i :: 0 <= i < |s| ==>
        || 'a' <= s[i] <= 'z' || 'A' <= s[i] <= 'Z' || '0' <= s[i] <= '9' || s[i] in "_./:@=,+-%"
  {
    EscapedGrows(s);
  }

  lemma {:induction false} EscapedGrows(s: string)
    ensures |Escaped(s)| >= |s|
    decreases |s|
  {
    if s != "" {
      EscapedGrows(s[1..]);
    }
  }

  /** Left unquoted, a character that means something to a shell would not be read as itself. */
  lemma {:induction false} SpecialsNeedQuotes(s: string, i: nat, word: Option<string>)
    requires i < |s| && s[i] in "|&;<>()$`\"\n*?[#~"
    requires forall k :: 0 <= k < i ==> s[k] != '\'' && s[k] != '\\'
    ensures Words(s, word, false).None?
    decreases |s|
  {
    if i > 0 && !Special(s[0]) {
      SpecialsNeedQuotes(s[1..], i - 1, if Blank(s[0]) then None else Some(word.GetOr("") + [s[0]]));
    }
  }

  /** And a blank would part the word. */
  lemma BlankParts(first: string, blank: char, rest: string)
    requires first != "" && AllSafe(first) && rest != "" && AllSafe(rest) && blank in " \t"
    ensures ShellSplit(first + [blank] + rest) == Some([first, rest])
  {
    var tail := [blank] + rest;
    assert first + [blank] + rest == first + tail;
    SafeWord(first, tail, None);
    assert tail[0] == blank && tail[1..] == rest;
    SafeWord(rest, "", None);
    assert rest + "" == rest;
    assert "" + first == first && "" + rest == rest;
    assert ShellSplit(rest) == Some([rest]);
    assert Words(tail, Some(first), false) == Some([first] + [rest]);
    assert [first] + [rest] == [first, rest];
  }

  const API_KEY_HELPER_SUBCMD := "__api-key"

  function HelperCommand(exe: string, name: string): string {
    ShellQuote(exe) + " " + ShellQuote(API_KEY_HELPER_SUBCMD) + " " + ShellQuote(name)
  }

  lemma NextWord(first: string, rest: string)
    requires ShellSplit(rest).Some?
    ensures ShellSplit(ShellQuote(first) + " " + rest) == Some([first] + ShellSplit(rest).value)
  {
    assert ShellQuote(first) + " " + rest == ShellQuote(first) + (" " + rest);
    QuotedIsOneWord(first, " " + rest, None);
    assert (" " + rest)[1..] == rest;
    assert "" + first == first;
  }

  lemma LastWord(s: string)
    ensures ShellSplit(ShellQuote(s)) == Some([s])
  {
    QuotedIsOneWord(s, "", None);
    assert ShellQuote(s) + "" == ShellQuote(s);
    assert "" + s == s;
  }

  lemma ThreeWords(a: string, b: string, c: string)
    ensures ShellSplit(ShellQuote(a) + " " + ShellQuote(b) + " " + ShellQuote(c)) == Some([a, b, c])
  {
    var tail := ShellQuote(b) + " " + ShellQuote(c);
    assert ShellQuote(a) + " " + ShellQuote(b) + " " + ShellQuote(c) == ShellQuote(a) + " " + tail;
    LastWord(c);
    NextWord(b, ShellQuote(c));
    NextWord(a, tail);
    assert [a] + ([b] + [c]) == [a, b, c];
  }

  /** The shell splits the printed command into exactly the program, the subcommand and the name. */
  lemma HelperSplits(exe: string, name: string)
    ensures ShellSplit(HelperCommand(exe, name)) == Some([exe, API_KEY_HELPER_SUBCMD, name])
  {
    ThreeWords(exe, API_KEY_HELPER_SUBCMD, name);
  }

  /* ---------- reading the name back ---------- */

  /** Unicode's white space. */
  predicate Space(c: char) {
    var u := c as int;
    || 9 <= u <= 13 || u == 0x20 || u == 0x85 || u == 0xA0 || u == 0x1680 || 0x2000 <= u <= 0x200A
    || u == 0x2028 || u == 0x2029 || u == 0x202F || u == 0x205F || u == 0x3000
  }

  /** The pieces of a string between white space; `piece` is the one being read. */
  function Pieces(s: string, piece: string): seq<string>
    decreases |s|
  {
    if s == "" then if piece == "" then [] else [piece]
    else if Space(s[0]) then (if piece == "" then [] else [piece]) + Pieces(s[1..], "")
    else Pieces(s[1..], piece + [s[0]])
  }

  function SplitWhitespace(s: string): seq<string> {
    Pieces(s, "")
  }

  predicate NameChar(c: char) {
    Alphanumeric(c) || c == '_' || c == '.' || c == '@' || c == '+' || c == '-'
  }

  /** A name every account can have. */
  predicate ValidName(name: string) {
    name != "" && name[0] != '.' && forall i :: 0 <= i < |name| ==> NameChar(name[i])
  }

  /** The word after the first subcommand word, where it is the last and a valid name. */
  function NameAfter(tokens: seq<string>): Option<string> {
    if tokens == [] then None
    else if tokens[0] != API_KEY_HELPER_SUBCMD then NameAfter(tokens[1..])
    else if |tokens| == 2 && ValidName(tokens[1]) then Some(tokens[1])
    else None
  }

  method ProfileNameFromHelper(helper: string) returns (name: Option<string>)
    ensures name == NameAfter(SplitWhitespace(helper))
  {
    var tokens := SplitWhitespace(helper);
    var i := 0;
    while i < |tokens|
      invariant 0 <= i <= |tokens|
      invariant NameAfter(tokens) == NameAfter(tokens[i..])
    {
      assert tokens[i..][0] == tokens[i] && tokens[i..][1..] == tokens[i + 1..];
      if tokens[i] != API_KEY_HELPER_SUBCMD {
        i := i + 1;
        continue;
      }
      if i + 1 == |tokens| || i + 2 < |tokens| {
        return None;
      }
      assert tokens[i..][1] == tokens[i + 1];
      return if ValidName(tokens[i + 1]) then Some(tokens[i + 1]) else None;
    }
    name := None;
  }

  lemma {:induction false} PiecesTogether(a: string, b: string, piece: string)
    ensures Pieces(a + " " + b, piece) == Pieces(a, piece) + Pieces(b, "")
    decreases |a|
  {
    if a == "" {
      assert a + " " + b == " " + b;
      assert (" " + b)[1..] == b;
    } else {
      assert (a + " " + b)[1..] == a[1..] + " " + b;
      if Space(a[0]) {
        PiecesTogether(a[1..], b, "");
      } else {
        PiecesTogether(a[1..], b, piece + [a[0]]);
      }
    }
  }

  lemma {:induction false} OnePiece(s: string, piece: string)
    requires piece + s != "" && forall i :: 0 <= i < |s| ==> !Space(s[i])
    ensures Pieces(s, piece) == [piece + s]
    decreases |s|
  {
    if s == "" {
      assert piece + s == piece;
    } else {
      OnePiece(s[1..], piece + [s[0]]);
      assert piece + [s[0]] + s[1..] == piece + s;
    }
  }

  lemma {:induction false} FirstSubcommandDecides(before: seq<string>, name: string)
    requires ValidName(name)
    ensures NameAfter(before + [API_KEY_HELPER_SUBCMD, name]) ==
      if API_KEY_HELPER_SUBCMD in before then None else Some(name)
    decreases |before|
  {
    var tokens := before + [API_KEY_HELPER_SUBCMD, name];
    if before == [] {
      assert tokens == [API_KEY_HELPER_SUBCMD, name];
    } else {
      assert tokens[0] == before[0] && tokens[1..] == before[1..] + [API_KEY_HELPER_SUBCMD, name];
      if before[0] != API_KEY_HELPER_SUBCMD {
        FirstSubcommandDecides(before[1..], name);
      }
    }
  }

  lemma NamesAreSafe(name: string)
    requires ValidName(name)
    ensures ShellQuote(name) == name && SplitWhitespace(name) == [name]
  {
    forall i | 0 <= i < |name| ensures SafeChar(name[i]) && !Space(name[i]) {
      assert NameChar(name[i]);
    }
    OnePiece(name, "");
    assert "" + name == name;
  }

  /** The printed command gives every valid name back exactly when no piece of the quoted program between
      white space is the subcommand itself; where one is, it gives no name. */
  lemma HelperNamesBackExactlyWhen(exe: string, name: string)
    requires ValidName(name)
    ensures NameAfter(SplitWhitespace(HelperCommand(exe, name))) ==
      if API_KEY_HELPER_SUBCMD in SplitWhitespace(ShellQuote(exe)) then None else Some(name)
  {
    NamesAreSafe(name);
    NamesAreSafe(API_KEY_HELPER_SUBCMD);
    var tail := API_KEY_HELPER_SUBCMD + " " + name;
    assert HelperCommand(exe, name) == ShellQuote(exe) + " " + tail;
    PiecesTogether(ShellQuote(exe), tail, "");
    PiecesTogether(API_KEY_HELPER_SUBCMD, name, "");
    assert [API_KEY_HELPER_SUBCMD] + [name] == [API_KEY_HELPER_SUBCMD, name];
    FirstSubcommandDecides(SplitWhitespace(ShellQuote(exe)), name);
  }
}
