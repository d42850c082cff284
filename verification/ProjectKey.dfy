/** Claude Code's key for a project directory: its path with everything but letters and digits replaced,
    cut and hashed when it is long. */
module ProjectKey {

  /* ---------- UTF-16 ---------- */

  /** A code unit. */
  type Unit = u: int | 0 <= u < 0x1_0000 witness 0

  /** The units of one character: itself, or a surrogate pair. */
  function UnitsOf(c: char): seq<Unit> {
    var u := c as int;
    if u < 0x1_0000 then [u]
    else [0xD800 + (u - 0x1_0000) / 0x400, 0xDC00 + (u - 0x1_0000) % 0x400]
  }

  function Utf16(s: string): seq<Unit> {
    if s == "" then [] else UnitsOf(s[0]) + Utf16(s[1..])
  }

  /** The scalar values the units stand for: a high surrogate and the low one after it are one, by section 2.2 of
      RFC 2781. */
  function ReadUtf16(units: seq<Unit>): seq<int> {
    if units == [] then []
    else if |units| > 1 && 0xD800 <= units[0] < 0xDC00 && 0xDC00 <= units[1] < 0xE000 then
      [0x1_0000 + (units[0] - 0xD800) * 0x400 + (units[1] - 0xDC00)] + ReadUtf16(units[2..])
    else [units[0]] + ReadUtf16(units[1..])
  }

  /** The units of a string read back as its characters. */
  lemma {:induction false} Utf16ReadsBack(s: string)
    ensures ReadUtf16(Utf16(s)) == seq(|s|, i requires 0 <= i < |s| => s[i] as int)
    decreases |s|
  {
    if s == "" {
    } else {
      var u, rest := s[0] as int, Utf16(s[1..]);
      Utf16ReadsBack(s[1..]);
      assert (UnitsOf(s[0]) + rest)[|UnitsOf(s[0])|..] == rest;
      assert u >= 0x1_0000 ==> (u - 0x1_0000) / 0x400 * 0x400 + (u - 0x1_0000) % 0x400 == u - 0x1_0000;
    }
  }

  /* ---------- the hash ---------- */

  const TWO32 := 0x1_0000_0000
  const TWO31 := 0x8000_0000

  /** A number as a signed 32-bit one keeps it. */
  function Wrap(x: int): int {
    (x + TWO31) % TWO32 - TWO31
  }

  /** The units as the digits of a number of base 31, the first the highest. */
  function Polynomial(units: seq<Unit>): int {
    if units == [] then 0 else Polynomial(units[..|units| - 1]) * 31 + units[|units| - 1]
  }

  function Pow31(k: nat): nat {
    if k == 0 then 1 else 31 * Pow31(k - 1)
  }

  /** Each unit weighs 31 to the power of the units after it. */
  lemma {:induction false} PolynomialFromTheFront(unit: Unit, rest: seq<Unit>)
    ensures Polynomial([unit] + rest) == unit * Pow31(|rest|) + Polynomial(rest)
    decreases |rest|
  {
    var units := [unit] + rest;
    if rest == [] {
      assert units == [unit] && units[..0] == [];
    } else {
      var short := rest[..|rest| - 1];
      assert units[..|units| - 1] == [unit] + short;
      PolynomialFromTheFront(unit, short);
      assert unit * Pow31(|rest|) == unit * Pow31(|short|) * 31;
    }
  }

  function Abs(x: int): int {
    if x < 0 then -x else x
  }

  lemma SameModulo(x: int, y: int)
    requires exists k: int :: x == y + k * TWO32
    ensures Wrap(x) == Wrap(y)
  {}

  /** Wrapping at each step is wrapping once at the end. */
  lemma WrapStep(x: int, unit: Unit)
    ensures Wrap(Wrap(Wrap(x) * 31) + unit) == Wrap(x * 31 + unit)
  {
    var k0 := -((x + TWO31) / TWO32);
    assert Wrap(x) == x + k0 * TWO32;
    var y := Wrap(x) * 31;
    var k1 := -((y + TWO31) / TWO32);
    assert Wrap(y) == y + k1 * TWO32;
    assert Wrap(y) + unit == (x * 31 + unit) + (k0 * 31 + k1) * TWO32;
    SameModulo(Wrap(y) + unit, x * 31 + unit);
  }

  /** It is the signed 32-bit number that differs by a multiple of 2^32. */
  lemma WrapRange(x: int)
    ensures -0x8000_0000 <= Wrap(x) < 0x8000_0000 && (x - Wrap(x)) % 0x1_0000_0000 == 0
  {}

  /** The loop of 32-bit steps ends at the absolute value of the base-31 polynomial reduced to a signed
      32-bit number, so from 0 to 2^31, both included. */
  method HashCodeUnits(s: string) returns (hash: int)
    ensures hash == Abs(Wrap(Polynomial(Utf16(s))))
    ensures 0 <= hash <= TWO31
  {
    var units := Utf16(s);
    var h := 0;
    for i := 0 to |units|
      invariant h == Wrap(Polynomial(units[..i]))
    {
      assert units[..i + 1][..i] == units[..i];
      WrapStep(Polynomial(units[..i]), units[i]);
      h := Wrap(h * 31);
      h := Wrap(h + units[i]);
    }
    assert units[..|units|] == units;
    WrapRange(Polynomial(units));
    hash := if h < 0 then -h else h;
  }

  /* ---------- base 36 ---------- */

  /** The digit of a value: 0 to 9, then a to z. */
  function Digit(d: int): char
    requires 0 <= d < 36
  {
    if d < 10 then '0' + d as char else 'a' + (d - 10) as char
  }

  predicate IsDigit(c: char) {
    '0' <= c <= '9' || 'a' <= c <= 'z'
  }

  function DigitValue(c: char): int
    requires IsDigit(c)
  {
    if c <= '9' then c as int - '0' as int else c as int - 'a' as int + 10
  }

  function Base36(n: nat): string {
    if n < 36 then [Digit(n)] else Base36(n / 36) + [Digit(n % 36)]
  }

  predicate AllDigits(s: string) {
    forall i :: 0 <= i < |s| ==> IsDigit(s[i])
  }

  function Value36(s: string): nat
    requires AllDigits(s)
  {
    if s == "" then 0 else Value36(s[..|s| - 1]) * 36 + DigitValue(s[|s| - 1])
  }

  function Reversed(s: string): string {
    if s == "" then "" else Reversed(s[1..]) + [s[0]]
  }

  lemma {:induction false} ReversedSnoc(s: string, c: char)
    ensures Reversed(s + [c]) == [c] + Reversed(s)
    decreases |s|
  {
    if s == "" {
      assert s + [c] == [c];
      assert [c][1..] == "";
    } else {
      assert (s + [c])[1..] == s[1..] + [c];
      ReversedSnoc(s[1..], c);
    }
  }

  method ToBase36(n: nat) returns (out: string)
    ensures out == Base36(n)
  {
    var left := n;
    var digits := "";
    while left > 0
      invariant left >= 0
      invariant left > 0 ==> Base36(n) == Base36(left) + Reversed(digits)
      invariant left == 0 && digits != "" ==> Base36(n) == Reversed(digits)
      invariant digits == "" ==> left == n
    {
      ReversedSnoc(digits, Digit(left % 36));
      if left >= 36 {
        assert Base36(left) == Base36(left / 36) + [Digit(left % 36)];
        assert Base36(left) + Reversed(digits) == Base36(left / 36) + ([Digit(left % 36)] + Reversed(digits));
      }
      digits := digits + [Digit(left % 36)];
      left := left / 36;
    }
    if digits == "" {
      digits := "0";
      assert digits[1..] == "" && Reversed(digits) == "0";
      assert Base36(0) == "0";
    }
    out := Reversed(digits);
  }

  /** The digits read back as the number, with no leading zero but zero's own. */
  lemma {:induction false} Base36ReadsBack(n: nat)
    ensures AllDigits(Base36(n)) && Value36(Base36(n)) == n
    ensures Base36(n) != "" && (Base36(n)[0] == '0' <==> n == 0)
  {
    var s := Base36(n);
    if n < 36 {
      assert s[..|s| - 1] == "";
    } else {
      Base36ReadsBack(n / 36);
      assert s[..|s| - 1] == Base36(n / 36);
      assert DigitValue(Digit(n % 36)) == n % 36;
    }
  }

  /** 36 to the power of `k`. */
  function Pow36(k: nat): nat {
    if k == 0 then 1 else 36 * Pow36(k - 1)
  }

  lemma {:induction false} Base36Length(n: nat, k: nat)
    requires 0 < k && n < Pow36(k)
    ensures |Base36(n)| <= k
    decreases k
  {
    if n >= 36 {
      assert Pow36(1) == 36;
      assert n / 36 < Pow36(k - 1);
      Base36Length(n / 36, k - 1);
    }
  }

  /* ---------- the key ---------- */

  predicate Alphanumeric(u: Unit) {
    48 <= u <= 57 || 65 <= u <= 90 || 97 <= u <= 122
  }

  function KeyChar(u: Unit): char {
    if Alphanumeric(u) then u as char else '-'
  }

  predicate KeyLetter(c: char) {
    '0' <= c <= '9' || 'A' <= c <= 'Z' || 'a' <= c <= 'z' || c == '-'
  }

  const CAP := 200

  /** The key is the units with everything but letters and digits replaced; past 200 of them it is the
      first 200, and the digits of the hash. Either way it is at most 207 letters, digits and dashes. */
  method Key(base: string) returns (key: string)
    ensures forall i :: 0 <= i < |key| ==> KeyLetter(key[i])
    ensures |key| <= 207
    ensures var units := Utf16(base);
      && |key| >= (if |units| <= CAP then |units| else CAP)
      && (forall i :: 0 <= i < |units| && i < CAP ==>
            key[i] == if units[i] < 128 && KeyLetter(units[i] as char) then units[i] as char else '-')
      && (|units| <= CAP ==> |key| == |units|)
      && (|units| > CAP ==> key[CAP..] == "-" + Base36(Abs(Wrap(Polynomial(units)))))
  {
    var units := Utf16(base);
    var sanitized := "";
    for i := 0 to |units|
      invariant |sanitized| == i
      invariant forall j :: 0 <= j < i ==> sanitized[j] == KeyChar(units[j])
    {
      if Alphanumeric(units[i]) {
        sanitized := sanitized + [units[i] as char];
      } else {
        sanitized := sanitized + "-";
      }
    }
    if |sanitized| <= CAP {
      return sanitized;
    }
    var hash := HashCodeUnits(base);
    var digits := ToBase36(hash);
    Base36ReadsBack(hash);
    HashFitsSix(hash);
    key := sanitized[..CAP] + "-" + digits;
    CutAndHashed(sanitized, digits);
  }

  lemma CutAndHashed(sanitized: string, digits: string)
    requires |sanitized| > CAP && AllDigits(digits)
    requires forall i :: 0 <= i < |sanitized| ==> KeyLetter(sanitized[i])
    ensures var key := sanitized[..CAP] + "-" + digits;
      && (forall i :: 0 <= i < CAP ==> key[i] == sanitized[i])
      && key[CAP..] == "-" + digits
      && (forall i :: 0 <= i < |key| ==> KeyLetter(key[i]))
  {
    var key := sanitized[..CAP] + "-" + digits;
    forall i | 0 <= i < |key| ensures KeyLetter(key[i]) {
      if i > CAP {
        assert key[i] == digits[i - CAP - 1];
      }
    }
  }

  lemma HashFitsSix(hash: nat)
    requires hash <= TWO31
    ensures |Base36(hash)| <= 6
  {
    assert Pow36(1) == 36;
    assert Pow36(2) == 1296;
    assert Pow36(3) == 46656;
    assert Pow36(4) == 1679616;
    assert Pow36(5) == 60466176;
    assert Pow36(6) == 2176782336;
    Base36Length(hash, 6);
  }
}
