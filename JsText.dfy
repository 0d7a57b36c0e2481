/** The JavaScript string and number built-ins the components rely on, stated on `string` (a sequence of
    code points): `\s` and `trim`, `parseInt`, `Number.prototype.toString`, `includes`, `startsWith`,
    `toLowerCase` and `split(c)[0]`, and the `||` fallbacks that treat `''` and `null` as false. */
module JsText {

  datatype Option<+T> = None | Some(value: T)

  // ---------------------------------------------------------------------------------------------
  // Whitespace and trimming
  // ---------------------------------------------------------------------------------------------

  /** A code point of ECMAScript's WhiteSpace or LineTerminator productions: exactly the characters
      matched by the regular-expression class `\s` and removed by `String.prototype.trim`. */
  predicate IsSpace(c: char) {
    c in SpaceChars
  }

  const SpaceChars: set<char> := {
    '\t', '\n', '\U{000B}', '\U{000C}', '\r', ' ', '\U{00A0}', '\U{1680}',
    '\U{2000}', '\U{2001}', '\U{2002}', '\U{2003}', '\U{2004}', '\U{2005}', '\U{2006}',
    '\U{2007}', '\U{2008}', '\U{2009}', '\U{200A}',
    '\U{2028}', '\U{2029}', '\U{202F}', '\U{205F}', '\U{3000}', '\U{FEFF}'
  }

  /** Neither end of `s` is whitespace. */
  predicate Trimmed(s: string) {
    s == [] || (!IsSpace(s[0]) && !IsSpace(s[|s| - 1]))
  }

  /** `s.trimStart()`: the suffix left after dropping the leading whitespace. */
  function TrimStart(s: string): (r: string)
    ensures |r| <= |s| && r == s[|s| - |r|..]
    ensures r == [] || !IsSpace(r[0])
  {
    if s == [] || !IsSpace(s[0]) then s else TrimStart(s[1..])
  }

  /** Everything `trimStart` drops is whitespace. */
  lemma {:induction false} TrimStartDropsOnlySpace(s: string)
    ensures forall i :: 0 <= i < |s| - |TrimStart(s)| ==> IsSpace(s[i])
  {
    if s != [] && IsSpace(s[0]) {
      TrimStartDropsOnlySpace(s[1..]);
      assert forall i :: 1 <= i < |s| - |TrimStart(s)| ==> s[i] == s[1..][i - 1];
    }
  }

  /** `s.trimEnd()`: the prefix left after dropping the trailing whitespace. */
  function TrimEnd(s: string): (r: string)
    ensures |r| <= |s| && r == s[..|r|]
    ensures r == [] || !IsSpace(r[|r| - 1])
  {
    if s == [] || !IsSpace(s[|s| - 1]) then s
    else TrimEnd(s[..|s| - 1])
  }

  /** Everything `trimEnd` drops is whitespace. */
  lemma {:induction false} TrimEndDropsOnlySpace(s: string)
    ensures forall i :: |TrimEnd(s)| <= i < |s| ==> IsSpace(s[i])
  {
    if s != [] && IsSpace(s[|s| - 1]) {
      TrimEndDropsOnlySpace(s[..|s| - 1]);
    }
  }

  /** `s.trim()`: no whitespace at either end. */
  function Trim(s: string): (r: string)
    ensures Trimmed(r)
  {
    var t := TrimStart(s);
    var r := TrimEnd(t);
    if r == [] then r
    else
      assert r[0] == t[0];
      r
  }

  /** `trim` keeps a contiguous piece of the text, starting where `trimStart` stops. */
  lemma TrimIsPiece(s: string)
    ensures var k := |s| - |TrimStart(s)|; k + |Trim(s)| <= |s| && s[k..k + |Trim(s)|] == Trim(s)
  {
    TrimIsBothEnds(s);
    PrefixOfSuffix(s, TrimStart(s), Trim(s));
  }

  lemma TrimIsBothEnds(s: string)
    ensures Trim(s) == TrimEnd(TrimStart(s))
  {
  }

  /** A prefix `r` of a suffix `t` of `s` sits in `s` where `t` starts. */
  lemma PrefixOfSuffix(s: string, t: string, r: string)
    requires |t| <= |s| && t == s[|s| - |t|..] && |r| <= |t| && r == t[..|r|]
    ensures s[|s| - |t|..|s| - |t| + |r|] == r
  {
    assert s[|s| - |t|..][..|r|] == s[|s| - |t|..|s| - |t| + |r|];
  }

  /** What `trim` cuts from the end is whitespace. */
  lemma TrimCutsTrailingSpace(s: string)
    ensures forall i :: |s| - |TrimStart(s)| + |Trim(s)| <= i < |s| ==> IsSpace(s[i])
  {
    var t := TrimStart(s);
    var k := |s| - |t|;
    assert Trim(s) == TrimEnd(t);
    TrimEndDropsOnlySpace(t);
    forall i | k + |TrimEnd(t)| <= i < |s|
      ensures IsSpace(s[i])
    {
      assert s[i] == t[i - k];
    }
  }

  /** A blank text: `!s.trim()` in the source. */
  predicate Blank(s: string) {
    Trim(s) == []
  }

  /** A text is blank exactly when every character of it is whitespace. */
  lemma BlankIffAllSpace(s: string)
    ensures Blank(s) <==> forall i :: 0 <= i < |s| ==> IsSpace(s[i])
  {
    var t := TrimStart(s);
    TrimStartDropsOnlySpace(s);
    TrimEndDropsOnlySpace(t);
    if t != [] {
      assert TrimEnd(t) != [] by { assert !IsSpace(t[0]); }
      assert !IsSpace(s[|s| - |t|]);
    }
  }

  /** Trimming leaves an already trimmed text alone. */
  lemma TrimOfTrimmed(s: string)
    requires Trimmed(s)
    ensures Trim(s) == s
  {
  }

  /** `s.trim() || null`: the trimmed text, or null when it is empty. */
  function TrimOrNull(s: string): (r: Option<string>)
    ensures r == None <==> Blank(s)
    ensures r.Some? ==> r.value != [] && Trimmed(r.value)
  {
    var t := Trim(s);
    if t == [] then None else Some(t)
  }

  /** `value || ''` for a nullable text field. */
  function OrEmpty(value: Option<string>): (r: string)
    ensures value.Some? ==> r == value.value
    ensures value.None? ==> r == []
  {
    match value
    case Some(v) => v
    case None => ""
  }

  /** `value || fallback` for a nullable text: the text unless it is null or `''`. */
  function OrElse(value: Option<string>, fallback: string): (r: string)
    ensures value.Some? && value.value != [] ==> r == value.value
    ensures value.None? || value.value == [] ==> r == fallback
  {
    if value.Some? && value.value != [] then value.value else fallback
  }

  /** A nullable text the forms store back unchanged: null, or a non-empty trimmed text. */
  predicate StableText(value: Option<string>) {
    value.None? || (value.value != [] && Trimmed(value.value))
  }

  /** Loading a nullable text into an input (`value || ''`) and reading it back (`trim() || null`)
      returns it, exactly when it is stable. */
  lemma {:induction false} NullableTextRoundTrip(value: Option<string>)
    ensures TrimOrNull(OrEmpty(value)) == value <==> StableText(value)
  {
    if value.Some? {
      if value.value != [] && Trimmed(value.value) {
        TrimOfTrimmed(value.value);
      }
    }
  }

  // ---------------------------------------------------------------------------------------------
  // Digits: parseInt and toString
  // ---------------------------------------------------------------------------------------------

  predicate IsDigit(c: char) {
    '0' <= c <= '9'
  }

  predicate IsHexDigit(c: char) {
    IsDigit(c) || 'a' <= c <= 'f' || 'A' <= c <= 'F'
  }

  /** A digit of radix 16 when `hex`, of radix 10 otherwise. */
  predicate IsRadixDigit(c: char, hex: bool) {
    if hex then IsHexDigit(c) else IsDigit(c)
  }

  function Radix(hex: bool): nat {
    if hex then 16 else 10
  }

  function DigitValue(c: char, hex: bool): (v: nat)
    requires IsRadixDigit(c, hex)
    ensures v < Radix(hex)
  {
    if IsDigit(c) then c as int - '0' as int
    else if 'a' <= c <= 'f' then c as int - 'a' as int + 10
    else c as int - 'A' as int + 10
  }

  predicate AllDigits(s: string, hex: bool) {
    forall i :: 0 <= i < |s| ==> IsRadixDigit(s[i], hex)
  }

  /** The longest prefix of `s` made of digits of the radix. */
  function DigitRun(s: string, hex: bool): (r: string)
    ensures |r| <= |s| && r == s[..|r|] && AllDigits(r, hex)
    ensures |r| < |s| ==> !IsRadixDigit(s[|r|], hex)
  {
    if s == [] || !IsRadixDigit(s[0], hex) then []
    else
      var rest := DigitRun(s[1..], hex);
      assert forall i :: 1 <= i < 1 + |rest| ==> ([s[0]] + rest)[i] == s[1..][i - 1];
      [s[0]] + rest
  }

  /** The number a string of digits denotes, most significant digit first. */
  function DigitsValue(s: string, hex: bool): nat
    requires AllDigits(s, hex)
  {
    if s == [] then 0
    else DigitsValue(s[..|s| - 1], hex) * Radix(hex) + DigitValue(s[|s| - 1], hex)
  }

  /** What is left of a text once a leading `-` or `+` is dropped. */
  function Unsigned(t: string): string {
    if |t| > 0 && (t[0] == '-' || t[0] == '+') then t[1..] else t
  }

  predicate HasHexPrefix(u: string) {
    |u| >= 2 && u[0] == '0' && (u[1] == 'x' || u[1] == 'X')
  }

  /** The digits after an optional sign: a `0x`/`0X` prefix selects radix 16, then the longest run
      of digits counts; `None` when there is no digit at all. */
  function Magnitude(u: string): Option<nat> {
    var hex := HasHexPrefix(u);
    var digits := DigitRun(if hex then u[2..] else u, hex);
    if digits == [] then None else Some(DigitsValue(digits, hex))
  }

  /** `parseInt(s)` with no radix: leading whitespace skipped, an optional sign, then the magnitude;
      `None` stands for NaN. */
  function ParseInt(s: string): Option<int> {
    var t := TrimStart(s);
    match Magnitude(Unsigned(t))
    case None => None
    case Some(m) =>
      var v: int := m;
      Some(if |t| > 0 && t[0] == '-' then -v else v)
  }

  lemma ParseIntOfBlank(s: string)
    ensures Blank(s) ==> ParseInt(s) == None
  {
    if Blank(s) {
      BlankIffAllSpace(s);
      assert TrimStart(s) == [];
    }
  }

  function DigitChar(d: nat): (c: char)
    requires d < 10
    ensures IsDigit(c) && DigitValue(c, false) == d
  {
    ('0' as int + d) as char
  }

  /** `n.toString()` for a non-negative integer: its decimal digits, without leading zeros. */
  function NatToString(n: nat): (r: string)
    ensures r != [] && AllDigits(r, false)
    ensures |r| > 1 ==> r[0] != '0'
    ensures n == 0 <==> r == "0"
  {
    if n < 10 then [DigitChar(n)]
    else
      var prefix := NatToString(n / 10);
      assert (prefix + [DigitChar(n % 10)])[0] == prefix[0];
      prefix + [DigitChar(n % 10)]
  }

  /** The decimal digits of `n` denote `n`. */
  lemma {:induction false} NatToStringValue(n: nat)
    ensures DigitsValue(NatToString(n), false) == n
  {
    if n >= 10 {
      NatToStringValue(n / 10);
      var s := NatToString(n);
      assert s[..|s| - 1] == NatToString(n / 10);
    }
  }

  /** `parseInt(n.toString()) === n` for every non-negative integer. */
  lemma ParseIntOfNatToString(n: nat)
    ensures ParseInt(NatToString(n)) == Some(n)
  {
    NatToStringValue(n);
    ParseIntOfPlainDigits(NatToString(n), n);
  }

  /** A text of decimal digits parses to their value. */
  lemma ParseIntOfPlainDigits(d: string, v: int)
    requires d != [] && AllDigits(d, false) && DigitsValue(d, false) == v
    ensures ParseInt(d) == Some(v)
  {
    PlainDigitsShape(d);
    ParseIntOfUnsigned(d, v);
  }

  /** A text of decimal digits has no leading whitespace and no sign, and its magnitude is their
      value. */
  lemma PlainDigitsShape(d: string)
    requires d != [] && AllDigits(d, false)
    ensures d[0] != '-' && TrimStart(d) == d && Unsigned(d) == d
    ensures Magnitude(d) == Some(DigitsValue(d, false))
  {
    DigitIsNotSpaceOrSign(d[0]);
    TrimStartOfNonSpace(d);
    MagnitudeOfPlainDigits(d);
  }

  /** A text with no sign and no leading whitespace parses to its magnitude. */
  lemma ParseIntOfUnsigned(s: string, v: int)
    requires |s| > 0 && s[0] != '-' && TrimStart(s) == s && Unsigned(s) == s && Magnitude(s) == Some(v)
    ensures ParseInt(s) == Some(v)
  {
  }

  /** A text of decimal digits denotes their value. */
  lemma MagnitudeOfPlainDigits(d: string)
    requires d != [] && AllDigits(d, false)
    ensures Magnitude(d) == Some(DigitsValue(d, false))
  {
    assert !HasHexPrefix(d) by {
      if |d| >= 2 { assert IsDigit(d[1]); }
    }
    DigitRunOfDigits(d, false);
  }

  /** `n.toString()` for any integer: a `-` before the digits of a negative number. */
  function IntToString(n: int): (r: string)
    ensures r != []
    ensures n >= 0 ==> r == NatToString(n)
    ensures n < 0 ==> r[0] == '-' && r[1..] == NatToString(-n)
  {
    if n >= 0 then NatToString(n) else "-" + NatToString(-n)
  }

  /** `parseInt(n.toString()) === n` for every integer. */
  lemma ParseIntOfIntToString(n: int)
    ensures ParseInt(IntToString(n)) == Some(n)
  {
    if n >= 0 {
      ParseIntOfNatToString(n);
    } else {
      ParseIntOfNegativeToString(n);
    }
  }

  lemma ParseIntOfNegativeToString(n: int)
    requires n < 0
    ensures ParseInt("-" + NatToString(-n)) == Some(n)
  {
    NatToStringValue(-n);
    ParseIntOfNegative(NatToString(-n), -n);
  }

  /** A `-` followed by decimal digits parses to the negated value of the digits. */
  lemma ParseIntOfNegative(d: string, v: int)
    requires d != [] && AllDigits(d, false) && DigitsValue(d, false) == v
    ensures ParseInt("-" + d) == Some(-v)
  {
    MinusShape(d);
    MagnitudeOfPlainDigits(d);
    ParseIntOfMinus("-" + d, v);
  }

  /** A `-` before a text is its first character, is not whitespace, and leaves the text after it. */
  lemma MinusShape(d: string)
    ensures var s := "-" + d; |s| > 0 && s[0] == '-' && s[1..] == d && TrimStart(s) == s
  {
    var s := "-" + d;
    assert s[0] == '-' && s[1..] == d;
    assert !IsSpace('-');
  }

  /** A text that starts with `-` parses to the negated magnitude of the rest. */
  lemma ParseIntOfMinus(s: string, v: int)
    requires |s| > 0 && s[0] == '-' && TrimStart(s) == s && Magnitude(s[1..]) == Some(v)
    ensures ParseInt(s) == Some(-v)
  {
    assert Unsigned(s) == s[1..];
  }

  lemma DigitIsNotSpaceOrSign(c: char)
    requires IsDigit(c)
    ensures !IsSpace(c) && c != '-' && c != '+'
  {
  }

  lemma TrimStartOfNonSpace(s: string)
    requires s != [] && !IsSpace(s[0])
    ensures TrimStart(s) == s
  {
  }

  /** `value?.toString() || ''`: the text a number field shows for a nullable number. */
  function NumberFieldText(value: Option<int>): (r: string)
    ensures r == [] <==> value.None?
  {
    if value.Some? then IntToString(value.value) else ""
  }

  /** `text ? parseInt(text) : null`: the number a number field submits; NaN becomes null. */
  function NumberFieldValue(text: string): (r: Option<int>)
    ensures Blank(text) ==> r == None
  {
    ParseIntOfBlank(text);
    if text == [] then None else ParseInt(text)
  }

  /** Showing a nullable number in a number field and submitting the field gives the number back. */
  lemma NumberFieldRoundTrip(value: Option<int>)
    ensures NumberFieldValue(NumberFieldText(value)) == value
  {
    if value.Some? {
      ParseIntOfIntToString(value.value);
    }
  }

  /** A string made only of digits is its own longest digit run. */
  lemma {:induction false} DigitRunOfDigits(s: string, hex: bool)
    requires AllDigits(s, hex)
    ensures DigitRun(s, hex) == s
  {
    if s != [] {
      DigitRunOfDigits(s[1..], hex);
    }
  }

  // ---------------------------------------------------------------------------------------------
  // Searching and slicing
  // ---------------------------------------------------------------------------------------------

  /** `s.startsWith(prefix)` */
  predicate StartsWith(s: string, prefix: string) {
    |prefix| <= |s| && s[..|prefix|] == prefix
  }

  /** `part` occurs in `s` starting at index `i`. */
  predicate OccursAt(s: string, part: string, i: int) {
    0 <= i && i + |part| <= |s| && s[i..i + |part|] == part
  }

  /** `s.includes(part)` */
  predicate Includes(s: string, part: string) {
    exists i :: 0 <= i <= |s| - |part| && OccursAt(s, part, i)
  }

  /** Every string includes the empty string. */
  lemma IncludesEmpty(s: string)
    ensures Includes(s, "")
  {
    assert OccursAt(s, "", 0);
  }

  /** `c.toLowerCase()` on the ASCII letters; every other code point is left as it is. */
  function LowerChar(c: char): (r: char)
    ensures 'A' <= c <= 'Z' ==> 'a' <= r <= 'z'
    ensures !('A' <= c <= 'Z') ==> r == c
  {
    if 'A' <= c <= 'Z' then (c as int - 'A' as int + 'a' as int) as char else c
  }

  /** `s.toLowerCase()`, character by character. */
  function ToLower(s: string): (r: string)
    ensures |r| == |s|
    ensures forall i :: 0 <= i < |s| ==> r[i] == LowerChar(s[i])
  {
    seq(|s|, i requires 0 <= i < |s| => LowerChar(s[i]))
  }

  /** `s.split(sep)[0]`: the part of `s` before the first `sep`, all of `s` when there is none. */
  function BeforeFirst(s: string, sep: char): (r: string)
    ensures |r| <= |s| && r == s[..|r|]
    ensures sep !in r
    ensures |r| < |s| ==> s[|r|] == sep
  {
    if s == [] || s[0] == sep then []
    else
      var rest := BeforeFirst(s[1..], sep);
      assert forall i :: 1 <= i < 1 + |rest| ==> ([s[0]] + rest)[i] == s[1..][i - 1];
      [s[0]] + rest
  }

  /** The index of the last `c` in `s`, if any. */
  function LastIndexOf(s: string, c: char): (r: Option<nat>)
    ensures r.Some? ==> r.value < |s| && s[r.value] == c && c !in s[r.value + 1..]
    ensures r.None? ==> c !in s
  {
    if s == [] then None
    else if s[|s| - 1] == c then Some(|s| - 1)
    else
      var r := LastIndexOf(s[..|s| - 1], c);
      if r.Some? then
        AbsentAfter(s, r.value, c);
        r
      else
        AbsentFromAll(s, c);
        r
  }

  lemma AbsentAfter(s: string, k: nat, c: char)
    requires k < |s| - 1 && c !in s[..|s| - 1][k + 1..] && s[|s| - 1] != c
    ensures c !in s[k + 1..]
  {
    assert s[k + 1..] == s[..|s| - 1][k + 1..] + [s[|s| - 1]];
  }

  lemma AbsentFromAll(s: string, c: char)
    requires s != [] && c !in s[..|s| - 1] && s[|s| - 1] != c
    ensures c !in s
  {
    assert s == s[..|s| - 1] + [s[|s| - 1]];
  }

  /** `Math.round((part / whole) * 100)` computed on exact rationals: the nearest integer to the
      percentage, halves rounded up. */
  function RoundPercent(part: int, whole: int): (r: int)
    requires whole > 0
    ensures 2 * whole * r - whole <= 200 * part < 2 * whole * r + whole
    ensures 0 <= part <= whole ==> 0 <= r <= 100
    ensures part == whole ==> r == 100
    ensures part == 0 ==> r == 0
  {
    RoundPercentBounds(part, whole);
    (200 * part + whole) / (2 * whole)
  }

  lemma MulMonotonic(a: int, b: int, c: int)
    requires a >= 0 && b <= c
    ensures a * b <= a * c
  {
    assert a * c - a * b == a * (c - b);
  }

  lemma RoundPercentBounds(part: int, whole: int)
    requires whole > 0
    ensures var r := (200 * part + whole) / (2 * whole);
      && 2 * whole * r - whole <= 200 * part < 2 * whole * r + whole
      && (0 <= part <= whole ==> 0 <= r <= 100)
      && (part == whole ==> r == 100)
      && (part == 0 ==> r == 0)
  {
    var n, d := 200 * part + whole, 2 * whole;
    var r := n / d;
    assert n == d * r + n % d && 0 <= n % d < d;
    if 0 <= part <= whole {
      if r > 100 {
        MulMonotonic(d, 101, r);
        assert false;
      }
      if r < 0 {
        MulMonotonic(d, r, -1);
        assert false;
      }
    }
    if part == whole && r < 100 {
      MulMonotonic(d, r, 99);
      assert false;
    }
    if part == 0 {
      if r >= 1 {
        MulMonotonic(d, 1, r);
        assert false;
      }
      if r <= -1 {
        MulMonotonic(d, r, -1);
        assert false;
      }
    }
  }
}
