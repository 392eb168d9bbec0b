/**
 * The JavaScript string operations the source relies on, with their ECMAScript meaning:
 * `startsWith`, `endsWith`, `indexOf`, `includes`, `replace` and `replaceAll` with a string
 * pattern, `join`, `parseInt` and the conversion of an integral number to a string.
 */
module JsText {
  import opened Wrappers

  /** `s.startsWith(p)` */
  predicate StartsWith(s: string, p: string) {
    p <= s
  }

  /** `s.endsWith(p)` */
  predicate EndsWith(s: string, p: string) {
    |p| <= |s| && s[|s| - |p|..] == p
  }

  /** `s.indexOf(p)`: the first position where `p` occurs, or -1. */
  function IndexOf(s: string, p: string): (i: int)
    ensures -1 <= i <= |s|
    ensures i >= 0 ==> i + |p| <= |s|
    decreases |s|
  {
    if p <= s then 0
    else if s == [] then -1
    else
      var k := IndexOf(s[1..], p);
      if k < 0 then -1 else k + 1
  }

  /** The position `IndexOf` reports is an occurrence, and no occurrence comes before it. */
  lemma {:induction false} IndexOfFirst(s: string, p: string)
    ensures IndexOf(s, p) >= 0 ==> p <= s[IndexOf(s, p)..]
    ensures forall j | 0 <= j < IndexOf(s, p) :: !(p <= s[j..])
    ensures IndexOf(s, p) < 0 ==> forall j | 0 <= j <= |s| :: !(p <= s[j..])
    decreases |s|
  {
    if !(p <= s) && s != [] {
      IndexOfFirst(s[1..], p);
      assert forall j | 1 <= j <= |s| :: s[j..] == s[1..][j - 1..];
    }
  }

  /** `s.includes(p)` */
  predicate Includes(s: string, p: string) {
    IndexOf(s, p) >= 0
  }

  /**
   * The replacement text of `replace`/`replaceAll` with a string pattern (GetSubstitution
   * with no capture groups): `$$` is a dollar, `$&` the match, `` $` `` the text before it,
   * `$'` the text after it; every other `$` stays literal.
   */
  function Substitute(rep: string, matched: string, before: string, after: string): string
    decreases |rep|
  {
    if |rep| >= 2 && rep[0] == '$' then
      if rep[1] == '$' then "$" + Substitute(rep[2..], matched, before, after)
      else if rep[1] == '&' then matched + Substitute(rep[2..], matched, before, after)
      else if rep[1] == '`' then before + Substitute(rep[2..], matched, before, after)
      else if rep[1] == '\'' then after + Substitute(rep[2..], matched, before, after)
      else "$" + Substitute(rep[1..], matched, before, after)
    else if rep == [] then []
    else [rep[0]] + Substitute(rep[1..], matched, before, after)
  }

  /** A replacement text without `$` is inserted as it is. */
  lemma {:induction false} SubstitutePlain(rep: string, matched: string, before: string, after: string)
    requires '$' !in rep
    ensures Substitute(rep, matched, before, after) == rep
    decreases |rep|
  {
    if rep != [] {
      assert rep[0] != '$';
      assert '$' !in rep[1..] by {
        forall k | 0 <= k < |rep[1..]| ensures rep[1..][k] != '$' {
          assert rep[1..][k] == rep[k + 1];
        }
      }
      SubstitutePlain(rep[1..], matched, before, after);
    }
  }

  /** `s.replace(pat, rep)` with a string pattern: only the first occurrence is replaced. */
  function ReplaceFirst(s: string, pat: string, rep: string): string {
    var i := IndexOf(s, pat);
    if i < 0 then s
    else s[..i] + Substitute(rep, pat, s[..i], s[i + |pat|..]) + s[i + |pat|..]
  }

  /**
   * Replacing the first occurrence: the text before it and everything after it, further
   * occurrences included, are left as they are.
   */
  lemma ReplaceFirstAt(a: string, pat: string, b: string, rep: string)
    requires forall j | 0 <= j < |a| :: !(pat <= (a + pat + b)[j..])
    requires '$' !in rep
    ensures ReplaceFirst(a + pat + b, pat, rep) == a + rep + b
  {
    var s := a + pat + b;
    assert s[|a|..] == pat + b;
    assert pat <= s[|a|..];
    var i := IndexOf(s, pat);
    IndexOfFirst(s, pat);
    assert i == |a|;
    assert s[..i] == a;
    assert s[i + |pat|..] == b;
    SubstitutePlain(rep, pat, a, b);
    assert ReplaceFirst(s, pat, rep) == a + Substitute(rep, pat, a, b) + b;
  }

  /** A pattern that does not occur leaves the string unchanged. */
  lemma ReplaceFirstAbsent(s: string, pat: string, rep: string)
    requires !Includes(s, pat)
    ensures ReplaceFirst(s, pat, rep) == s
  {
  }

  /**
   * `s.replaceAll(pat, rep)` for a non-empty pattern and a replacement without `$`: every
   * occurrence, found left to right without overlap, is replaced.
   */
  function ReplaceAll(s: string, pat: string, rep: string): string
    requires pat != []
    decreases |s|
  {
    if pat <= s then rep + ReplaceAll(s[|pat|..], pat, rep)
    else if s == [] then []
    else [s[0]] + ReplaceAll(s[1..], pat, rep)
  }

  /** `parts.join(sep)` */
  function Join(parts: seq<string>, sep: string): string {
    if parts == [] then ""
    else if |parts| == 1 then parts[0]
    else parts[0] + sep + Join(parts[1..], sep)
  }

  /** Characters the StrWhiteSpaceChar production of ECMAScript lets `parseInt` skip. */
  predicate IsStrWhiteSpace(c: char) {
    c == '\t' || c == '\n' || c == '\U{B}' || c == '\U{C}' || c == '\r' || c == ' '
    || c == '\U{A0}' || c == '\U{1680}' || ('\U{2000}' <= c <= '\U{200A}')
    || c == '\U{2028}' || c == '\U{2029}' || c == '\U{202F}' || c == '\U{205F}'
    || c == '\U{3000}' || c == '\U{FEFF}'
  }

  function TrimStart(s: string): string
    decreases |s|
  {
    if s != [] && IsStrWhiteSpace(s[0]) then TrimStart(s[1..]) else s
  }

  /** The value of a digit in radix 36, or -1 for any other character. */
  function DigitValue(c: char): int {
    if '0' <= c <= '9' then c as int - '0' as int
    else if 'a' <= c <= 'z' then c as int - 'a' as int + 10
    else if 'A' <= c <= 'Z' then c as int - 'A' as int + 10
    else -1
  }

  predicate IsRadixDigit(c: char, radix: nat) {
    0 <= DigitValue(c) < radix
  }

  /** Length of the longest prefix of `s` made of digits of `radix`. */
  function DigitRun(s: string, radix: nat): (n: nat)
    ensures n <= |s|
    ensures forall k | 0 <= k < n :: IsRadixDigit(s[k], radix)
    ensures n < |s| ==> !IsRadixDigit(s[n], radix)
    decreases |s|
  {
    if s != [] && IsRadixDigit(s[0], radix) then
      var m := DigitRun(s[1..], radix);
      assert forall k | 1 <= k < m + 1 :: s[k] == s[1..][k - 1];
      m + 1
    else 0
  }

  lemma ProductNonNegative(a: nat, b: nat)
    ensures a * b >= 0
  {
  }

  /** The value of a string of digits of `radix`, most significant first. */
  function DigitsValue(ds: string, radix: nat): nat
    requires forall k | 0 <= k < |ds| :: IsRadixDigit(ds[k], radix)
    decreases |ds|
  {
    if ds == [] then 0
    else
      var front := ds[..|ds| - 1];
      assert IsRadixDigit(ds[|ds| - 1], radix);
      var high := DigitsValue(front, radix);
      ProductNonNegative(high, radix);
      high * radix + DigitValue(ds[|ds| - 1])
  }

  /** The value of the longest run of digits of `radix` at the start of `v`; `None` if empty. */
  function ParseDigits(v: string, radix: nat): Option<nat> {
    var n := DigitRun(v, radix);
    if n == 0 then None else Some(DigitsValue(v[..n], radix))
  }

  /** The unsigned part of `parseInt`: a `0x`/`0X` prefix selects radix 16. */
  function ParseMagnitude(u: string): Option<nat> {
    if |u| >= 2 && u[0] == '0' && (u[1] == 'x' || u[1] == 'X') then ParseDigits(u[2..], 16)
    else ParseDigits(u, 10)
  }

  /**
   * `parseInt(s)` with no radix: leading white space is skipped, a sign is read, a `0x`/`0X`
   * prefix selects radix 16, and the longest run of digits is converted. `None` is `NaN`.
   * The negative zero of `parseInt("-0")` is 0 here.
   */
  function ParseInt(s: string): Option<int> {
    var t := TrimStart(s);
    if t != [] && t[0] == '-' then
      match ParseMagnitude(t[1..])
      case None => None
      case Some(m) => Some(-(m as int))
    else if t != [] && t[0] == '+' then
      match ParseMagnitude(t[1..])
      case None => None
      case Some(m) => Some(m)
    else
      match ParseMagnitude(t)
      case None => None
      case Some(m) => Some(m)
  }

  function DigitChar(d: nat): char
    requires d < 10
  {
    ('0' as int + d) as char
  }

  /** The decimal digits of a natural number, most significant first. */
  function NatToString(n: nat): (s: string)
    ensures |s| >= 1
    ensures forall k | 0 <= k < |s| :: '0' <= s[k] <= '9'
    decreases n
  {
    if n < 10 then [DigitChar(n)] else NatToString(n / 10) + [DigitChar(n % 10)]
  }

  /** `String(n)` for an integral number below 10^21 in magnitude. */
  function IntToString(n: int): string {
    if n < 0 then "-" + NatToString(-n) else NatToString(n)
  }

  lemma {:induction false} NatToStringValue(n: nat)
    ensures DigitsValue(NatToString(n), 10) == n
    decreases n
  {
    if n >= 10 {
      NatToStringValue(n / 10);
      var s := NatToString(n);
      assert s[..|s| - 1] == NatToString(n / 10);
    }
  }

  lemma DigitRunOfDigits(s: string)
    requires forall k | 0 <= k < |s| :: '0' <= s[k] <= '9'
    ensures DigitRun(s, 10) == |s|
  {
  }

  /** `parseInt` of an untrimmed text with a minus sign negates the magnitude after it. */
  lemma ParseIntSigned(s: string)
    requires s != [] && TrimStart(s) == s && s[0] == '-' && ParseMagnitude(s[1..]).Some?
    ensures ParseInt(s) == Some(-(ParseMagnitude(s[1..]).value as int))
  {
  }

  /** `parseInt` of an untrimmed text with no sign is its magnitude. */
  lemma ParseIntUnsigned(s: string)
    requires s != [] && TrimStart(s) == s && '0' <= s[0] <= '9' && ParseMagnitude(s).Some?
    ensures ParseInt(s) == Some(ParseMagnitude(s).value)
  {
  }

  /** A text that does not start with white space is not trimmed. */
  lemma TrimStartNone(s: string)
    requires s != [] && (s[0] == '-' || '0' <= s[0] <= '9')
    ensures TrimStart(s) == s
  {
    assert !IsStrWhiteSpace(s[0]);
  }

  /** The unsigned part of `parseInt` reads a plain run of decimal digits whole. */
  lemma ParseMagnitudeOfDigits(digits: string)
    requires |digits| >= 1 && forall k | 0 <= k < |digits| :: '0' <= digits[k] <= '9'
    ensures ParseMagnitude(digits) == Some(DigitsValue(digits, 10))
  {
    DigitRunOfDigits(digits);
    assert digits[..|digits|] == digits;
  }

  /** `parseInt(String(n))` gives back `n`: the two conversions are inverse. */
  lemma ParseIntOfIntToString(n: int)
    ensures ParseInt(IntToString(n)) == Some(n)
  {
    var m: nat := if n < 0 then -n else n;
    var digits := NatToString(m);
    NatToStringValue(m);
    ParseMagnitudeOfDigits(digits);
    if n < 0 {
      var s := "-" + digits;
      TrimStartNone(s);
      assert s[1..] == digits;
      ParseIntSigned(s);
    } else {
      TrimStartNone(digits);
      ParseIntUnsigned(digits);
    }
  }

  /** Different numbers are written differently. */
  lemma IntToStringInjective(a: int, b: int)
    requires IntToString(a) == IntToString(b)
    ensures a == b
  {
    ParseIntOfIntToString(a);
    ParseIntOfIntToString(b);
  }
}
