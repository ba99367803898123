/** The .NET string operations the service relies on, on strings as sequences of characters. */
module Text {
  import opened Wrappers

  /** char.IsWhiteSpace: the control characters U+0009..U+000D and U+0085, and the members of
      the Unicode categories SpaceSeparator, LineSeparator and ParagraphSeparator. No white-space
      character is an ASCII letter or digit. */
  predicate IsWhiteSpace(c: char)
    ensures IsWhiteSpace(c) ==> !('0' <= c <= '9' || 'A' <= c <= 'Z' || 'a' <= c <= 'z')
  {
    || ('\t' <= c <= '\r')
    || c == ' '
    || c == '\U{85}'
    || c == '\U{A0}'
    || c == '\U{1680}'
    || ('\U{2000}' <= c <= '\U{200A}')
    || c == '\U{2028}'
    || c == '\U{2029}'
    || c == '\U{202F}'
    || c == '\U{205F}'
    || c == '\U{3000}'
  }

  /** string.IsNullOrWhiteSpace on a non-null string: every character is white space. */
  predicate IsBlank(s: string) {
    forall i :: 0 <= i < |s| ==> IsWhiteSpace(s[i])
  }

  /** string.IsNullOrWhiteSpace on a nullable string. */
  predicate IsNullOrWhiteSpace(s: Option<string>) {
    s.None? || IsBlank(s.value)
  }

  /** The characters a trim removes: white space (string.Trim()) or one given character
      (string.TrimEnd(char)). */
  datatype CharClass = WhiteSpace | Only(c: char)

  predicate InClass(c: char, k: CharClass) {
    match k
    case WhiteSpace => IsWhiteSpace(c)
    case Only(d) => c == d
  }

  /** Removes the longest prefix of s whose characters are all in class k. */
  function TrimStart(s: string, k: CharClass): (r: string)
    ensures |r| <= |s| && r == s[|s| - |r|..]
    ensures forall i :: 0 <= i < |s| - |r| ==> InClass(s[i], k)
    ensures r != [] ==> !InClass(r[0], k)
    decreases |s|
  {
    if s != [] && InClass(s[0], k) then TrimStart(s[1..], k) else s
  }

  /** Removes the longest suffix of s whose characters are all in class k. */
  function TrimEnd(s: string, k: CharClass): (r: string)
    ensures |r| <= |s| && r == s[..|r|]
    ensures forall i :: |r| <= i < |s| ==> InClass(s[i], k)
    ensures r != [] ==> !InClass(r[|r| - 1], k)
    decreases |s|
  {
    if s != [] && InClass(s[|s| - 1], k) then TrimEnd(s[..|s| - 1], k) else s
  }

  /** string.Trim(): removes leading and trailing white space (TrimProperties, TrimOfTrimmed
      and TrimIdempotent state what it leaves). */
  function Trim(s: string): string {
    TrimEnd(TrimStart(s, WhiteSpace), WhiteSpace)
  }

  /** Neither end of s is white space (s is what Trim leaves of a non-blank string). */
  predicate IsTrimmed(s: string) {
    s != [] && !IsWhiteSpace(s[0]) && !IsWhiteSpace(s[|s| - 1])
  }

  /** Trim gives "" exactly for a blank string, and otherwise a string that neither starts nor
      ends with white space. */
  lemma TrimProperties(s: string)
    ensures |Trim(s)| <= |s|
    ensures Trim(s) == [] <==> IsBlank(s)
    ensures Trim(s) != [] ==> IsTrimmed(Trim(s))
  {
    var t := TrimStart(s, WhiteSpace);
    var r := TrimEnd(t, WhiteSpace);
    assert r != [] ==> r[0] == t[0];
  }

  /** Trimming an already trimmed string changes nothing. */
  lemma TrimOfTrimmed(s: string)
    requires s == [] || IsTrimmed(s)
    ensures Trim(s) == s
  {
    assert TrimStart(s, WhiteSpace) == s;
    assert TrimEnd(s, WhiteSpace) == s;
  }

  /** One space on either side of a trimmed string is removed, and nothing more. */
  lemma TrimPadded(core: string)
    requires IsTrimmed(core)
    ensures Trim([' '] + core + [' ']) == core
  {
    var s := [' '] + core + [' '];
    assert s[1..] == core + [' '];
    assert TrimStart(core + [' '], WhiteSpace) == core + [' '];
    assert TrimStart(s, WhiteSpace) == core + [' '];
    assert (core + [' '])[..|core|] == core;
    assert TrimEnd(core, WhiteSpace) == core;
  }

  /** Trim is idempotent. */
  lemma TrimIdempotent(s: string)
    ensures Trim(Trim(s)) == Trim(s)
  {
    TrimProperties(s);
    TrimOfTrimmed(Trim(s));
  }

  /** The upper-case mapping of char.ToUpperInvariant on ASCII letters; other characters are unchanged. */
  function UpperChar(c: char): char {
    if 'a' <= c <= 'z' then (c as int - 32) as char else c
  }

  /** string.ToUpperInvariant(), character by character. */
  function ToUpperInvariant(s: string): (r: string)
    ensures |r| == |s|
    ensures forall i :: 0 <= i < |s| ==> r[i] == UpperChar(s[i])
  {
    seq(|s|, i requires 0 <= i < |s| => UpperChar(s[i]))
  }

  /** The result has no lower-case ASCII letter. */
  lemma ToUpperInvariantHasNoLower(s: string)
    ensures forall i :: 0 <= i < |s| ==> !('a' <= ToUpperInvariant(s)[i] <= 'z')
  {
  }

  /** A string with no lower-case ASCII letter is its own upper-case form; in particular
      upper-casing twice is upper-casing once. */
  lemma ToUpperInvariantOfUpper(s: string)
    requires forall i :: 0 <= i < |s| ==> !('a' <= s[i] <= 'z')
    ensures ToUpperInvariant(s) == s
  {
  }

  /** Upper-casing keeps white space where it was: no letter is white space. */
  lemma UpperKeepsWhiteSpace(c: char)
    ensures IsWhiteSpace(UpperChar(c)) <==> IsWhiteSpace(c)
  {
  }

  /** Upper-casing a trimmed string gives a trimmed, non-blank string without lower-case
      letters that equals it ignoring case. */
  lemma UpperOfTrimmed(t: string)
    requires IsTrimmed(t)
    ensures var u := ToUpperInvariant(t);
            && IsTrimmed(u) && !IsBlank(u) && |u| == |t|
            && (forall i :: 0 <= i < |u| ==> !('a' <= u[i] <= 'z'))
            && EqualsOrdinalIgnoreCase(u, t)
  {
    var u := ToUpperInvariant(t);
    UpperKeepsWhiteSpace(t[0]);
    UpperKeepsWhiteSpace(t[|t| - 1]);
    assert !IsWhiteSpace(u[0]);
    ToUpperInvariantHasNoLower(t);
    ToUpperInvariantOfUpper(u);
  }

  /** string.Equals(a, b, StringComparison.OrdinalIgnoreCase). */
  predicate EqualsOrdinalIgnoreCase(a: string, b: string)
    ensures EqualsOrdinalIgnoreCase(a, b) ==> |a| == |b|
  {
    ToUpperInvariant(a) == ToUpperInvariant(b)
  }

  /** Two strings are equal ignoring case exactly when they have the same length and agree
      character by character once both characters are upper-cased. */
  lemma EqualsOrdinalIgnoreCaseByChar(a: string, b: string)
    ensures EqualsOrdinalIgnoreCase(a, b) <==>
              |a| == |b| && forall i :: 0 <= i < |a| ==> UpperChar(a[i]) == UpperChar(b[i])
  {
    if |a| == |b| && forall i :: 0 <= i < |a| ==> UpperChar(a[i]) == UpperChar(b[i]) {
      assert ToUpperInvariant(a) == ToUpperInvariant(b);
    }
  }

  /** The decimal digit character of d. */
  function DigitChar(d: nat): (c: char)
    requires d < 10
    ensures '0' <= c <= '9' && c as int - '0' as int == d
  {
    ('0' as int + d) as char
  }

  predicate IsDigits(s: string) {
    forall i :: 0 <= i < |s| ==> '0' <= s[i] <= '9'
  }

  /** The invariant-culture decimal rendering of a non-negative integer, as string interpolation gives it. */
  function NatToString(n: nat): (r: string)
    ensures r != [] && IsDigits(r)
    ensures r[0] == '0' ==> n == 0
    decreases n
  {
    if n < 10 then [DigitChar(n)] else NatToString(n / 10) + [DigitChar(n % 10)]
  }

  /** The value of a string of decimal digits. */
  function ParseNat(s: string): nat
    requires IsDigits(s)
  {
    if s == [] then 0 else ParseNat(s[..|s| - 1]) * 10 + (s[|s| - 1] as int - '0' as int)
  }

  /** Reading the digits back gives the number that was rendered. */
  lemma {:induction false} ParseNatToString(n: nat)
    ensures ParseNat(NatToString(n)) == n
    decreases n
  {
    var r := NatToString(n);
    if n >= 10 {
      ParseNatToString(n / 10);
      assert r[..|r| - 1] == NatToString(n / 10);
    }
  }
}
