/** Characters, numerals and whitespace-separated tokens. */
module Text {

  predicate IsDigit(c: char) { '0' <= c <= '9' }

  predicate IsUpperHex(c: char) { IsDigit(c) || 'A' <= c <= 'F' }

  predicate IsHex(c: char) { IsUpperHex(c) || 'a' <= c <= 'f' }

  predicate IsWord(c: char) { IsDigit(c) || 'A' <= c <= 'Z' || 'a' <= c <= 'z' || c == '_' }

  predicate IsSpace(c: char) { c == ' ' || '\t' <= c <= '\r' }

  // The classes, character by character.

  lemma DigitText(c: char)
    ensures IsDigit(c) <==> c in "0123456789"
  {}

  lemma UpperHexText(c: char)
    ensures IsUpperHex(c) <==> c in "0123456789ABCDEF"
  {}

  lemma UpperText(c: char)
    ensures 'A' <= c <= 'Z' <==> c in "ABCDEFGHIJKLMNOPQRSTUVWXYZ"
  {}

  lemma LowerText(c: char)
    ensures 'a' <= c <= 'z' <==> c in "abcdefghijklmnopqrstuvwxyz"
  {}

  lemma WordText(c: char)
    ensures IsWord(c) <==>
      c in "ABCDEFGHIJKLMNOPQRSTUVWXYZ" || c in "abcdefghijklmnopqrstuvwxyz" || c in "0123456789" || c == '_'
  {
    UpperText(c);
    LowerText(c);
    DigitText(c);
  }

  lemma SpaceText(c: char)
    ensures IsSpace(c) <==> c in [9 as char, 10 as char, 11 as char, 12 as char, 13 as char, 32 as char]
  {}

  predicate AllDigits(s: string) { forall i :: 0 <= i < |s| ==> IsDigit(s[i]) }

  predicate AllUpperHex(s: string) { forall i :: 0 <= i < |s| ==> IsUpperHex(s[i]) }

  predicate AllWord(s: string) { forall i :: 0 <= i < |s| ==> IsWord(s[i]) }

  predicate AllSpaces(s: string) { forall i :: 0 <= i < |s| ==> IsSpace(s[i]) }

  predicate NoSpaces(s: string) { forall i :: 0 <= i < |s| ==> !IsSpace(s[i]) }

  // ----- decimal -----

  function Decimal(n: nat): (s: string)
    ensures |s| > 0 && AllDigits(s)
    ensures s == "0" <==> n == 0
    ensures n > 0 ==> s[0] != '0'
  {
    if n < 10 then ['0' + n as char] else Decimal(n / 10) + ['0' + (n % 10) as char]
  }

  /** The value `std::stoi` computes for a string of digits. */
  function DecimalValue(s: string): nat
    requires AllDigits(s)
  {
    if s == "" then 0
    else DecimalValue(s[..|s| - 1]) * 10 + (s[|s| - 1] - '0') as nat
  }

  lemma {:induction false} DecimalRoundTrip(n: nat)
    ensures DecimalValue(Decimal(n)) == n
  {
    if n < 10 {
      assert Decimal(n)[..0] == "";
    } else {
      DecimalRoundTrip(n / 10);
      assert Decimal(n)[..|Decimal(n)| - 1] == Decimal(n / 10);
    }
  }

  lemma DecimalInjective(m: nat, n: nat)
    requires Decimal(m) == Decimal(n)
    ensures m == n
  {
    DecimalRoundTrip(m);
    DecimalRoundTrip(n);
  }

  // ----- hexadecimal -----

  function HexDigit(d: nat): (c: char)
    requires d < 16
    ensures IsUpperHex(c) && IsWord(c) && c != ':' && !IsSpace(c)
  {
    if d < 10 then '0' + d as char else 'A' + (d - 10) as char
  }

  function HexDigitValue(c: char): (d: nat)
    requires IsHex(c)
    ensures d < 16
  {
    if IsDigit(c) then (c - '0') as nat
    else if c >= 'a' then (c - 'a') as nat + 10
    else (c - 'A') as nat + 10
  }

  function Pow16(k: nat): (p: nat)
    ensures p > 0
  {
    if k == 0 then 1 else 16 * Pow16(k - 1)
  }

  /** `printf("%0<width>X", n)` for a number that fits. */
  function Hex(n: nat, width: nat): (s: string)
    ensures |s| == width && AllUpperHex(s) && AllWord(s) && NoSpaces(s) && ':' !in s
  {
    if width == 0 then "" else Hex(n / 16, width - 1) + [HexDigit(n % 16)]
  }

  /** The value of a run of hex digits. */
  function HexValue(s: string): nat
    requires forall i :: 0 <= i < |s| ==> IsHex(s[i])
  {
    if s == "" then 0 else HexValue(s[..|s| - 1]) * 16 + HexDigitValue(s[|s| - 1])
  }

  lemma {:induction false} HexRoundTrip(n: nat, width: nat)
    requires n < Pow16(width)
    ensures HexValue(Hex(n, width)) == n
  {
    if width == 0 {
      assert n == 0 && Hex(n, width) == "";
    } else {
      hide Hex, HexDigit, HexDigitValue, HexValue, Pow16;
      HexOfMore(n, width);
      HexRoundTrip(n / 16, width - 1);
      DigitRoundTrip(n % 16);
      HexValueOfMore(Hex(n / 16, width - 1), HexDigit(n % 16));
    }
  }

  lemma HexOfMore(n: nat, width: nat)
    requires n < Pow16(width) && width > 0
    ensures n / 16 < Pow16(width - 1)
    ensures Hex(n, width) == Hex(n / 16, width - 1) + [HexDigit(n % 16)]
  {
    hide HexDigit;
  }

  lemma HexValueOfMore(s: string, c: char)
    requires IsHex(c) && forall i :: 0 <= i < |s| ==> IsHex(s[i])
    ensures forall i :: 0 <= i < |s + [c]| ==> IsHex((s + [c])[i])
    ensures HexValue(s + [c]) == HexValue(s) * 16 + HexDigitValue(c)
  {
    assert (s + [c])[..|s|] == s;
  }

  lemma DigitRoundTrip(d: nat)
    requires d < 16
    ensures HexDigitValue(HexDigit(d)) == d
  {}

  /** Every run of `k` hex digits stays below 16^k. */
  lemma {:induction false} HexBound(s: string)
    requires forall i :: 0 <= i < |s| ==> IsHex(s[i])
    ensures HexValue(s) < Pow16(|s|)
  {
    if s != "" {
      HexBound(s[..|s| - 1]);
    }
  }

  // ----- tokens, as `std::istringstream >> token` produces them -----

  /** The first index at or after `i` that is not whitespace. */
  function SkipSpaces(s: string, i: nat): (j: nat)
    requires i <= |s|
    ensures i <= j <= |s|
    ensures forall k :: i <= k < j ==> IsSpace(s[k])
    ensures j < |s| ==> !IsSpace(s[j])
    decreases |s| - i
  {
    if i < |s| && IsSpace(s[i]) then SkipSpaces(s, i + 1) else i
  }

  /** The first index at or after `i` that is whitespace. */
  function SkipToken(s: string, i: nat): (j: nat)
    requires i <= |s|
    ensures i <= j <= |s|
    ensures forall k :: i <= k < j ==> !IsSpace(s[k])
    ensures j < |s| ==> IsSpace(s[j])
    decreases |s| - i
  {
    if i < |s| && !IsSpace(s[i]) then SkipToken(s, i + 1) else i
  }

  /** All tokens of `s` from position `i` on. */
  function TokensFrom(s: string, i: nat): seq<string>
    requires i <= |s|
    decreases |s| - i
  {
    var a := SkipSpaces(s, i);
    if a == |s| then []
    else
      var b := SkipToken(s, a);
      [s[a..b]] + TokensFrom(s, b)
  }

  function Tokens(s: string): seq<string> { TokensFrom(s, 0) }

  /** Skipping is determined by where it stops. */
  lemma SkipSpacesIs(s: string, i: nat, j: nat)
    requires i <= j <= |s|
    requires forall k :: i <= k < j ==> IsSpace(s[k])
    requires j < |s| ==> !IsSpace(s[j])
    ensures SkipSpaces(s, i) == j
  {
    assert !(SkipSpaces(s, i) < j);
  }

  lemma SkipTokenIs(s: string, i: nat, j: nat)
    requires i <= j <= |s|
    requires forall k :: i <= k < j ==> !IsSpace(s[k])
    requires j < |s| ==> IsSpace(s[j])
    ensures SkipToken(s, i) == j
  {
    assert !(SkipToken(s, i) < j);
  }

  function Spaces(n: nat): (s: string)
    ensures |s| == n && AllSpaces(s)
  {
    if n == 0 then "" else " " + Spaces(n - 1)
  }

  predicate Token(w: string) { w != "" && NoSpaces(w) }

  /** `t` occurs in `s` at position `i`. */
  predicate At(s: string, i: nat, t: string) { i + |t| <= |s| && s[i..i + |t|] == t }

  lemma AtFits(s: string, i: nat, t: string)
    requires At(s, i, t)
    ensures i + |t| <= |s|
  {}

  lemma AtSplit(s: string, i: nat, t: string, u: string)
    requires At(s, i, t + u)
    ensures At(s, i, t) && At(s, i + |t|, u)
  {
    assert s[i..i + |t|] == s[i..i + |t + u|][..|t|];
    assert s[i + |t|..i + |t + u|] == s[i..i + |t + u|][|t|..];
  }

  lemma OneToken(s: string, i: nat, pad: nat, w: string)
    requires Token(w) && At(s, i, Spaces(pad)) && At(s, i + pad, w)
    requires i + pad + |w| < |s| ==> IsSpace(s[i + pad + |w|])
    ensures TokensFrom(s, i) == [w] + TokensFrom(s, i + pad + |w|)
  {
    var a, b := i + pad, i + pad + |w|;
    forall k | i <= k < a ensures IsSpace(s[k]) { assert s[k] == s[i..a][k - i]; }
    forall k | a <= k < b ensures !IsSpace(s[k]) { assert s[k] == s[a..b][k - a]; }
    SkipSpacesIs(s, i, a);
    SkipTokenIs(s, a, b);
  }

  /** Words, each preceded by its own amount of padding. */
  datatype Layout = End | Padded(pad: nat, word: string, rest: Layout)

  function Join(t: Layout): string {
    match t
    case End => ""
    case Padded(pad, word, rest) => Spaces(pad) + (word + Join(rest))
  }

  function Words(t: Layout): seq<string> {
    match t
    case End => []
    case Padded(_, word, rest) => [word] + Words(rest)
  }

  predicate Separated(t: Layout) {
    t.Padded? ==> Token(t.word) && (t.rest.Padded? ==> t.rest.pad > 0) && Separated(t.rest)
  }

  lemma JoinAt(s: string, i: nat, t: Layout)
    requires t.Padded? && At(s, i, Join(t))
    ensures At(s, i, Spaces(t.pad)) && At(s, i + t.pad, t.word)
    ensures At(s, i + t.pad + |t.word|, Join(t.rest))
    ensures |Join(t)| == t.pad + |t.word| + |Join(t.rest)|
  {
    var rest := Join(t.rest);
    assert Join(t) == Spaces(t.pad) + (t.word + rest);
    hide At, Join, Spaces;
    AtSplit(s, i, Spaces(t.pad), t.word + rest);
    AtSplit(s, i + t.pad, t.word, rest);
  }

  lemma PaddingIsSpace(s: string, i: nat, t: Layout)
    requires t.Padded? && t.pad > 0 && At(s, i, Join(t))
    ensures i < |s| && IsSpace(s[i])
  {
    JoinAt(s, i, t);
    assert s[i] == s[i..i + t.pad][0];
  }

  /** The first word is followed by padding, or ends the laid-out text. */
  lemma WordEnds(s: string, i: nat, t: Layout, end: nat)
    requires t.Padded? && Separated(t) && end == i + t.pad + |t.word|
    requires At(s, end, Join(t.rest))
    requires end + |Join(t.rest)| < |s| ==> IsSpace(s[end + |Join(t.rest)|])
    ensures end < |s| ==> IsSpace(s[end])
  {
    if t.rest.Padded? { PaddingIsSpace(s, end, t.rest); }
    hide At, IsSpace, Spaces;
  }

  lemma FirstIsToken(t: Layout)
    requires t.Padded? && Separated(t)
    ensures Token(t.word)
  {}

  lemma FirstWordOfJoin(s: string, i: nat, t: Layout)
    requires t.Padded? && Separated(t) && At(s, i, Join(t))
    requires i + |Join(t)| < |s| ==> IsSpace(s[i + |Join(t)|])
    ensures At(s, i + t.pad + |t.word|, Join(t.rest))
    ensures |Join(t)| == t.pad + |t.word| + |Join(t.rest)|
    ensures TokensFrom(s, i) == [t.word] + TokensFrom(s, i + t.pad + |t.word|)
  {
    hide Join, Spaces, Separated, TokensFrom, At, IsSpace, Token;
    FirstIsToken(t);
    JoinAt(s, i, t);
    WordEnds(s, i, t, i + t.pad + |t.word|);
    OneToken(s, i, t.pad, t.word);
  }

  lemma ConsWords(w: string, x: seq<string>, y: seq<string>)
    ensures [w] + (x + y) == ([w] + x) + y
  {}

  /** Splitting laid-out text gives its words back, followed by the tokens of what trails it. */
  lemma {:induction false} TokensOfJoin(s: string, i: nat, t: Layout)
    requires Separated(t) && At(s, i, Join(t))
    requires i + |Join(t)| < |s| ==> IsSpace(s[i + |Join(t)|])
    ensures TokensFrom(s, i) == Words(t) + TokensFrom(s, i + |Join(t)|)
    decreases t
  {
    hide TokensFrom, At;
    AtFits(s, i, Join(t));
    if t.Padded? {
      FirstWordOfJoin(s, i, t);
      TokensOfJoin(s, i + t.pad + |t.word|, t.rest);
      ConsWords(t.word, Words(t.rest), TokensFrom(s, i + |Join(t)|));
    }
  }
}
