/** String helpers that mirror the PHP built-ins the core relies on. */
module Text {
  import opened Wrappers

  /** PHP's `empty()` on a string: true for "" and for "0". */
  predicate IsEmpty(s: string) {
    s == "" || s == "0"
  }

  predicate IsDigit(c: char) {
    '0' <= c <= '9'
  }

  function DigitValue(c: char): int
    requires IsDigit(c)
  {
    c as int - '0' as int
  }

  function DigitChar(d: int): (c: char)
    requires 0 <= d <= 9
    ensures IsDigit(c) && DigitValue(c) == d
  {
    ('0' as int + d) as char
  }

  /** The number of spaces that open `s`. */
  function LeadingSpaces(s: string): (k: nat)
    ensures k <= |s|
    ensures forall i :: 0 <= i < k ==> s[i] == ' '
    ensures k == |s| || s[k] != ' '
  {
    if s != [] && s[0] == ' ' then 1 + LeadingSpaces(s[1..]) else 0
  }

  /** The longest prefix of `s` that holds no space. */
  function TokenPrefix(s: string): (t: string)
    ensures |t| <= |s| && t == s[..|t|]
    ensures forall i :: 0 <= i < |t| ==> t[i] != ' '
    ensures |t| == |s| || s[|t|] == ' '
  {
    if s == [] || s[0] == ' ' then [] else [s[0]] + TokenPrefix(s[1..])
  }

  /**
   * PHP's first `strtok(s, " ")` call: leading spaces are skipped and the
   * token runs up to the next space or the end; a string of spaces only
   * (or the empty string) gives PHP's `false`, here `None`.
   */
  function FirstToken(s: string): (r: Option<string>)
    ensures r.None? <==> forall i :: 0 <= i < |s| ==> s[i] == ' '
    ensures r.Some? ==>
      var k, t := LeadingSpaces(s), r.value;
      && t != []
      && k + |t| <= |s|
      && s[k..k + |t|] == t
      && (forall i :: 0 <= i < k ==> s[i] == ' ')
      && (forall i :: 0 <= i < |t| ==> t[i] != ' ')
      && (k + |t| == |s| || s[k + |t|] == ' ')
  {
    var k := LeadingSpaces(s);
    if k == |s| then None else Some(TokenPrefix(s[k..]))
  }

  /** A word with no space, followed by nothing or by a space, is the first token. */
  lemma {:induction false} FirstTokenOfWord(w: string, rest: string)
    requires w != [] && forall i :: 0 <= i < |w| ==> w[i] != ' '
    requires rest == [] || rest[0] == ' '
    ensures FirstToken(w + rest) == Some(w)
  {
    var s := w + rest;
    assert s[0] == w[0];
    assert LeadingSpaces(s) == 0;
    TokenPrefixOfWord(w, rest);
  }

  lemma {:induction false} TokenPrefixOfWord(w: string, rest: string)
    requires forall i :: 0 <= i < |w| ==> w[i] != ' '
    requires rest == [] || rest[0] == ' '
    ensures TokenPrefix(w + rest) == w
  {
    if w != [] {
      assert (w + rest)[0] == w[0];
      assert (w + rest)[1..] == w[1..] + rest;
      TokenPrefixOfWord(w[1..], rest);
    } else {
      assert w + rest == rest;
    }
  }

  /** Decimal digits of a natural number, as PHP's string conversion writes them. */
  function NatToString(n: nat): (s: string)
    ensures |s| > 0
    decreases n
  {
    if n < 10 then [DigitChar(n)] else NatToString(n / 10) + [DigitChar(n % 10)]
  }

  function IntToString(i: int): string {
    if i < 0 then "-" + NatToString(-i) else NatToString(i)
  }

  predicate AllDigits(s: string) {
    forall i :: 0 <= i < |s| ==> IsDigit(s[i])
  }

  /** The number a string of decimal digits denotes. */
  function DecimalValue(s: string): nat
    requires AllDigits(s)
  {
    if s == [] then 0 else 10 * DecimalValue(s[..|s| - 1]) + DigitValue(s[|s| - 1])
  }

  /** The decimal text of `n` is all digits and reads back as `n`. */
  lemma {:induction false} NatToStringRoundTrip(n: nat)
    ensures AllDigits(NatToString(n))
    ensures DecimalValue(NatToString(n)) == n
    decreases n
  {
    var s := NatToString(n);
    if n >= 10 {
      NatToStringRoundTrip(n / 10);
      var p := NatToString(n / 10);
      assert s == p + [DigitChar(n % 10)];
      assert s[..|s| - 1] == p;
    }
  }

  /** The bytes one character takes in UTF-8. */
  function Utf8Width(c: char): nat {
    if c as int < 0x80 then 1 else if c as int < 0x800 then 2 else if c as int < 0x10000 then 3 else 4
  }

  /** `strlen` of a string held as UTF-8: its length in bytes. */
  function Utf8Length(s: string): (n: nat)
    ensures |s| <= n <= 4 * |s|
  {
    if s == [] then 0 else Utf8Length(s[..|s| - 1]) + Utf8Width(s[|s| - 1])
  }

  /** On ASCII text the byte length is the character count; any other character makes it longer. */
  lemma {:induction false} Utf8LengthAscii(s: string)
    ensures Utf8Length(s) == |s| <==> forall i :: 0 <= i < |s| ==> s[i] as int < 0x80
  {
    if s != [] {
      var init := s[..|s| - 1];
      Utf8LengthAscii(init);
      assert forall i :: 0 <= i < |init| ==> init[i] == s[i];
      if Utf8Length(s) == |s| {
        assert Utf8Length(init) == |init| && Utf8Width(s[|s| - 1]) == 1;
      }
    }
  }
}
