/**
 * The JavaScript string built-ins the application relies on: trim, the
 * regular-expression class \s, ASCII case mapping, includes, String(number)
 * and Number(string) on integers.
 */
module Strings {
  import opened Wrappers

  /** The WhiteSpace and LineTerminator code points of ECMAScript: what trim removes and \s matches. */
  predicate IsWhitespace(c: char) {
    || c == '\t' || c == '\n' || c == '\U{000B}' || c == '\U{000C}' || c == '\r' || c == ' '
    || c == '\U{00A0}' || c == '\U{1680}' || ('\U{2000}' <= c <= '\U{200A}')
    || c == '\U{2028}' || c == '\U{2029}' || c == '\U{202F}' || c == '\U{205F}'
    || c == '\U{3000}' || c == '\U{FEFF}'
  }

  predicate AllWhitespace(s: string) {
    forall i :: 0 <= i < |s| ==> IsWhitespace(s[i])
  }

  predicate NoWhitespace(s: string) {
    forall i :: 0 <= i < |s| ==> !IsWhitespace(s[i])
  }

  /** The index of the first non-whitespace character at or after `i` (|s| if none). */
  function SkipWhitespace(s: string, i: nat): (k: nat)
    requires i <= |s|
    ensures i <= k <= |s|
    ensures forall j :: i <= j < k ==> IsWhitespace(s[j])
    ensures k < |s| ==> !IsWhitespace(s[k])
    decreases |s| - i
  {
    if i < |s| && IsWhitespace(s[i]) then SkipWhitespace(s, i + 1) else i
  }

  /** The end of the text before the whitespace run that ends at `j`. */
  function SkipWhitespaceBack(s: string, j: nat): (k: nat)
    requires j <= |s|
    ensures k <= j
    ensures forall m :: k <= m < j ==> IsWhitespace(s[m])
    ensures k > 0 ==> !IsWhitespace(s[k - 1])
    decreases j
  {
    if j > 0 && IsWhitespace(s[j - 1]) then SkipWhitespaceBack(s, j - 1) else j
  }

  /**
   * String.prototype.trim: `s` with its leading and trailing whitespace runs
   * removed. The result is empty exactly when `s` is all whitespace, and
   * otherwise neither starts nor ends with whitespace.
   */
  function Trim(s: string): (r: string)
    ensures |r| <= |s|
    ensures r == [] <==> AllWhitespace(s)
    ensures r != [] ==> !IsWhitespace(r[0]) && !IsWhitespace(r[|r| - 1])
    ensures exists a, b :: 0 <= a <= b <= |s| && r == s[a..b] && AllWhitespace(s[..a]) && AllWhitespace(s[b..])
  {
    var start := SkipWhitespace(s, 0);
    if start == |s| then
      assert s[..|s|] == s && s[|s|..|s|] == [];
      assert AllWhitespace(s[..|s|]) && AllWhitespace(s[|s|..]);
      []
    else
      var end := SkipWhitespaceBack(s, |s|);
      assert start < end;
      assert AllWhitespace(s[..start]);
      assert AllWhitespace(s[end..]);
      s[start..end]
  }

  /** Trimming a string that has no whitespace at either end returns it unchanged. */
  lemma TrimUnchanged(s: string)
    requires s == [] || (!IsWhitespace(s[0]) && !IsWhitespace(s[|s| - 1]))
    ensures Trim(s) == s
  {
  }

  /** The ASCII case mapping of String.prototype.toLowerCase. */
  function LowerChar(c: char): char {
    if 'A' <= c <= 'Z' then (c as int + 32) as char else c
  }

  /** The ASCII case mapping of String.prototype.toUpperCase. */
  function UpperChar(c: char): char {
    if 'a' <= c <= 'z' then (c as int - 32) as char else c
  }

  /** String.prototype.toLowerCase: ASCII capitals become small letters, every other character stays. */
  function Lower(s: string): (r: string)
    ensures |r| == |s|
    ensures forall i :: 0 <= i < |s| && 'A' <= s[i] <= 'Z' ==> r[i] as int == s[i] as int + 32
    ensures forall i :: 0 <= i < |s| && !('A' <= s[i] <= 'Z') ==> r[i] == s[i]
    ensures forall i :: 0 <= i < |r| ==> !('A' <= r[i] <= 'Z')
  {
    seq(|s|, i requires 0 <= i < |s| => LowerChar(s[i]))
  }

  /** String.prototype.toUpperCase: ASCII small letters become capitals, every other character stays. */
  function Upper(s: string): (r: string)
    ensures |r| == |s|
    ensures forall i :: 0 <= i < |s| && 'a' <= s[i] <= 'z' ==> r[i] as int == s[i] as int - 32
    ensures forall i :: 0 <= i < |s| && !('a' <= s[i] <= 'z') ==> r[i] == s[i]
    ensures forall i :: 0 <= i < |r| ==> !('a' <= r[i] <= 'z')
  {
    seq(|s|, i requires 0 <= i < |s| => UpperChar(s[i]))
  }

  /**
   * String.prototype.length: the number of UTF-16 code units. A code point
   * above U+FFFF is stored as a surrogate pair and counts twice.
   */
  function JsLength(s: string): (n: nat)
    ensures |s| <= n <= 2 * |s|
    ensures (forall i :: 0 <= i < |s| ==> s[i] as int <= 0xFFFF) ==> n == |s|
  {
    if s == [] then 0 else (if s[0] as int > 0xFFFF then 2 else 1) + JsLength(s[1..])
  }

  /** One character is one code unit, or two (a surrogate pair) above U+FFFF. */
  lemma JsLengthOfChar(c: char)
    ensures JsLength([c]) == if c as int > 0xFFFF then 2 else 1
  {
    assert [c][1..] == [];
  }

  /** The code-unit length of a concatenation is the sum of the lengths. */
  lemma {:induction false} JsLengthAppend(a: string, b: string)
    ensures JsLength(a + b) == JsLength(a) + JsLength(b)
    decreases |a|
  {
    if a != [] {
      assert (a + b)[0] == a[0];
      assert (a + b)[1..] == a[1..] + b;
      JsLengthAppend(a[1..], b);
    } else {
      assert a + b == b;
    }
  }

  /** "a" followed by an emoji is three code units long, not two. */
  lemma JsLengthMixedExample()
    ensures JsLength("a\U{1F600}") == 3
  {
    assert "a\U{1F600}" == ['a'] + ['\U{1F600}'];
    JsLengthAppend(['a'], ['\U{1F600}']);
    JsLengthOfChar('a');
    JsLengthOfChar('\U{1F600}');
  }

  /** `part` occurs in `s` starting at index `i`. */
  predicate OccursAt(s: string, part: string, i: int) {
    0 <= i <= |s| - |part| && s[i..i + |part|] == part
  }

  /** String.prototype.includes: `part` is a prefix of some suffix of `s`. */
  function Contains(s: string, part: string): (b: bool)
    ensures part == [] ==> b
    ensures b ==> |part| <= |s|
    decreases |s|
  {
    part <= s || (|s| > 0 && Contains(s[1..], part))
  }

  /** Whatever includes finds occurs at some index. */
  lemma {:induction false} ContainsOccurs(s: string, part: string) returns (i: int)
    requires Contains(s, part)
    ensures OccursAt(s, part, i)
    decreases |s|
  {
    if part <= s {
      assert s[0..|part|] == part;
      i := 0;
    } else {
      var k := ContainsOccurs(s[1..], part);
      assert s[1..][k..k + |part|] == s[k + 1..k + 1 + |part|];
      i := k + 1;
    }
  }

  /** An occurrence at any index is found by includes. */
  lemma {:induction false} OccursContains(s: string, part: string, i: int)
    requires OccursAt(s, part, i)
    ensures Contains(s, part)
    decreases i
  {
    if i == 0 {
      assert s[..|part|] == part;
    } else {
      assert s[1..][i - 1..i - 1 + |part|] == s[i..i + |part|];
      OccursContains(s[1..], part, i - 1);
    }
  }

  /** includes holds exactly when `part` occurs in `s` at some index. */
  lemma ContainsIffOccurs(s: string, part: string)
    ensures Contains(s, part) <==> exists i :: OccursAt(s, part, i)
  {
    if Contains(s, part) {
      var i := ContainsOccurs(s, part);
    }
    if i :| OccursAt(s, part, i) {
      OccursContains(s, part, i);
    }
  }

  predicate IsDigit(c: char) {
    '0' <= c <= '9'
  }

  predicate AllDigits(s: string) {
    forall i :: 0 <= i < |s| ==> IsDigit(s[i])
  }

  function DigitChar(d: nat): (c: char)
    requires d < 10
    ensures IsDigit(c)
  {
    ('0' as int + d) as char
  }

  /** The decimal digits of `n`, most significant first, as String(n) writes them. */
  function NatToString(n: nat): (r: string)
    ensures r != [] && AllDigits(r)
    decreases n
  {
    if n < 10 then [DigitChar(n)] else NatToString(n / 10) + [DigitChar(n % 10)]
  }

  /** The value of a string of decimal digits. */
  function DigitsValue(s: string): nat
    requires AllDigits(s)
  {
    if s == [] then 0 else DigitsValue(s[..|s| - 1]) * 10 + (s[|s| - 1] as int - '0' as int)
  }

  /** Reading back the digits String(n) writes gives `n`. */
  lemma {:induction false} NatToStringRoundTrip(n: nat)
    ensures DigitsValue(NatToString(n)) == n
    decreases n
  {
    if n >= 10 {
      var s := NatToString(n);
      assert s[..|s| - 1] == NatToString(n / 10);
      NatToStringRoundTrip(n / 10);
    }
  }

  /** String(k) for an integer `k`. */
  function IntToString(k: int): (r: string)
    ensures r != []
    ensures r[0] == '-' <==> k < 0
    ensures k < 0 ==> AllDigits(r[1..])
    ensures k >= 0 ==> AllDigits(r)
  {
    if k < 0 then "-" + NatToString(-k) else NatToString(k)
  }

  /** A character that can appear in no integer literal: not whitespace, not a digit, not a minus sign. */
  predicate Foreign(c: char) {
    !IsWhitespace(c) && !IsDigit(c) && c != '-'
  }

  /** Trimming removes whitespace only, so a foreign character of `s` is still in the trimmed text. */
  lemma ForeignSurvivesTrim(s: string)
    ensures (exists i :: 0 <= i < |s| && Foreign(s[i])) ==> exists j :: 0 <= j < |Trim(s)| && Foreign(Trim(s)[j])
  {
    if i :| 0 <= i < |s| && Foreign(s[i]) {
      var t := Trim(s);
      var a, b :| 0 <= a <= b <= |s| && t == s[a..b] && AllWhitespace(s[..a]) && AllWhitespace(s[b..]);
      assert forall k :: 0 <= k < a ==> s[k] == s[..a][k];
      assert forall k :: b <= k < |s| ==> s[k] == s[b..][k - b];
      assert a <= i < b;
      assert t[i - a] == s[i];
    }
  }

  /**
   * Number(s) restricted to integers: the trimmed text is empty (0), or an
   * optional minus sign followed by decimal digits. `None` stands for NaN.
   */
  function JsNumber(s: string): (r: Option<int>)
    ensures AllWhitespace(s) ==> r == Some(0)
    ensures (exists i :: 0 <= i < |s| && Foreign(s[i])) ==> r.None?
  {
    ForeignSurvivesTrim(s);
    var t := Trim(s);
    if t == [] then Some(0)
    else if t[0] == '-' && |t| > 1 && AllDigits(t[1..]) then
      assert forall j :: 1 <= j < |t| ==> t[j] == t[1..][j - 1];
      Some(-(DigitsValue(t[1..]) as int))
    else if AllDigits(t) then Some(DigitsValue(t))
    else None
  }

  /** Number(String(k)) == k for every integer `k`. */
  lemma NumberOfIntToString(k: int)
    ensures JsNumber(IntToString(k)) == Some(k)
  {
    var s := IntToString(k);
    var digits := NatToString(if k < 0 then -k else k);
    assert s[|s| - 1] == digits[|digits| - 1];
    assert IsDigit(s[|s| - 1]);
    assert s[0] == '-' || s[0] == digits[0];
    TrimUnchanged(s);
    assert Trim(s) == s;
    if k < 0 {
      assert s[1..] == NatToString(-k);
      NatToStringRoundTrip(-k);
    } else {
      assert s[0] != '-';
      NatToStringRoundTrip(k);
    }
  }
}
