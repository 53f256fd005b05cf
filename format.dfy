/**
 Tick and tooltip labels for race times: the conversion of a number of
 seconds into an "M:R" label, the decimal text it is built from, and a reader
 that takes such a label back to a number of seconds.
 */
module Format {

  datatype Option<T> = None | Some(value: T)

  predicate IsDigit(c: char) {
    '0' <= c <= '9'
  }

  predicate AllDigits(s: string) {
    forall i :: 0 <= i < |s| ==> IsDigit(s[i])
  }

  /** The character of a single decimal digit. */
  function DigitChar(d: nat): (c: char)
    requires d < 10
    ensures IsDigit(c) && c as int - '0' as int == d
  {
    ('0' as int + d) as char
  }

  /** The value of a digit character. */
  function DigitValue(c: char): (d: nat)
    requires IsDigit(c)
    ensures d < 10 && DigitChar(d) == c
  {
    c as int - '0' as int
  }

  /** The value of a string of decimal digits, read left to right; "" reads as 0. */
  function ReadNat(s: string): nat
    requires AllDigits(s)
  {
    if |s| == 0 then 0 else 10 * ReadNat(s[..|s| - 1]) + DigitValue(s[|s| - 1])
  }

  /**
   The decimal text of `n`, as a JavaScript template literal prints a
   non-negative integer: no sign, no leading zero, "0" for zero.
   */
  function NatToString(n: nat): (s: string)
    ensures |s| >= 1 && AllDigits(s)
    ensures ReadNat(s) == n
    ensures s[0] == '0' ==> n == 0 && |s| == 1
    ensures |s| == 1 <==> n < 10
    ensures |s| == 2 <==> 10 <= n < 100
  {
    if n < 10 then [DigitChar(n)]
    else
      var p := NatToString(n / 10);
      var s := p + [DigitChar(n % 10)];
      assert s[..|s| - 1] == p;
      s
  }

  /**
   The text after the colon for a remainder `r` of seconds: a zero remainder
   is falsy and is replaced by "00"; any other remainder prints unpadded.
   */
  function RemainderText(r: nat): (t: string)
    requires r < 60
    ensures 1 <= |t| <= 2 && AllDigits(t)
    ensures ReadNat(t) == r
    ensures t == "00" <==> r == 0
    ensures |t| == 1 <==> 1 <= r <= 9
  {
    if r == 0 then "00" else NatToString(r)
  }

  /**
   The label of a number of seconds: whole minutes (floor division by 60),
   a colon, then the remainder text. The minutes text ends at the label's
   first colon; after it come one or two digits that read as the remainder,
   "00" exactly when the remainder is zero and a single unpadded digit
   exactly when it is 1 to 9.
   */
  function SecondsToMinutes(seconds: nat): (text: string)
    ensures var k := |NatToString(seconds / 60)|;
      && 1 <= k < |text|
      && ColonIndex(text) == Some(k)
      && text[..k] == NatToString(seconds / 60)
      && AllDigits(text[..k]) && ReadNat(text[..k]) == seconds / 60
      && text[k + 1..] == RemainderText(seconds % 60)
      && AllDigits(text[k + 1..]) && ReadNat(text[k + 1..]) == seconds % 60
      && 1 <= |text| - (k + 1) <= 2
      && (text[k + 1..] == "00" <==> seconds % 60 == 0)
      && (|text| == k + 2 <==> 1 <= seconds % 60 <= 9)
  {
    var m := NatToString(seconds / 60);
    var t := RemainderText(seconds % 60);
    var text := m + ":" + t;
    ColonAfterDigits(m, t);
    assert text[..|m|] == m;
    assert text[|m| + 1..] == t;
    text
  }

  /** True when `s` holds no colon. */
  predicate NoColon(s: string) {
    forall j :: 0 <= j < |s| ==> s[j] != ':'
  }

  /** The index of the first colon in `s`, if any. */
  function ColonIndex(s: string): (k: Option<nat>)
    ensures k.Some? ==> k.value < |s| && s[k.value] == ':' && NoColon(s[..k.value])
    ensures k.None? <==> NoColon(s)
  {
    if |s| == 0 then None
    else if s[0] == ':' then Some(0)
    else match ColonIndex(s[1..])
      case None => None
      case Some(k) =>
        assert s[..k + 1] == [s[0]] + s[1..][..k];
        Some(k + 1)
  }

  /**
   Reads an "M:R" label back into seconds as M*60 + R: M is one or more
   digits, R is one or two digits below 60 ("00" reads as 0). Any other text
   is rejected. An accepted label has a colon, the digits before the first
   colon read as the whole minutes of the result and those after it as the
   remaining seconds.
   */
  function ReadLabel(text: string): (r: Option<nat>)
    ensures NoColon(text) ==> r.None?
    ensures r.Some? ==> ColonIndex(text).Some?
    ensures r.Some? ==> var k := ColonIndex(text).value;
      && AllDigits(text[..k]) && AllDigits(text[k + 1..])
      && ReadNat(text[..k]) == r.value / 60
      && ReadNat(text[k + 1..]) == r.value % 60
  {
    match ColonIndex(text)
    case None => None
    case Some(k) =>
      var m := text[..k];
      var r := text[k + 1..];
      if |m| >= 1 && AllDigits(m) && 1 <= |r| <= 2 && AllDigits(r) && ReadNat(r) < 60
      then Some(ReadNat(m) * 60 + ReadNat(r))
      else None
  }

  /** The first colon of `digits + ":" + rest` is the one after the digits. */
  lemma {:induction false} ColonAfterDigits(digits: string, rest: string)
    requires AllDigits(digits)
    ensures ColonIndex(digits + ":" + rest) == Some(|digits|)
  {
    if |digits| > 0 {
      var s := digits + ":" + rest;
      assert s[1..] == digits[1..] + ":" + rest;
      ColonAfterDigits(digits[1..], rest);
    }
  }

  /** Reading a text back recovers the number of seconds it was made from. */
  lemma LabelRoundTrip(seconds: nat)
    ensures ReadLabel(SecondsToMinutes(seconds)) == Some(seconds)
  {
    var text := SecondsToMinutes(seconds);
    var k := |NatToString(seconds / 60)|;
    assert ReadNat(text[..k]) * 60 + ReadNat(text[k + 1..]) == seconds;
  }

  /** No two second counts share a text. */
  lemma LabelInjective(a: nat, b: nat)
    requires SecondsToMinutes(a) == SecondsToMinutes(b)
    ensures a == b
  {
    LabelRoundTrip(a);
    LabelRoundTrip(b);
  }

  /** Worked example: under a minute. */
  lemma ExampleUnderAMinute()
    ensures SecondsToMinutes(36) == "0:36"
  {
    assert NatToString(3) == "3";
    assert NatToString(36) == "36";
  }

  /** Worked examples: a zero remainder prints as "00". */
  lemma ExampleZeroRemainder()
    ensures SecondsToMinutes(60) == "1:00"
    ensures SecondsToMinutes(0) == "0:00"
  {
  }

  /** Worked example: a one-digit remainder prints unpadded. */
  lemma ExampleUnpaddedRemainder()
    ensures SecondsToMinutes(65) == "1:5"
  {
  }
}
