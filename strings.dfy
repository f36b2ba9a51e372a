/**
 * The few string operations the conversation engine relies on:
 * `str.lower()` for command tokens, `str.endswith("?")` for digressions,
 * and `str(int)` for the HTTP status embedded in delivery errors.
 */
module Strings {
  import opened Wrappers


  /** Lower-cases one ASCII letter and leaves every other character alone. */
  function LowerChar(c: char): (d: char)
    ensures 'A' <= c <= 'Z' ==> 'a' <= d <= 'z' && d as int - c as int == 32
    ensures !('A' <= c <= 'Z') ==> d == c
  {
    if 'A' <= c <= 'Z' then (c as int + 32) as char else c
  }

  /**
   * `s.lower()`, restricted to ASCII letters. The engine only compares the
   * lowered text with the all-ASCII tokens "solved" and "start report".
   */
  function Lower(s: string): (r: string)
    ensures |r| == |s|
    ensures forall i :: 0 <= i < |s| ==> r[i] == LowerChar(s[i])
  {
    seq(|s|, i requires 0 <= i < |s| => LowerChar(s[i]))
  }

  /** `s.endswith(suffix)`. */
  predicate EndsWith(s: string, suffix: string) {
    |suffix| <= |s| && s[|s| - |suffix|..] == suffix
  }

  /** `s.endswith("?")`: the message is a question. */
  predicate Asks(s: string) {
    |s| > 0 && s[|s| - 1] == '?'
  }

  lemma AsksIsEndsWith(s: string)
    ensures Asks(s) <==> EndsWith(s, "?")
  {
    if |s| > 0 {
      assert s[|s| - 1..] == [s[|s| - 1]];
    }
  }

  /** `s.lower() == token`, compared character by character. */
  predicate LowerIs(s: string, token: string)
    decreases |s|
  {
    if |s| == 0 || |token| == 0 then |s| == 0 && |token| == 0
    else LowerChar(s[0]) == token[0] && LowerIs(s[1..], token[1..])
  }

  lemma {:induction false} LowerIsLower(s: string, token: string)
    ensures LowerIs(s, token) <==> Lower(s) == token
    decreases |s|
  {
    if |s| > 0 && |token| > 0 {
      LowerIsLower(s[1..], token[1..]);
      if Lower(s) == token {
        assert Lower(s[1..]) == token[1..];
      }
      if LowerIs(s, token) {
        assert Lower(s) == [LowerChar(s[0])] + Lower(s[1..]);
      }
    }
  }

  /**
   * A message whose lowered form is a token not ending in '?' does not end
   * in '?' itself: command tokens are never digressions.
   */
  lemma TokenIsNotQuestion(msg: string, token: string)
    requires LowerIs(msg, token)
    requires token != [] && token[|token| - 1] != '?'
    ensures !Asks(msg)
  {
    LowerIsLower(msg, token);
  }

  function DigitChar(d: nat): (c: char)
    requires d < 10
    ensures '0' <= c <= '9' && c as int - '0' as int == d
  {
    ('0' as int + d) as char
  }

  /** `str(n)` for a natural number: its shortest decimal numeral. */
  function NatToString(n: nat): (r: string)
    ensures |r| >= 1
    ensures forall i :: 0 <= i < |r| ==> '0' <= r[i] <= '9'
    ensures r[0] == '0' ==> n == 0
  {
    if n < 10 then [DigitChar(n)] else NatToString(n / 10) + [DigitChar(n % 10)]
  }

  /** `str(n)` for any integer, with a leading '-' for negatives: it reads back as `n`. */
  function IntToString(n: int): (r: string)
    ensures ReadInt(r) == Some(n)
  {
    if n < 0 then
      NatToStringRoundTrip(-n);
      ReadMinus(NatToString(-n));
      "-" + NatToString(-n)
    else
      NatToStringRoundTrip(n);
      ReadDigits(NatToString(n));
      NatToString(n)
  }

  predicate Numeral(s: string) {
    forall i :: 0 <= i < |s| ==> '0' <= s[i] <= '9'
  }

  /** The value of a string of decimal digits. */
  function DecimalValue(s: string): nat
    requires Numeral(s)
  {
    if s == [] then 0
    else DecimalValue(s[..|s| - 1]) * 10 + (s[|s| - 1] as int - '0' as int)
  }

  /** The numeral of `n` reads back as `n`. */
  lemma {:induction false} NatToStringRoundTrip(n: nat)
    ensures DecimalValue(NatToString(n)) == n
  {
    if n >= 10 {
      NatToStringRoundTrip(n / 10);
      var r := NatToString(n);
      assert r[..|r| - 1] == NatToString(n / 10);
    }
  }

  /** Reads an optional '-' followed by decimal digits as an integer; `None` for any other text. */
  function ReadInt(s: string): Option<int> {
    if |s| > 1 && s[0] == '-' && Numeral(s[1..]) then
      var v: int := DecimalValue(s[1..]);
      Some(-v)
    else if |s| > 0 && Numeral(s) then Some(DecimalValue(s))
    else None
  }

  lemma ReadMinus(d: string)
    requires |d| > 0 && Numeral(d)
    ensures ReadInt("-" + d) == Some(-(DecimalValue(d) as int))
  {
    assert ("-" + d)[1..] == d;
  }

  lemma ReadDigits(d: string)
    requires |d| > 0 && Numeral(d)
    ensures ReadInt(d) == Some(DecimalValue(d))
  {
    assert d[0] != '-';
  }
}
