/**
 * The text stored in the lock marker: the holder writes its process id in
 * decimal, and a contender reads it back with Python's `int()` on the whole
 * file content: surrounding whitespace, an optional sign, whitespace again
 * after the sign, then decimal digits; anything else is a ValueError.
 */
module PidText {
  import opened Wrappers

  /** The C-locale `isspace` characters that Python 2's `int()` skips. */
  predicate IsSpace(c: char) {
    c == ' ' || c == '\t' || c == '\n' || c == '\r' || c as int == 11 || c as int == 12
  }

  predicate IsDigit(c: char) {
    '0' <= c <= '9'
  }

  predicate AllDigits(s: string) {
    forall i :: 0 <= i < |s| ==> IsDigit(s[i])
  }

  function TrimLeft(s: string): (r: string)
    ensures r == [] || !IsSpace(r[0])
  {
    if s != [] && IsSpace(s[0]) then TrimLeft(s[1..]) else s
  }

  function TrimRight(s: string): (r: string)
    ensures r == [] || !IsSpace(r[|r| - 1])
  {
    if s != [] && IsSpace(s[|s| - 1]) then TrimRight(s[..|s| - 1]) else s
  }

  function Trim(s: string): string {
    TrimRight(TrimLeft(s))
  }

  function DigitValue(c: char): nat
    requires IsDigit(c)
  {
    c as int - '0' as int
  }

  function DigitChar(d: nat): (c: char)
    requires d < 10
    ensures IsDigit(c) && DigitValue(c) == d
  {
    ('0' as int + d) as char
  }

  /** The value of a string of decimal digits, most significant first. */
  function DigitsValue(s: string): nat
    requires AllDigits(s)
  {
    if s == [] then 0 else 10 * DigitsValue(s[..|s| - 1]) + DigitValue(s[|s| - 1])
  }

  /** Python's `int(text)` in base 10: `None` stands for the ValueError. */
  function ParseInt(text: string): Option<int> {
    ParseTrimmed(Trim(text))
  }

  /** The stripped text: a sign may be followed by whitespace before the digits. */
  function ParseTrimmed(t: string): Option<int> {
    if t == [] then None
    else if t[0] == '-' || t[0] == '+' then
      var digits := TrimLeft(t[1..]);
      if digits != [] && AllDigits(digits) then
        var magnitude: int := DigitsValue(digits);
        Some(if t[0] == '-' then -magnitude else magnitude)
      else None
    else if AllDigits(t) then Some(DigitsValue(t))
    else None
  }

  /** `"{0}".format(n)` for a non-negative integer: its decimal digits. */
  function FormatNat(n: nat): (s: string)
    ensures s != [] && AllDigits(s)
  {
    if n < 10 then [DigitChar(n)] else FormatNat(n / 10) + [DigitChar(n % 10)]
  }

  lemma {:induction false} FormatNatValue(n: nat)
    ensures DigitsValue(FormatNat(n)) == n
  {
    if n >= 10 {
      var s := FormatNat(n);
      assert s[..|s| - 1] == FormatNat(n / 10);
      FormatNatValue(n / 10);
    }
  }

  /** What the lock holder writes, a contender reads back unchanged. */
  lemma ParseFormatNat(n: nat)
    ensures ParseInt(FormatNat(n)) == Some(n)
  {
    var s := FormatNat(n);
    assert TrimLeft(s) == s;
    assert TrimRight(s) == s;
    FormatNatValue(n);
  }

  /** Whitespace around the number, such as a trailing newline, is ignored. */
  lemma {:induction false} ParseIntIgnoresPadding(text: string, c: char)
    requires IsSpace(c)
    ensures ParseInt([c] + text) == ParseInt(text)
    ensures ParseInt(text + [c]) == ParseInt(text)
  {
    TrimPadLeft(text, c);
    TrimPadRight(text, c);
  }

  lemma {:induction false} TrimPadLeft(text: string, c: char)
    requires IsSpace(c)
    ensures Trim([c] + text) == Trim(text)
  {
    var p := [c] + text;
    assert p[1..] == text;
    assert TrimLeft(p) == TrimLeft(p[1..]);
  }

  lemma {:induction false} TrimPadRight(text: string, c: char)
    requires IsSpace(c)
    ensures Trim(text + [c]) == Trim(text)
  {
    TrimLeftPadRight(text, c);
    var l := TrimLeft(text);
    if TrimLeft(text + [c]) == l + [c] {
      var p := l + [c];
      assert p[..|p| - 1] == l;
      assert TrimRight(p) == TrimRight(p[..|p| - 1]);
    }
  }

  lemma {:induction false} TrimLeftPadRight(text: string, c: char)
    requires IsSpace(c)
    ensures TrimLeft(text + [c]) == TrimLeft(text) + [c] || (TrimLeft(text) == [] && TrimLeft(text + [c]) == [])
  {
    if text == [] {
      assert TrimLeft([c]) == TrimLeft([c][1..]);
    } else if IsSpace(text[0]) {
      assert (text + [c])[1..] == text[1..] + [c];
      TrimLeftPadRight(text[1..], c);
    } else {
      assert (text + [c])[0] == text[0];
    }
  }

  predicate AllSpace(s: string) {
    forall i :: 0 <= i < |s| ==> IsSpace(s[i])
  }

  /** Stripping leading whitespace from whitespace followed by a non-space yields the rest. */
  lemma {:induction false} TrimLeftSpaces(ws: string, rest: string)
    requires AllSpace(ws) && rest != [] && !IsSpace(rest[0])
    ensures TrimLeft(ws + rest) == rest
    decreases |ws|
  {
    if ws == [] {
      assert ws + rest == rest;
    } else {
      assert (ws + rest)[0] == ws[0];
      assert (ws + rest)[1..] == ws[1..] + rest;
      TrimLeftSpaces(ws[1..], rest);
    }
  }

  /**
   * A sign, any run of whitespace, then digits (`int("- 5")`, `int("+\t5")`)
   * is the signed number.
   */
  lemma SpaceAfterSign(sign: char, ws: string, digits: string)
    requires (sign == '-' || sign == '+') && AllSpace(ws) && digits != [] && AllDigits(digits)
    ensures ParseInt([sign] + ws + digits)
         == Some(if sign == '-' then -(DigitsValue(digits) as int) else DigitsValue(digits))
  {
    var text := [sign] + ws + digits;
    assert TrimLeft(text) == text;
    assert !IsSpace(text[|text| - 1]);
    assert TrimRight(text) == text;
    assert text[1..] == ws + digits;
    TrimLeftSpaces(ws, digits);
  }

  /** `int()` rejects the `L` suffix of a Python 2 long literal, as a ValueError. */
  lemma LongSuffixRejected(n: nat)
    ensures ParseInt(FormatNat(n) + ['L']) == None
  {
    var text := FormatNat(n) + ['L'];
    assert TrimLeft(text) == text;
    assert TrimRight(text) == text;
    assert !IsDigit(text[|text| - 1]);
  }
}
