/**
 * Python's int(s) for a string s in base 10, as main.py:208 applies it to the openai_timeout setting,
 * and str(n), its inverse on integers.
 */
module PyInt {
  import opened Wrappers
  import opened PyStr

  predicate IsDigit(c: char)
  {
    '0' <= c <= '9'
  }

  /** Digits with single underscores allowed between two digits, as in "1_000". */
  predicate IsDigitRun(d: string)
  {
    && |d| > 0 && IsDigit(d[0]) && IsDigit(d[|d| - 1])
    && (forall k :: 0 <= k < |d| ==> IsDigit(d[k]) || d[k] == '_')
    && (forall k :: 0 <= k < |d| - 1 ==> IsDigit(d[k]) || IsDigit(d[k + 1]))
  }

  /** The number a digit run denotes; underscores carry no value. */
  function DigitsValue(d: string): nat
  {
    if d == [] then 0
    else
      var last := d[|d| - 1];
      if IsDigit(last) then 10 * DigitsValue(d[..|d| - 1]) + (last as int - '0' as int)
      else DigitsValue(d[..|d| - 1])
  }

  /**
   * int(s): surrounding whitespace is ignored, then an optional sign and a digit run; anything else
   * raises ValueError, here None. The whitespace skipped is str.strip()'s set; CPython's int() does
   * not skip the ASCII separators U+001C-U+001F, which never reach it here because configparser
   * strips every setting value with str.strip() first.
   */
  function ParseInt(s: string): Option<int>
  {
    var t := Strip(s);
    if |t| > 0 && (t[0] == '+' || t[0] == '-') then
      if IsDigitRun(t[1..]) then
        var v: int := DigitsValue(t[1..]);
        Some(if t[0] == '-' then -v else v)
      else
        None
    else if IsDigitRun(t) then
      Some(DigitsValue(t))
    else
      None
  }

  /** The decimal digits of n, most significant first, without leading zeros. */
  function NatDigits(n: nat): (d: string)
    ensures IsDigitRun(d) && forall k :: 0 <= k < |d| ==> IsDigit(d[k])
  {
    var last := ('0' as int + n % 10) as char;
    if n < 10 then [last] else NatDigits(n / 10) + [last]
  }

  /** str(n). */
  function IntToString(n: int): string
  {
    if n < 0 then "-" + NatDigits(-n) else NatDigits(n)
  }

  lemma {:induction false} NatDigitsValue(n: nat)
    ensures DigitsValue(NatDigits(n)) == n
  {
    var d := NatDigits(n);
    if n >= 10 {
      NatDigitsValue(n / 10);
      assert d[..|d| - 1] == NatDigits(n / 10);
    }
  }

  /** A timeout written out in decimal is read back by int() as exactly that number. */
  lemma ParseIntRoundTrip(n: int)
    ensures ParseInt(IntToString(n)) == Some(n)
  {
    var s := IntToString(n);
    var m: nat := if n < 0 then -n else n;
    var d := NatDigits(m);
    assert !IsSpace(d[|d| - 1]);
    assert s == (if n < 0 then "-" + d else d);
    assert s[|s| - 1] == d[|d| - 1];
    assert !IsSpace(s[0]);
    StripKeepsEdgeless(s);
    NatDigitsValue(m);
    if n < 0 {
      assert s[1..] == d;
    } else {
      assert !(s[0] == '+' || s[0] == '-');
    }
  }
}
