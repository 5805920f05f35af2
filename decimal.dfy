/** An optional value, for parses that can fail. */
module Wrappers {
  datatype Option<+T> = None | Some(value: T)
}

/**
 Python's `int(s)` on decimal text, as the amount step applies it to an
 already stripped reply: an optional `+` or `-` sign followed by one or more
 ASCII digits, leading zeros allowed (`int("0500")` is 500). Everything else
 is a failure (Python's `ValueError`).

 Python also accepts single underscores between digits (`"1_000"`) and
 decimal digits of other scripts (`"٥٠٠"`); this model rejects both.
 */
module Decimal {
  import opened Wrappers

  predicate IsDigit(c: char) {
    '0' <= c <= '9'
  }

  /** A non-empty run of ASCII digits. */
  predicate IsDigits(d: string) {
    |d| > 0 && forall i :: 0 <= i < |d| ==> IsDigit(d[i])
  }

  /** The shape `int()` accepts here: an optional sign, then digits. */
  predicate IsIntLiteral(s: string) {
    IsDigits(s) || (|s| > 0 && (s[0] == '+' || s[0] == '-') && IsDigits(s[1..]))
  }

  function DigitValue(c: char): nat
    requires IsDigit(c)
  {
    c as int - '0' as int
  }

  /** The value of a run of digits, most significant first. */
  function DigitsValue(d: string): nat
    requires forall i :: 0 <= i < |d| ==> IsDigit(d[i])
  {
    if |d| == 0 then 0
    else 10 * DigitsValue(d[..|d| - 1]) + DigitValue(d[|d| - 1])
  }

  /** `int(s)` for decimal text: `Some` exactly on the accepted shape. */
  function ParseInt(s: string): (r: Option<int>)
    ensures r.Some? <==> IsIntLiteral(s)
  {
    if IsDigits(s) then Some(DigitsValue(s))
    else if |s| > 0 && s[0] == '+' && IsDigits(s[1..]) then Some(DigitsValue(s[1..]))
    else if |s| > 0 && s[0] == '-' && IsDigits(s[1..]) then Some(-(DigitsValue(s[1..]) as int))
    else None
  }

  function DigitChar(k: nat): (c: char)
    requires k < 10
    ensures IsDigit(c) && DigitValue(c) == k
  {
    ('0' as int + k) as char
  }

  /** The canonical decimal numeral of a natural number (Python's `str(n)`). */
  function ShowNat(n: nat): (r: string)
    ensures IsDigits(r)
    ensures r[0] == '0' ==> n == 0
  {
    if n < 10 then [DigitChar(n)] else ShowNat(n / 10) + [DigitChar(n % 10)]
  }

  /** The canonical decimal numeral of an integer, with `-` for negatives. */
  function Show(n: int): (r: string)
    ensures IsIntLiteral(r)
  {
    if n < 0 then "-" + ShowNat(-n) else ShowNat(n)
  }

  /** A numeral spells out the natural number it was made from. */
  lemma {:induction false} DigitsValueShowNat(n: nat)
    ensures DigitsValue(ShowNat(n)) == n
  {
    if n >= 10 {
      var d := ShowNat(n);
      assert d[..|d| - 1] == ShowNat(n / 10);
      DigitsValueShowNat(n / 10);
    }
  }

  /** `int(str(n)) == n`. */
  lemma ParseShow(n: int)
    ensures ParseInt(Show(n)) == Some(n)
  {
    if n < 0 {
      DigitsValueShowNat(-n);
      assert Show(n)[1..] == ShowNat(-n);
    } else {
      DigitsValueShowNat(n);
    }
  }

  /** Leading zeros do not change the value of a run of digits. */
  lemma {:induction false} DigitsValueLeadingZero(d: string)
    requires forall i :: 0 <= i < |d| ==> IsDigit(d[i])
    ensures DigitsValue("0" + d) == DigitsValue(d)
  {
    if |d| > 0 {
      var z := "0" + d;
      assert z[..|z| - 1] == "0" + d[..|d| - 1];
      DigitsValueLeadingZero(d[..|d| - 1]);
    } else {
      assert "0" + d == "0";
    }
  }

  /** `int("0" + d) == int(d)`: a leading zero is accepted and ignored. */
  lemma ParseLeadingZero(d: string)
    requires IsDigits(d)
    ensures ParseInt("0" + d) == ParseInt(d)
  {
    DigitsValueLeadingZero(d);
  }

  /** A `-` sign negates and a `+` sign is ignored. */
  lemma ParseSigned(d: string)
    requires IsDigits(d)
    ensures ParseInt("-" + d) == Some(-ParseInt(d).value)
    ensures ParseInt("+" + d) == ParseInt(d)
  {
    assert ("-" + d)[1..] == d;
    assert ("+" + d)[1..] == d;
  }
}
