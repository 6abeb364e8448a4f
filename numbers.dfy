/**
  * Python's `str(n)` and `int(s)` on base-10 integers: the conversions the
  * bots use for menu numbers, page numbers, user ids and `report_<n>`.
  */
module Numbers {
  import opened Strings

  predicate IsDigit(c: char)
  {
    '0' <= c <= '9'
  }

  predicate AllDigits(s: string)
  {
    forall k :: 0 <= k < |s| ==> IsDigit(s[k])
  }

  function DigitChar(d: nat): (c: char)
    requires d < 10
    ensures IsDigit(c)
  {
    ('0' as int + d) as char
  }

  function DigitValue(c: char): nat
    requires IsDigit(c)
  {
    c as int - '0' as int
  }

  /** Python's `str(n)` for `n >= 0`: decimal digits, no leading zero. */
  function ShowNat(n: nat): (r: string)
    ensures |r| >= 1 && AllDigits(r)
    ensures r[0] == '0' ==> n == 0
  {
    if n < 10 then [DigitChar(n)] else ShowNat(n / 10) + [DigitChar(n % 10)]
  }

  /** Python's `str(i)`. */
  function ShowInt(i: int): string
  {
    if i < 0 then "-" + ShowNat(-i) else ShowNat(i)
  }

  /** The value of a string of decimal digits. */
  function DigitsValue(d: string): nat
    requires AllDigits(d)
  {
    if d == [] then 0 else DigitsValue(d[..|d| - 1]) * 10 + DigitValue(d[|d| - 1])
  }

  /** Reading back the digits of `str(n)` gives `n`. */
  lemma {:induction false} DigitsValueShowNat(n: nat)
    ensures DigitsValue(ShowNat(n)) == n
  {
    if n >= 10 {
      DigitsValueShowNat(n / 10);
      var d := ShowNat(n);
      assert d[..|d| - 1] == ShowNat(n / 10);
    }
  }

  /** `str` is injective on naturals. */
  lemma {:induction false} ShowNatInjective(m: nat, n: nat)
    requires ShowNat(m) == ShowNat(n)
    ensures m == n
  {
    DigitsValueShowNat(m);
    DigitsValueShowNat(n);
  }

  /** `str` is injective on integers. */
  lemma {:induction false} ShowIntInjective(m: int, n: int)
    requires ShowInt(m) == ShowInt(n)
    ensures m == n
  {
    if m < 0 && n < 0 {
      assert ShowNat(-m) == ShowInt(m)[1..] == ShowInt(n)[1..] == ShowNat(-n);
      ShowNatInjective(-m, -n);
    } else if m >= 0 && n >= 0 {
      ShowNatInjective(m, n);
    }
  }

  /**
    * The body of a base-10 integer literal as `int()` accepts it: digits,
    * with single underscores allowed between two digits.
    */
  predicate ValidDigits(d: string)
  {
    |d| > 0 && IsDigit(d[0]) && IsDigit(d[|d| - 1])
    && (forall k :: 0 <= k < |d| ==> IsDigit(d[k]) || d[k] == '_')
    && !Contains(d, "__")
  }

  /** The digits of a literal body, underscores removed. */
  function DropUnderscores(d: string): (r: string)
    requires forall k :: 0 <= k < |d| ==> IsDigit(d[k]) || d[k] == '_'
    ensures AllDigits(r)
    ensures AllDigits(d) ==> r == d
  {
    if d == [] then []
    else (if d[0] == '_' then [] else [d[0]]) + DropUnderscores(d[1..])
  }

  /**
    * Python's `int(s)` on a string: optional surrounding whitespace, an
    * optional sign, then a literal body; `None` where Python raises
    * `ValueError`.
    */
  function ParseInt(s: string): (r: Option<int>)
  {
    ParseLiteral(Strip(s))
  }

  /** An optional sign followed by a literal body. */
  function ParseLiteral(t: string): Option<int>
  {
    if |t| > 0 && (t[0] == '+' || t[0] == '-') then
      if ValidDigits(t[1..]) then
        var v: int := DigitsValue(DropUnderscores(t[1..]));
        Some(if t[0] == '-' then -v else v)
      else None
    else if ValidDigits(t) then Some(DigitsValue(DropUnderscores(t)))
    else None
  }

  /**
    * `int()` accepts only whitespace, signs, underscores and digits: any
    * other character makes it raise.
    */
  lemma {:induction false} ParseIntAlphabet(s: string, k: nat)
    requires k < |s| && ParseInt(s).Some?
    ensures IsDigit(s[k]) || IsSpace(s[k]) || s[k] == '+' || s[k] == '-' || s[k] == '_'
  {
    var t := Strip(s);
    StripSpec(s);
    var i := StripFrom(s);
    if i <= k < StripTo(s) {
      assert s[k] == t[k - i];
      if |t| > 0 && (t[0] == '+' || t[0] == '-') && k > i {
        assert t[k - i] == t[1..][k - i - 1];
      }
    }
  }

  /** A digit string is a valid literal body without underscores. */
  lemma {:induction false} DigitsAreValid(d: string)
    requires |d| > 0 && AllDigits(d)
    ensures ValidDigits(d) && DropUnderscores(d) == d
  {
    forall i | OccursAt(d, "__", i)
      ensures false
    {
      OccursAtChar(d, "__", i, 0);
    }
  }

  lemma {:induction false} DigitNotSpace(c: char)
    requires IsDigit(c)
    ensures !IsSpace(c)
  {
  }

  /** `int()` reads a digit string as its value. */
  lemma {:induction false} ParseDigitString(d: string)
    requires |d| > 0 && AllDigits(d)
    ensures ParseInt(d) == Some(DigitsValue(d))
  {
    DigitNotSpace(d[0]);
    DigitNotSpace(d[|d| - 1]);
    StripTrimmed(d);
    DigitsAreValid(d);
  }

  /** A minus sign and a literal body read as the negated value. */
  lemma {:induction false} ParseLiteralNegative(s: string, d: string)
    requires |s| > 0 && s[0] == '-' && s[1..] == d && ValidDigits(d) && DropUnderscores(d) == d
    ensures ParseLiteral(s) == Some(-(DigitsValue(d) as int))
  {
  }

  /** `int()` reads a minus sign and a digit string as the negated value. */
  lemma {:induction false} ParseNegativeDigitString(d: string)
    requires |d| > 0 && AllDigits(d)
    ensures ParseInt("-" + d) == Some(-(DigitsValue(d) as int))
  {
    var s := "-" + d;
    DigitNotSpace(d[|d| - 1]);
    assert s[|s| - 1] == d[|d| - 1];
    StripTrimmed(s);
    assert s[1..] == d;
    DigitsAreValid(d);
    ParseLiteralNegative(s, d);
  }

  /** `int(str(n)) == n`. */
  lemma {:induction false} ParseShowInt(n: int)
    ensures ParseInt(ShowInt(n)) == Some(n)
  {
    if n < 0 {
      var d := ShowNat(-n);
      DigitsValueShowNat(-n);
      ParseNegativeDigitString(d);
      assert ShowInt(n) == "-" + d;
    } else {
      var d := ShowNat(n);
      DigitsValueShowNat(n);
      ParseDigitString(d);
      assert ShowInt(n) == d;
    }
  }
}
