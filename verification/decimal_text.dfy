/**
 * Decimal text forms used by the codecs: zero-padded fields (`%02d`, `%04d`, `%06d`),
 * `str(int)` / `int(str)`, and the text of a money amount.
 *
 * Amounts are exact decimals held to two places, so they are modelled as integers
 * counting hundredths; their text is the one `str(Decimal)` gives such a value.
 */
module DecimalText {
  import opened Results
  import opened Seqs

  predicate IsDigit(c: char) { '0' <= c <= '9' }

  predicate AllDigits(s: string) { forall i :: 0 <= i < |s| ==> IsDigit(s[i]) }

  function DigitChar(d: nat): (c: char)
    requires d < 10
    ensures IsDigit(c) && DigitValue(c) == d
  {
    ('0' as int + d) as char
  }

  function DigitValue(c: char): nat
    requires IsDigit(c)
  {
    c as int - '0' as int
  }

  /** The number a string of decimal digits denotes, most significant digit first. */
  function DigitsValue(s: string): nat
    requires AllDigits(s)
  {
    if s == [] then 0 else DigitsValue(s[..|s| - 1]) * 10 + DigitValue(s[|s| - 1])
  }

  /** A two-digit field read back. */
  lemma TwoDigits(s: string)
    requires |s| == 2 && AllDigits(s)
    ensures DigitsValue(s) == 10 * DigitValue(s[0]) + DigitValue(s[1])
  {
    var first := s[..1];
    assert first[..0] == [] && first[0] == s[0];
    assert DigitsValue(first) == DigitValue(s[0]);
  }

  function Pow10(k: nat): (r: nat)
    ensures r >= 1
  {
    if k == 0 then 1 else 10 * Pow10(k - 1)
  }

  /** `n` printed as exactly `width` digits, zero-padded on the left. */
  function Padded(n: nat, width: nat): (r: string)
    ensures |r| == width && AllDigits(r)
  {
    if width == 0 then [] else Padded(n / 10, width - 1) + [DigitChar(n % 10)]
  }

  /** Reading back a padded field gives the number, provided it fits the width. */
  lemma {:induction false} PaddedValue(n: nat, width: nat)
    requires n < Pow10(width)
    ensures DigitsValue(Padded(n, width)) == n
  {
    if width > 0 {
      var r := Padded(n, width);
      var q := n / 10;
      assert n == 10 * q + n % 10;
      assert q < Pow10(width - 1) by {
        assert 10 * q <= n < 10 * Pow10(width - 1);
      }
      assert r[..|r| - 1] == Padded(q, width - 1);
      assert r[|r| - 1] == DigitChar(n % 10);
      PaddedValue(q, width - 1);
    }
  }

  /** `str(n)` for a natural number: shortest decimal form. */
  function NatText(n: nat): (r: string)
    ensures |r| > 0 && AllDigits(r)
    ensures DigitsValue(r) == n
    ensures |r| > 1 ==> r[0] != '0'
  {
    if n < 10 then [DigitChar(n)]
    else
      var r := NatText(n / 10) + [DigitChar(n % 10)];
      assert r[..|r| - 1] == NatText(n / 10);
      r
  }

  /** `str(i)` for a Python int. */
  function IntText(i: int): (r: string)
    ensures |r| > 0 && (r[0] == '-' <==> i < 0)
  {
    if i < 0 then "-" + NatText(-i) else NatText(i)
  }

  /** `int(s)`, restricted to an optional sign followed by at least one digit. */
  function ParseInt(s: string): (r: Option<int>)
    ensures r.Some? <==> (|s| > 0 && AllDigits(s)) || (|s| > 1 && (s[0] == '-' || s[0] == '+') && AllDigits(s[1..]))
    ensures r.Some? && AllDigits(s) ==> r.value == DigitsValue(s)
    ensures r.Some? && s[0] == '-' ==> r.value == -(DigitsValue(s[1..]) as int)
  {
    if |s| > 0 && (s[0] == '-' || s[0] == '+') then
      if |s| > 1 && AllDigits(s[1..]) then
        var v: int := if s[0] == '-' then -(DigitsValue(s[1..]) as int) else DigitsValue(s[1..]);
        Some(v)
      else None
    else if |s| > 0 && AllDigits(s) then Some(DigitsValue(s))
    else None
  }

  /** `int(str(i)) == i`. */
  lemma IntTextRoundTrip(i: int)
    ensures ParseInt(IntText(i)) == Some(i)
  {
    if i < 0 {
      assert IntText(i)[1..] == NatText(-i);
    }
  }

  /** `int(Decimal)` truncates toward zero (Dafny's `/` rounds down). */
  function TruncateCents(c: int): (r: int)
    ensures -100 < c - 100 * r < 100
    ensures (c >= 0 ==> r >= 0 && c - 100 * r >= 0) && (c < 0 ==> r <= 0 && c - 100 * r <= 0)
  {
    if c >= 0 then c / 100 else -((-c) / 100)
  }

  /** `str(Decimal)` of an amount held to two places, e.g. "-12.05". */
  function MoneyText(c: int): (r: string)
    ensures |r| >= 4 && r[|r| - 3] == '.'
    ensures r[0] == '-' <==> c < 0
  {
    var a := if c < 0 then -c else c;
    var body := NatText(a / 100) + "." + Padded(a % 100, 2);
    if c < 0 then "-" + body else body
  }

  /** Hundredths denoted by a fraction part of at most two digits. */
  function FractionCents(f: string): nat
    requires AllDigits(f) && |f| <= 2
  {
    if |f| == 0 then 0 else if |f| == 1 then DigitValue(f[0]) * 10 else DigitsValue(f)
  }

  /**
   * `Decimal(s)` for text of the form [+|-]digits[.digits] with at least one digit and
   * at most two fraction digits; any other text is refused.
   */
  function ParseMoney(s: string): (r: Option<int>)
    ensures r.Some? ==> |s| > 0
    ensures r.Some? && s[0] == '-' ==> r.value <= 0
    ensures r.Some? && s[0] != '-' ==> r.value >= 0
  {
    if |s| > 0 && (s[0] == '-' || s[0] == '+') then
      match ParseUnsigned(s[1..])
      case Some(m) => var v: int := if s[0] == '-' then -(m as int) else m; Some(v)
      case None => None
    else
      match ParseUnsigned(s)
      case Some(m) => var v: int := m; Some(v)
      case None => None
  }

  /** Hundredths denoted by unsigned text digits[.digits]. */
  function ParseUnsigned(body: string): Option<nat>
  {
    var p := FirstIndex(body, '.');
    var whole := body[..p];
    var frac := if p < |body| then body[p + 1..] else "";
    if AllDigits(whole) && AllDigits(frac) && |whole| + |frac| > 0 && |frac| <= 2 then
      Some(DigitsValue(whole) * 100 + FractionCents(frac))
    else None
  }

  /** Text `whole.frac` splits at its only point. */
  lemma {:induction false} SplitAtPoint(whole: string, frac: string)
    requires AllDigits(whole) && AllDigits(frac) && |whole| > 0 && |frac| == 2
    ensures ParseUnsigned(whole + "." + frac) == Some(DigitsValue(whole) * 100 + DigitsValue(frac))
  {
    var body := whole + "." + frac;
    assert FirstIndex(body, '.') == |whole| by {
      assert body[|whole|] == '.';
      forall j | 0 <= j < |whole| ensures body[j] != '.' { assert body[j] == whole[j]; }
      FirstIndexIsFirst(body, '.', |whole|);
    }
    assert body[..|whole|] == whole;
    assert body[|whole| + 1..] == frac;
  }

  /** Whole units, a point and two padded fraction digits read back as hundredths. */
  lemma UnitsAndCents(q: nat, m: nat)
    requires m < 100
    ensures ParseUnsigned(NatText(q) + "." + Padded(m, 2)) == Some(100 * q + m)
  {
    CentsText(m);
    SplitAtPoint(NatText(q), Padded(m, 2));
  }

  lemma CentsText(m: nat)
    requires m < 100
    ensures DigitsValue(Padded(m, 2)) == m
  {
    assert Pow10(2) == 100;
    PaddedValue(m, 2);
  }

  /** The unsigned text of an amount reads back as its magnitude. */
  lemma MagnitudeRoundTrip(a: nat)
    ensures ParseUnsigned(NatText(a / 100) + "." + Padded(a % 100, 2)) == Some(a)
  {
    var q, m := a / 100, a % 100;
    assert 100 * q + m == a;
    UnitsAndCents(q, m);
  }

  /** A sign in front of unsigned amount text negates it; no sign keeps it. */
  lemma SignedText(body: string, a: nat)
    requires |body| > 0 && IsDigit(body[0]) && ParseUnsigned(body) == Some(a)
    ensures ParseMoney(body) == Some(a)
    ensures ParseMoney("-" + body) == Some(-(a as int))
  {
    assert ("-" + body)[1..] == body;
  }

  /** `Decimal(str(d)) == d` for every amount. */
  lemma MoneyTextRoundTrip(c: int)
    ensures ParseMoney(MoneyText(c)) == Some(c)
  {
    var a := if c < 0 then -c else c;
    var whole := NatText(a / 100);
    var body := whole + "." + Padded(a % 100, 2);
    MagnitudeRoundTrip(a);
    assert body[0] == whole[0] && IsDigit(whole[0]);
    SignedText(body, a);
  }

  /** Text that starts with neither a sign, a digit nor a point is not a number. */
  lemma NotANumber(s: string)
    requires |s| > 0 && !IsDigit(s[0]) && s[0] !in "+-."
    ensures ParseMoney(s) == None
  {
    var p := FirstIndex(s, '.');
    assert p > 0;
    assert s[..p][0] == s[0];
  }

  /** `Decimal(str(i))` for a Python int is that many whole units. */
  lemma IntTextAsMoney(i: int)
    ensures ParseMoney(IntText(i)) == Some(100 * i)
  {
    var a := if i < 0 then -i else i;
    var body := NatText(a);
    var s := IntText(i);
    if i < 0 {
      assert s[1..] == body;
    } else {
      assert s == body;
    }
    assert FirstIndex(body, '.') == |body| by {
      forall j | 0 <= j < |body| ensures body[j] != '.' { }
    }
    assert body[..|body|] == body;
  }
}
