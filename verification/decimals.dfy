// Canonical text of finite decimals: execution/journal_codec.py and risk/models.py.
module Decimals {
  import opened Collections
  import opened Rounding

  type Digit = d: int | 0 <= d <= 9

  // A finite decimal as the program holds it.
  datatype Decimal = Decimal(negative: bool, digits: seq<Digit>, exponent: int)
  {
    // There are digits, without a leading zero but for zero itself.
    predicate Valid() {
      digits != [] && (|digits| > 1 ==> digits[0] != 0)
    }

    function Coefficient(): int { if negative then 0 - DigitsValue(digits) else DigitsValue(digits) }

    function Value(): real { Shift(Coefficient() as real, exponent) }
  }

  function DigitsValue(digits: seq<Digit>): nat {
    if digits == [] then 0 else 10 * DigitsValue(Front(digits)) + Last(digits)
  }

  const Zero := Decimal(false, [0], 0)

  // Trailing zeros move into the exponent; at least one digit stays.
  function Stripped(digits: seq<Digit>, exponent: int): (seq<Digit>, int) {
    if |digits| > 1 && Last(digits) == 0 then Stripped(Front(digits), exponent + 1) else (digits, exponent)
  }

  function Canonical(d: Decimal): Decimal {
    if forall x :: x in d.digits ==> x == 0 then Zero
    else
      var (digits, exponent) := Stripped(d.digits, d.exponent);
      Decimal(d.negative, digits, exponent)
  }

  // ----- printing -----

  function DigitChar(d: Digit): char {
    '0' + d as char
  }

  function DigitsText(digits: seq<Digit>): string {
    Map((d: Digit) => DigitChar(d), digits)
  }

  function NatDigits(n: nat): (digits: seq<Digit>)
    ensures digits != [] && DigitsValue(digits) == n
    ensures |digits| > 1 ==> digits[0] != 0
  {
    if n < 10 then [n]
    else
      var front := NatDigits(n / 10);
      assert Front(front + [n % 10]) == front;
      front + [n % 10]
  }

  function IntText(n: int): string {
    if n < 0 then "-" + DigitsText(NatDigits(0 - n)) else DigitsText(NatDigits(n))
  }

  function TextOf(d: Decimal): string {
    (if d.negative then "1" else "0") + ":" + DigitsText(d.digits) + ":" + IntText(d.exponent)
  }

  function DecimalText(d: Decimal): string
    requires d.Valid()
  {
    TextOf(Canonical(d))
  }

  // The loop that prints a decimal.
  method PrintDecimal(d: Decimal) returns (text: string)
    requires d.Valid()
    ensures text == DecimalText(d)
  {
    if forall x :: x in d.digits ==> x == 0 {
      return TextOf(Zero);
    }
    var digits, exponent := d.digits, d.exponent;
    while |digits| > 1 && Last(digits) == 0
      invariant digits != []
      invariant Stripped(digits, exponent) == Stripped(d.digits, d.exponent)
      decreases |digits|
    {
      digits, exponent := Front(digits), exponent + 1;
    }
    text := TextOf(Decimal(d.negative, digits, exponent));
  }

  // ----- what stripping keeps -----

  lemma {:induction false} StrippedDigits(digits: seq<Digit>, exponent: int)
    requires digits != []
    ensures var (s, e) := Stripped(digits, exponent);
            && s != [] && s[0] == digits[0]
            && (|s| > 1 ==> Last(s) != 0) && |s| <= |digits|
            && Shift(DigitsValue(s) as real, e) == Shift(DigitsValue(digits) as real, exponent)
            && (DigitsValue(s) == 0 <==> DigitsValue(digits) == 0)
  {
    if |digits| > 1 && Last(digits) == 0 {
      var front := Front(digits);
      assert digits == front + [0];
      StrippedDigits(front, exponent + 1);
      TenFold(DigitsValue(front), exponent);
    }
  }

  lemma TenFold(n: nat, exponent: int)
    ensures Shift(n as real, exponent + 1) == Shift((10 * n) as real, exponent)
  {
    ShiftAdd(n as real, 1, exponent);
    assert Shift(n as real, 1) == (10 * n) as real;
  }

  lemma {:induction false} PositiveDigits(digits: seq<Digit>)
    ensures DigitsValue(digits) == 0 <==> forall d :: d in digits ==> d == 0
  {
    if digits != [] {
      PositiveDigits(Front(digits));
      assert digits == Front(digits) + [Last(digits)];
      forall d | d in Front(digits) ensures d in digits {
      }
      assert Last(digits) in digits;
    }
  }

  lemma CanonicalValid(d: Decimal)
    requires d.Valid()
    ensures Canonical(d).Valid() && Canonical(d).Value() == d.Value()
    ensures Canonical(Canonical(d)) == Canonical(d)
    ensures Canonical(d) == Zero <==> d.Value() == 0.0
  {
    PositiveDigits(d.digits);
    StrippedDigits(d.digits, d.exponent);
    var (s, e) := Stripped(d.digits, d.exponent);
    PositiveDigits(s);
    ShiftPlus(DigitsValue(s) as real, 0.0, e);
    ShiftPlus(DigitsValue(d.digits) as real, 0.0, d.exponent);
    ShiftOrder(0.0, d.Coefficient() as real, d.exponent);
    ShiftOrder(d.Coefficient() as real, 0.0, d.exponent);
  }

  // ----- numbers have one canonical form -----

  lemma {:induction false} DigitsIdentify(a: seq<Digit>, b: seq<Digit>)
    requires (a != [] ==> a[0] != 0) && (b != [] ==> b[0] != 0)
    requires DigitsValue(a) == DigitsValue(b)
    ensures a == b
  {
    if a == [] || b == [] {
      LeadingPositive(a);
      LeadingPositive(b);
    } else {
      DigitsIdentify(Front(a), Front(b));
      assert a == Front(a) + [Last(a)] && b == Front(b) + [Last(b)];
    }
  }

  lemma {:induction false} LeadingPositive(a: seq<Digit>)
    requires a != [] ==> a[0] != 0
    ensures a != [] ==> DigitsValue(a) > 0
  {
    if |a| > 1 {
      LeadingPositive(Front(a));
    }
  }

  // A number shown with a lesser exponent ends in a zero.
  lemma TrailingZero(m: int, n: int, e: int, f: int)
    requires e < f && Shift(m as real, e) == Shift(n as real, f)
    ensures m % 10 == 0
  {
    ShiftAdd(m as real, e, -e);
    ShiftAdd(n as real, f, -e);
    var p := ShiftInteger(n, f - e - 1);
    ShiftNext(n as real, f - e - 1);
    assert m as real == (10 * p) as real;
  }

  // Without trailing zeros, equal values have equal exponents.
  lemma SameExponent(m: int, n: int, e: int, f: int)
    requires m % 10 != 0 && n % 10 != 0 && Shift(m as real, e) == Shift(n as real, f)
    ensures e == f && m == n
  {
    if e < f {
      TrailingZero(m, n, e, f);
    } else if f < e {
      TrailingZero(n, m, f, e);
    }
    ShiftOrder(m as real, n as real, e);
    ShiftOrder(n as real, m as real, e);
  }

  lemma LastDigit(digits: seq<Digit>)
    requires digits != []
    ensures DigitsValue(digits) % 10 == Last(digits)
    ensures Last(digits) != 0 ==> (0 - DigitsValue(digits)) % 10 != 0
  {
  }

  ghost predicate Normal(d: Decimal) {
    d.Valid() && d.digits[0] != 0 && Last(d.digits) != 0
  }

  lemma NormalForm(d: Decimal)
    requires d.Valid() && d.Value() != 0.0
    ensures Normal(Canonical(d))
  {
    CanonicalValid(d);
    StrippedDigits(d.digits, d.exponent);
    var c := Canonical(d);
    if c.digits[0] == 0 {
      assert |c.digits| == 1 && Front(c.digits) == [];
      ShiftOrder(0.0, 0.0, c.exponent);
    }
  }

  lemma NormalIdentify(a: Decimal, b: Decimal)
    requires Normal(a) && Normal(b) && a.Value() == b.Value()
    ensures a == b
  {
    LeadingPositive(a.digits);
    LeadingPositive(b.digits);
    LastDigit(a.digits);
    LastDigit(b.digits);
    SameExponent(a.Coefficient(), b.Coefficient(), a.exponent, b.exponent);
    DigitsIdentify(a.digits, b.digits);
  }

  lemma CanonicalIdentifies(a: Decimal, b: Decimal)
    requires a.Valid() && b.Valid()
    ensures Canonical(a) == Canonical(b) <==> a.Value() == b.Value()
  {
    CanonicalValid(a);
    CanonicalValid(b);
    if a.Value() == b.Value() && a.Value() != 0.0 {
      NormalForm(a);
      NormalForm(b);
      NormalIdentify(Canonical(a), Canonical(b));
    }
  }

  // ----- reading -----

  // The pieces between colons.
  function Split(t: string): (pieces: seq<string>)
    ensures pieces != []
  {
    if t == "" then [""]
    else
      var front := Split(Front(t));
      if Last(t) == ':' then front + [""] else Front(front) + [Last(front) + [Last(t)]]
  }

  function CharDigit(c: char): Option<Digit> {
    if '0' <= c <= '9' then Some((c - '0') as int) else None
  }

  function ReadDigits(t: string): Option<seq<Digit>> {
    if t == "" then Some([])
    else
      var front, last := ReadDigits(Front(t)), CharDigit(Last(t));
      if front.None? || last.None? then None else Some(front.value + [last.value])
  }

  // Only an integer's own text is read: any other spelling would fail the canonical check.
  function ReadInt(t: string): Option<int> {
    var negative := t != "" && t[0] == '-';
    var digits := ReadDigits(if negative then t[1..] else t);
    if digits.None? || digits.value == [] then None
    else Some(if negative then 0 - DigitsValue(digits.value) else DigitsValue(digits.value))
  }

  // A constructed decimal drops leading zeros.
  function WithoutLeadingZeros(digits: seq<Digit>): (r: seq<Digit>)
    requires digits != []
    ensures r != [] && (|r| > 1 ==> r[0] != 0)
    ensures |digits| == 1 || digits[0] != 0 ==> r == digits
  {
    if |digits| > 1 && digits[0] == 0 then WithoutLeadingZeros(digits[1..]) else digits
  }

  function DecimalFromText(t: string): Result<Decimal> {
    var pieces := Split(t);
    if |pieces| != 3 || pieces[0] !in {"0", "1"} then Err("invalid decimal payload")
    else
      var digits, exponent := ReadDigits(pieces[1]), ReadInt(pieces[2]);
      if digits.None? || exponent.None? || digits.value == [] then Err("invalid decimal payload")
      else
        var d := Decimal(pieces[0] == "1", WithoutLeadingZeros(digits.value), exponent.value);
        if DecimalText(d) != t then Err("noncanonical decimal payload") else Ok(d)
  }

  lemma {:induction false} SplitAppend(a: string, b: string)
    requires ':' !in b
    ensures Split(a + b) == Front(Split(a)) + [Last(Split(a)) + b]
  {
    if b == "" {
      assert a + b == a && Last(Split(a)) + b == Last(Split(a));
      assert Split(a) == Front(Split(a)) + [Last(Split(a))];
    } else {
      assert b == Front(b) + [Last(b)];
      SplitAppend(a, Front(b));
      assert Front(a + b) == a + Front(b);
      assert Last(Split(a)) + Front(b) + [Last(b)] == Last(Split(a)) + b;
    }
  }

  lemma SplitColon(a: string)
    ensures Split(a + ":") == Split(a) + [""]
  {
    assert Front(a + ":") == a;
  }

  lemma SplitThree(a: string, b: string, c: string)
    requires ':' !in a && ':' !in b && ':' !in c
    ensures Split(a + ":" + b + ":" + c) == [a, b, c]
  {
    SplitOne(a);
    SplitMore(a, [], a, b);
    SplitMore(a + ":" + b, [a], b, c);
  }

  lemma SplitOne(a: string)
    requires ':' !in a
    ensures Split(a) == [a]
  {
    SplitAppend("", a);
    assert "" + a == a && Front(Split("")) == [];
  }

  lemma SplitMore(t: string, front: seq<string>, last: string, more: string)
    requires Split(t) == front + [last] && ':' !in more
    ensures Split(t + ":" + more) == front + [last] + [more]
  {
    SplitColon(t);
    SplitAppend(t + ":", more);
    assert Front(Split(t + ":")) == front + [last] && "" + more == more;
  }

  lemma {:induction false} DigitsReadBack(digits: seq<Digit>)
    ensures ReadDigits(DigitsText(digits)) == Some(digits)
    ensures forall c :: c in DigitsText(digits) ==> '0' <= c <= '9'
  {
    if digits != [] {
      assert Front(DigitsText(digits)) == DigitsText(Front(digits));
      DigitsReadBack(Front(digits));
      assert digits == Front(digits) + [Last(digits)];
    }
  }

  lemma NatReadBack(n: nat)
    ensures var t := DigitsText(NatDigits(n));
            && ReadDigits(t).Some? && ReadDigits(t).value != [] && DigitsValue(ReadDigits(t).value) == n
            && t != "" && '0' <= t[0] <= '9' && ':' !in t
  {
    DigitsReadBack(NatDigits(n));
    var t := DigitsText(NatDigits(n));
    assert |t| == |NatDigits(n)| && t[0] in t;
  }

  lemma IntReadBack(n: int)
    ensures ReadInt(IntText(n)) == Some(n) && ':' !in IntText(n)
  {
    NatReadBack(if n < 0 then 0 - n else n);
    if n < 0 {
      assert IntText(n)[1..] == DigitsText(NatDigits(0 - n));
    }
  }

  lemma TextReadBack(d: Decimal)
    requires d.Valid()
    ensures var pieces := Split(TextOf(d));
            && |pieces| == 3 && pieces[0] == (if d.negative then "1" else "0")
            && ReadDigits(pieces[1]) == Some(d.digits) && ReadInt(pieces[2]) == Some(d.exponent)
  {
    DigitsReadBack(d.digits);
    IntReadBack(d.exponent);
    SplitThree(if d.negative then "1" else "0", DigitsText(d.digits), IntText(d.exponent));
  }

  // A decimal's text reads back as its canonical form, which is numerically equal to it.
  lemma DecimalRoundTrip(d: Decimal)
    requires d.Valid()
    ensures DecimalFromText(DecimalText(d)) == Ok(Canonical(d))
    ensures Canonical(d).Value() == d.Value()
  {
    CanonicalValid(d);
    TextReadBack(Canonical(d));
  }

  // Texts that are read are exactly those that are written.
  lemma DecimalTextsExactly(t: string)
    ensures DecimalFromText(t).Ok? <==> exists d: Decimal :: d.Valid() && DecimalText(d) == t
    ensures DecimalFromText(t).Ok? ==> DecimalFromText(t).value.Valid() && DecimalText(DecimalFromText(t).value) == t
  {
    if d: Decimal :| d.Valid() && DecimalText(d) == t {
      DecimalRoundTrip(d);
    }
  }

  // Two finite decimals have the same text exactly when they are numerically equal.
  lemma SameTextSameValue(a: Decimal, b: Decimal)
    requires a.Valid() && b.Valid()
    ensures DecimalText(a) == DecimalText(b) <==> a.Value() == b.Value()
  {
    CanonicalIdentifies(a, b);
    if DecimalText(a) == DecimalText(b) {
      DecimalRoundTrip(a);
      DecimalRoundTrip(b);
    }
  }
}
