// Adverse prices under 34-digit rounding, ties to even (roundTiesToEven, section 4.3.1 of
// IEEE 754-2008): execution/models.py. Exponents are unbounded.
module Rounding {
  import opened Collections
  import opened Domain
  import opened Execution

  const DIGITS := 34

  // ----- moving the decimal point -----

  // x with its point moved k places to the right.
  function Shift(x: real, k: int): real
    decreases if k < 0 then -k else k
  {
    if k == 0 then x else if k > 0 then 10.0 * Shift(x, k - 1) else Shift(x, k + 1) / 10.0
  }

  function Pow(k: int): real { Shift(1.0, k) }

  lemma ShiftNext(x: real, k: int)
    ensures Shift(x, k + 1) == 10.0 * Shift(x, k)
  {
  }

  lemma {:induction false} ShiftAdd(x: real, a: int, b: int)
    ensures Shift(Shift(x, a), b) == Shift(x, a + b)
    decreases if b < 0 then -b else b
  {
    if b > 0 {
      ShiftAdd(x, a, b - 1);
      ShiftNext(x, a + b - 1);
    } else if b < 0 {
      ShiftAdd(x, a, b + 1);
      ShiftNext(x, a + b);
    }
  }

  lemma ShiftBack(x: real, k: int)
    ensures Shift(Shift(x, k), -k) == x
  {
    ShiftAdd(x, k, -k);
  }

  lemma {:induction false} ShiftOrder(x: real, y: real, k: int)
    ensures x <= y <==> Shift(x, k) <= Shift(y, k)
    ensures Shift(0.0, k) == 0.0
    decreases if k < 0 then -k else k
  {
    if k > 0 {
      ShiftOrder(x, y, k - 1);
    } else if k < 0 {
      ShiftOrder(x, y, k + 1);
    }
  }

  lemma {:induction false} ShiftPlus(x: real, y: real, k: int)
    ensures Shift(x + y, k) == Shift(x, k) + Shift(y, k)
    ensures Shift(-x, k) == -Shift(x, k)
    decreases if k < 0 then -k else k
  {
    if k > 0 {
      ShiftPlus(x, y, k - 1);
    } else if k < 0 {
      ShiftPlus(x, y, k + 1);
    }
  }

  lemma {:induction false} ShiftFurther(x: real, a: int, b: int)
    requires x >= 0.0 && a <= b
    ensures 0.0 <= Shift(x, a) <= Shift(x, b)
    ensures a < b ==> 10.0 * Shift(x, a) <= Shift(x, b)
    decreases b - a
  {
    ShiftOrder(0.0, x, a);
    if a < b {
      ShiftFurther(x, a, b - 1);
      ShiftNext(x, b - 1);
    }
  }

  // A positive number can be moved above any bound that counting its copies exceeds.
  lemma {:induction false} ShiftExceeds(x: real, n: nat)
    requires x > 0.0
    ensures Shift(x, n) > 0.0 && Shift(x, n) >= x * n as real
  {
    if n > 0 {
      ShiftExceeds(x, n - 1);
      assert x * n as real == x * (n - 1) as real + x;
      ShiftFurther(x, 0, n - 1);
    }
  }

  lemma {:induction false} ShiftInteger(n: int, k: nat) returns (m: int)
    ensures Shift(n as real, k) == m as real
  {
    if k == 0 {
      m := n;
    } else {
      var p := ShiftInteger(n, k - 1);
      m := 10 * p;
    }
  }

  // ----- the scale of a positive number -----

  // With its point moved k places the number has exactly 34 digits before it.
  predicate Fits(x: real, k: int) {
    Pow(DIGITS - 1) <= Shift(x, k) < Pow(DIGITS)
  }

  lemma {:induction false} ScaleBetween(x: real, high: int, low: int) returns (k: int)
    requires low <= high && Shift(x, high) >= Pow(DIGITS - 1) && Shift(x, low) < Pow(DIGITS)
    ensures Fits(x, k)
    decreases high - low
  {
    if Shift(x, high) < Pow(DIGITS) {
      k := high;
    } else {
      ShiftNext(x, high - 1);
      ShiftNext(1.0, DIGITS - 1);
      k := ScaleBetween(x, high - 1, low);
    }
  }

  lemma Reciprocal(x: real) returns (n: nat)
    requires x > 0.0
    ensures x * n as real >= 1.0
  {
    var y := 1.0 / x;
    assert x * y == 1.0;
    n := y.Floor + 1;
    ProductPositive(x, n as real - y);
    assert x * (n as real - y) == x * n as real - x * y;
  }

  lemma ScaleAbove(x: real) returns (high: int)
    requires x > 0.0
    ensures high >= 0 && Shift(x, high) >= Pow(DIGITS - 1)
  {
    var n := Reciprocal(x);
    ShiftExceeds(x, n);
    ShiftOrder(1.0, Shift(x, n), DIGITS - 1);
    ShiftAdd(x, n, DIGITS - 1);
    high := n + DIGITS - 1;
  }

  lemma ScaleBelow(x: real) returns (low: int)
    requires x > 0.0
    ensures low <= 0 && Shift(x, low) < Pow(DIGITS)
  {
    var n := x.Floor + 1;
    ShiftExceeds(1.0, n);
    assert 1.0 * n as real == n as real;
    ShiftOrder(Pow(n), x, -n);
    ShiftBack(1.0, n);
    ShiftFurther(1.0, 0, DIGITS);
    low := -n;
  }

  lemma ScaleExists(x: real)
    requires x > 0.0
    ensures exists k :: Fits(x, k)
  {
    var high := ScaleAbove(x);
    var low := ScaleBelow(x);
    var k := ScaleBetween(x, high, low);
  }

  lemma ScaleOrder(x: real, y: real, j: int, k: int)
    requires 0.0 < x <= y && Fits(x, j) && Fits(y, k)
    ensures j >= k
  {
    if j < k {
      ShiftFurther(y, j, k);
      ShiftOrder(x, y, j);
      ShiftNext(1.0, DIGITS - 1);
    }
  }

  ghost function Scale(x: real): (k: int)
    requires x > 0.0
    ensures Fits(x, k)
  {
    ScaleExists(x);
    var k :| Fits(x, k);
    k
  }

  // ----- rounding -----

  // The nearest integer, ties to even.
  function HalfEven(x: real): int {
    var below := x.Floor;
    var rest := x - below as real;
    if rest < 0.5 then below
    else if rest > 0.5 then below + 1
    else if below % 2 == 0 then below else below + 1
  }

  lemma HalfEvenMonotone(x: real, y: real)
    requires x <= y
    ensures HalfEven(x) <= HalfEven(y)
  {
  }

  lemma HalfEvenInteger(n: int)
    ensures HalfEven(n as real) == n
  {
  }

  ghost function RoundPositive(x: real): real
    requires x > 0.0
  {
    Shift(HalfEven(Shift(x, Scale(x))) as real, -Scale(x))
  }

  // The nearest number of at most 34 digits, ties to the even last digit.
  ghost function Round(x: real): real {
    if x == 0.0 then 0.0 else if x > 0.0 then RoundPositive(x) else -RoundPositive(-x)
  }

  lemma HalfEvenBetween(low: int, x: real, high: int)
    requires low as real <= x <= high as real
    ensures low <= HalfEven(x) <= high
  {
    HalfEvenInteger(low);
    HalfEvenInteger(high);
    HalfEvenMonotone(low as real, x);
    HalfEvenMonotone(x, high as real);
  }

  // At its scale a number rounds to an integer of 34 digits, or to the power above.
  lemma DigitBounds(x: real, k: int)
    requires Fits(x, k)
    ensures Pow(DIGITS - 1) <= HalfEven(Shift(x, k)) as real <= Pow(DIGITS)
  {
    var least := ShiftInteger(1, DIGITS - 1);
    var most := ShiftInteger(1, DIGITS);
    HalfEvenBetween(least, Shift(x, k), most);
  }

  lemma RoundBounds(x: real)
    requires x > 0.0
    ensures Pow(DIGITS - 1 - Scale(x)) <= RoundPositive(x) <= Pow(DIGITS - Scale(x))
  {
    var k := Scale(x);
    var digits := HalfEven(Shift(x, k)) as real;
    DigitBounds(x, k);
    ShiftOrder(Pow(DIGITS - 1), digits, -k);
    ShiftOrder(digits, Pow(DIGITS), -k);
    ShiftAdd(1.0, DIGITS - 1, -k);
    ShiftAdd(1.0, DIGITS, -k);
  }

  lemma SameScaleMonotone(x: real, y: real)
    requires 0.0 < x <= y && Scale(x) == Scale(y)
    ensures RoundPositive(x) <= RoundPositive(y)
  {
    var k := Scale(x);
    ShiftOrder(x, y, k);
    HalfEvenMonotone(Shift(x, k), Shift(y, k));
    ShiftOrder(HalfEven(Shift(x, k)) as real, HalfEven(Shift(y, k)) as real, -k);
  }

  lemma RoundPositiveMonotone(x: real, y: real)
    requires 0.0 < x <= y
    ensures 0.0 < RoundPositive(x) <= RoundPositive(y)
  {
    RoundBounds(x);
    RoundBounds(y);
    ScaleOrder(x, y, Scale(x), Scale(y));
    PowPositive(DIGITS - 1 - Scale(x));
    if Scale(x) == Scale(y) {
      SameScaleMonotone(x, y);
    } else {
      ShiftFurther(1.0, DIGITS - Scale(x), DIGITS - 1 - Scale(y));
    }
  }

  lemma PowPositive(k: int)
    ensures Pow(k) > 0.0
  {
    ShiftOrder(1.0, 0.0, k);
  }

  // Rounding never reverses an order, across all magnitudes and signs.
  lemma RoundMonotone(x: real, y: real)
    requires x <= y
    ensures Round(x) <= Round(y)
  {
    if x > 0.0 {
      RoundPositiveMonotone(x, y);
    } else if y < 0.0 {
      RoundPositiveMonotone(-y, -x);
    } else {
      if x < 0.0 {
        RoundPositiveMonotone(-x, -x);
      }
      if y > 0.0 {
        RoundPositiveMonotone(y, y);
      }
    }
  }

  // A number of at most 34 digits, n with its point moved j places to the left.
  ghost predicate Shows(x: real, n: int, j: int) {
    x == Shift(n as real, -j) && -Pow(DIGITS) < n as real < Pow(DIGITS)
  }

  ghost predicate Representable(x: real) {
    exists n: int, j: int :: Shows(x, n, j)
  }

  // Its scale shows all the digits of a representable number.
  lemma ScaleShows(x: real, n: int, j: int, k: int)
    requires x > 0.0 && Shows(x, n, j) && Fits(x, k)
    ensures j <= k
  {
    ShiftAdd(n as real, -j, j);
    if k < j {
      ShiftFurther(x, k, j);
      ShiftNext(1.0, DIGITS - 1);
    }
  }

  lemma IntegerAtScale(x: real, n: int, j: int, k: int) returns (m: int)
    requires x > 0.0 && Shows(x, n, j) && Fits(x, k)
    ensures Shift(x, k) == m as real
  {
    ScaleShows(x, n, j, k);
    ShiftAdd(n as real, -j, k);
    m := ShiftInteger(n, k - j);
  }

  lemma RoundFixesPositive(x: real)
    requires x > 0.0 && Representable(x)
    ensures RoundPositive(x) == x
  {
    var n: int, j: int :| Shows(x, n, j);
    var m := IntegerAtScale(x, n, j, Scale(x));
    HalfEvenInteger(m);
    ShiftBack(x, Scale(x));
  }

  // Rounding is odd and leaves representable numbers alone.
  lemma RoundFixes(x: real)
    ensures Round(-x) == -Round(x)
    ensures Representable(x) ==> Round(x) == x
  {
    if Representable(x) {
      if x > 0.0 {
        RoundFixesPositive(x);
      } else if x < 0.0 {
        var n: int, j: int :| Shows(x, n, j);
        ShiftPlus(n as real, 0.0, -j);
        assert Shows(-x, -n, j);
        RoundFixesPositive(-x);
      }
    }
  }

  // ----- adverse prices -----

  // Price over baseline: a rounded quotient, and a rounded sum.
  ghost function Factor(side: Side, bps: real): real {
    var fraction := Round(bps / 10000.0);
    Round(if side == Buy then 1.0 + fraction else 1.0 - fraction)
  }

  function Times(baseline: real, factor: real): real { baseline * factor }

  // Before the guard: three operations, each rounded.
  ghost function Unguarded(baseline: real, side: Side, bps: real): real {
    Round(Times(baseline, Factor(side, bps)))
  }

  ghost function RoundedPrice(baseline: real, side: Side, bps: real): Result<real> {
    if bps == 0.0 then Ok(baseline)
    else if baseline < 0.0 then Err("nonzero slippage requires a nonnegative executable price")
    else
      var price := Unguarded(baseline, side, bps);
      Ok(if side == Buy then (if price > baseline then price else baseline)
         else if price < baseline then price else baseline)
  }

  lemma PowRepresentable(k: int)
    ensures Round(Pow(k)) == Pow(k)
  {
    ShiftFurther(1.0, 0, DIGITS);
    assert Shows(Pow(k), 1, -k);
    RoundFixes(Pow(k));
  }

  lemma FactorMonotone(side: Side, low: real, high: real)
    requires 0.0 <= low <= high
    ensures var a, b := Factor(side, low), Factor(side, high);
            if side == Buy then 1.0 <= a <= b else b <= a <= 1.0
  {
    RoundMonotone(0.0, low / 10000.0);
    RoundMonotone(low / 10000.0, high / 10000.0);
    SumMonotone(side, Round(low / 10000.0), Round(high / 10000.0));
  }

  lemma SumMonotone(side: Side, x: real, y: real)
    requires 0.0 <= x <= y
    ensures if side == Buy then 1.0 <= Round(1.0 + x) <= Round(1.0 + y) else Round(1.0 - y) <= Round(1.0 - x) <= 1.0
  {
    PowRepresentable(0);
    if side == Buy {
      RoundMonotone(1.0, 1.0 + x);
      RoundMonotone(1.0 + x, 1.0 + y);
    } else {
      RoundMonotone(1.0 - x, 1.0);
      RoundMonotone(1.0 - y, 1.0 - x);
    }
  }

  lemma TimesBaseline(baseline: real, a: real, b: real)
    requires baseline >= 0.0 && a <= b
    ensures Times(baseline, a) <= Times(baseline, b)
  {
    assert baseline * b - baseline * a == baseline * (b - a);
  }

  lemma RoundedProducts(baseline: real, a: real, b: real)
    requires baseline >= 0.0 && a <= b
    ensures Round(Times(baseline, a)) <= Round(Times(baseline, b))
    ensures Times(baseline, 1.0) == baseline
  {
    TimesBaseline(baseline, a, b);
    var p, q := Times(baseline, a), Times(baseline, b);
    RoundMonotone(p, q);
  }

  // More slippage never gives an unguarded price better for the trader, nor one better than
  // rounding the baseline itself would.
  lemma UnguardedMonotone(baseline: real, side: Side, low: real, high: real)
    requires baseline >= 0.0 && 0.0 <= low <= high
    ensures var a, b := Unguarded(baseline, side, low), Unguarded(baseline, side, high);
            if side == Buy then Round(baseline) <= a <= b else b <= a <= Round(baseline)
  {
    FactorMonotone(side, low, high);
    var a, b := Factor(side, low), Factor(side, high);
    if side == Buy {
      RoundedProducts(baseline, 1.0, a);
      RoundedProducts(baseline, a, b);
    } else {
      RoundedProducts(baseline, a, 1.0);
      RoundedProducts(baseline, b, a);
    }
  }

  // For every nonnegative baseline, of any length: prices are never better than the baseline,
  // never improve with more slippage, and are exactly the baseline without slippage.
  lemma AdverseRounding(baseline: real, side: Side, low: real, high: real)
    requires baseline >= 0.0 && 0.0 <= low <= high
    ensures RoundedPrice(baseline, side, 0.0) == Ok(baseline)
    ensures RoundedPrice(baseline, side, low).Ok? && RoundedPrice(baseline, side, high).Ok?
    ensures var a, b := RoundedPrice(baseline, side, low).value, RoundedPrice(baseline, side, high).value;
            if side == Buy then baseline <= a <= b else b <= a <= baseline
  {
    UnguardedMonotone(baseline, side, low, high);
  }

  // ----- when the guard matters -----

  const SMALL := -100

  lemma NearInteger(x: real, n: int)
    requires n as real <= x < n as real + 0.5
    ensures HalfEven(x) == n
  {
  }

  lemma ScaleIs(x: real, k: int)
    requires x > 0.0 && Fits(x, k)
    ensures Scale(x) == k
  {
    ScaleOrder(x, x, Scale(x), k);
    ScaleOrder(x, x, k, Scale(x));
  }

  // A number within half a unit of its last place above one rounds to one.
  lemma JustAboveOne(x: real)
    requires 0.0 <= x && Shift(x, DIGITS - 1) < 0.5
    ensures Round(1.0 + x) == 1.0
  {
    ShiftPlus(1.0, x, DIGITS - 1);
    ShiftOrder(0.0, x, DIGITS - 1);
    ShiftFurther(1.0, 0, DIGITS - 1);
    ShiftNext(1.0, DIGITS - 1);
    ScaleIs(1.0 + x, DIGITS - 1);
    var n := ShiftInteger(1, DIGITS - 1);
    NearInteger(Shift(1.0 + x, DIGITS - 1), n);
    ShiftBack(1.0, DIGITS - 1);
  }

  lemma NearIntegerBelow(x: real, n: int)
    requires n as real - 0.5 < x <= n as real
    ensures HalfEven(x) == n
  {
  }

  // A number within half a unit of its last place below one rounds to one.
  lemma JustBelowOne(x: real)
    requires 0.0 < x && Shift(x, DIGITS) < 0.5
    ensures Round(1.0 - x) == 1.0
  {
    ShiftBelowOne(x, DIGITS);
    BelowOne(x);
    ScaleIs(1.0 - x, DIGITS);
    var n := ShiftInteger(1, DIGITS);
    NearIntegerBelow(Shift(1.0 - x, DIGITS), n);
    ShiftBack(1.0, DIGITS);
  }

  lemma ShiftBelowOne(x: real, k: int)
    requires k > 0 && 0.0 < x && Shift(x, k) < 0.5
    ensures Pow(k) - 0.5 < Shift(1.0 - x, k) < Pow(k) && Pow(k - 1) <= Shift(1.0 - x, k)
  {
    ShiftPlus(1.0, -x, k);
    ShiftPlus(x, 0.0, k);
    ShiftFurther(1.0, 0, k - 1);
    ShiftNext(1.0, k - 1);
    ShiftOrder(x, 0.0, k);
  }

  lemma BelowOne(x: real)
    requires Shift(x, DIGITS) < 0.5
    ensures x < 1.0
  {
    ShiftFurther(1.0, 0, DIGITS);
    ShiftOrder(1.0, x, DIGITS);
  }

  lemma SmallSlippage()
    ensures Shift(Pow(SMALL), DIGITS - 1) < 0.5 && Shift(Pow(SMALL), DIGITS) < 0.5
  {
    ShiftAdd(1.0, SMALL, DIGITS - 1);
    ShiftAdd(1.0, SMALL, DIGITS);
    ShiftFurther(1.0, SMALL + DIGITS - 1, -1);
    ShiftFurther(1.0, SMALL + DIGITS, -1);
    assert Pow(-1) == 0.1;
  }

  // With this little slippage the factor is one, for purchases and sales alike.
  lemma LeastFactor(side: Side)
    ensures Pow(SMALL) > 0.0 && Factor(side, 10000.0 * Pow(SMALL)) == 1.0
  {
    PowPositive(SMALL);
    PowRepresentable(SMALL);
    SmallSlippage();
    TinyFactor(side, Pow(SMALL));
  }

  lemma TinyFactor(side: Side, x: real)
    requires x > 0.0 && Round(x) == x && Shift(x, DIGITS - 1) < 0.5 && Shift(x, DIGITS) < 0.5
    ensures Factor(side, 10000.0 * x) == 1.0
  {
    assert 10000.0 * x / 10000.0 == x;
    if side == Buy {
      JustAboveOne(x);
    } else {
      JustBelowOne(x);
    }
  }

  // A price better for the trader than the baseline.
  predicate Better(side: Side, price: real, baseline: real) {
    if side == Buy then price < baseline else price > baseline
  }

  // Some slippage would give an unguarded price better than the baseline exactly when rounding
  // the baseline alone does, down for a purchase and up for a sale; that takes a baseline of more
  // than 34 digits.
  lemma GuardNeededExactly(baseline: real, side: Side)
    requires baseline >= 0.0
    ensures (exists bps :: bps > 0.0 && Better(side, Unguarded(baseline, side, bps), baseline))
       <==> Better(side, Round(baseline), baseline)
    ensures Better(side, Round(baseline), baseline) ==> !Representable(baseline)
  {
    RoundFixes(baseline);
    if Better(side, Round(baseline), baseline) {
      LeastFactor(side);
      assert Times(baseline, 1.0) == baseline;
      assert Better(side, Unguarded(baseline, side, 10000.0 * Pow(SMALL)), baseline);
    } else {
      forall bps | bps > 0.0 ensures !Better(side, Unguarded(baseline, side, bps), baseline) {
        UnguardedMonotone(baseline, side, bps, bps);
      }
    }
  }

  // A baseline of 35 digits that rounds down.
  lemma LongBaselineRoundsDown()
    ensures Round(Pow(DIGITS) + 1.0) == Pow(DIGITS)
  {
    var x := Pow(DIGITS) + 1.0;
    ShiftPlus(Pow(DIGITS), 1.0, -1);
    ShiftAdd(1.0, DIGITS, -1);
    ShiftFurther(1.0, 0, DIGITS - 1);
    ShiftNext(1.0, DIGITS - 1);
    assert Pow(-1) == 0.1;
    ScaleIs(x, -1);
    var n := ShiftInteger(1, DIGITS - 1);
    NearInteger(Shift(x, -1), n);
    ShiftAdd(1.0, DIGITS - 1, 1);
  }

  // A baseline of 35 digits that rounds up.
  lemma LongBaselineRoundsUp()
    ensures Round(Pow(DIGITS) + 9.0) == Pow(DIGITS) + 10.0
  {
    var x := Pow(DIGITS) + 9.0;
    ShiftPlus(Pow(DIGITS), 9.0, -1);
    ShiftAdd(1.0, DIGITS, -1);
    ShiftFurther(1.0, 0, DIGITS - 1);
    ShiftNext(1.0, DIGITS - 1);
    assert Shift(9.0, -1) == 0.9;
    ScaleIs(x, -1);
    var n := ShiftInteger(1, DIGITS - 1);
    NearIntegerBelow(Shift(x, -1), n + 1);
    ShiftPlus(Pow(DIGITS - 1), 1.0, 1);
    ShiftAdd(1.0, DIGITS - 1, 1);
    assert Shift(1.0, 1) == 10.0;
  }

  // ----- nearest, ties to even -----

  function Gap(x: real, y: real): real { if x < y then y - x else x - y }

  // No integer is nearer, and of two nearest the even one is taken.
  lemma HalfEvenNearest(x: real, n: int)
    ensures Gap(x, HalfEven(x) as real) <= Gap(x, n as real)
    ensures Gap(x, HalfEven(x) as real) == Gap(x, n as real) && n != HalfEven(x) ==> HalfEven(x) % 2 == 0
  {
  }

  // At the scale of a number, a representable number is an integer or has less than 34 digits
  // before its point.
  lemma AtScale(y: real, k: int) returns (n: int, whole: bool)
    requires Representable(y)
    ensures whole ==> Shift(y, k) == n as real
    ensures !whole ==> -Pow(DIGITS - 1) < Shift(y, k) < Pow(DIGITS - 1)
  {
    var d: int, j: int :| Shows(y, d, j);
    ShiftAdd(d as real, -j, k);
    whole := j <= k;
    if whole {
      n := ShiftInteger(d, k - j);
    } else {
      n := 0;
      Smaller(d as real, k - j);
      Smaller(-d as real, k - j);
      ShiftPlus(d as real, 0.0, k - j);
    }
  }

  // Moved left, a number of at most 34 digits has less before its point.
  lemma Smaller(d: real, k: int)
    requires k < 0 && d < Pow(DIGITS)
    ensures Shift(d, k) < Pow(DIGITS - 1)
  {
    if d > 0.0 {
      ShiftFurther(d, k, -1);
      ShiftNext(1.0, DIGITS - 1);
      assert Shift(d, -1) == d / 10.0;
    } else {
      ShiftOrder(d, 0.0, k);
      PowPositive(DIGITS - 1);
    }
  }

  lemma GapShift(x: real, y: real, k: int)
    ensures Shift(Gap(x, y), k) == Gap(Shift(x, k), Shift(y, k))
  {
    ShiftPlus(x, -y, k);
    ShiftPlus(y, -x, k);
    ShiftPlus(x, 0.0, k);
    ShiftPlus(y, 0.0, k);
    ShiftOrder(x, y, k);
    ShiftOrder(y, x, k);
  }

  lemma GapOrder(x: real, y: real, z: real, k: int)
    ensures Gap(x, y) <= Gap(x, z) <==> Gap(Shift(x, k), Shift(y, k)) <= Gap(Shift(x, k), Shift(z, k))
    ensures Gap(x, y) == Gap(x, z) <==> Gap(Shift(x, k), Shift(y, k)) == Gap(Shift(x, k), Shift(z, k))
  {
    GapShift(x, y, k);
    GapShift(x, z, k);
    ShiftOrder(Gap(x, y), Gap(x, z), k);
    ShiftOrder(Gap(x, z), Gap(x, y), k);
  }

  predicate EvenDigits(y: real, k: int, n: int) { Shift(y, k) == n as real && n % 2 == 0 }

  // The last digit of y at the scale of x is even.
  ghost predicate EvenAt(x: real, y: real) {
    exists k, n: int :: Fits(x, k) && EvenDigits(y, k, n)
  }

  // What rounding gives at the scale.
  lemma RoundedAt(x: real)
    requires x > 0.0
    ensures Shift(RoundPositive(x), Scale(x)) == HalfEven(Shift(x, Scale(x))) as real
  {
    ShiftAdd(HalfEven(Shift(x, Scale(x))) as real, -Scale(x), Scale(x));
  }

  lemma NearestPositive(x: real, y: real)
    requires x > 0.0 && Representable(y)
    ensures Gap(x, RoundPositive(x)) <= Gap(x, y)
    ensures Gap(x, RoundPositive(x)) == Gap(x, y) && y != RoundPositive(x) ==> EvenAt(x, RoundPositive(x))
  {
    var k, z := Scale(x), RoundPositive(x);
    var m := HalfEven(Shift(x, k));
    RoundedAt(x);
    if m % 2 == 0 {
      assert Fits(x, k) && EvenDigits(z, k, m);
    }
    GapOrder(x, z, y, k);
    var n, whole := AtScale(y, k);
    if whole {
      HalfEvenNearest(Shift(x, k), n);
      if n == m {
        ShiftBack(y, k);
        ShiftBack(z, k);
      }
    } else {
      var least := ShiftInteger(1, DIGITS - 1);
      HalfEvenNearest(Shift(x, k), least);
      assert Gap(Shift(x, k), least as real) < Gap(Shift(x, k), Shift(y, k));
    }
  }

  lemma Mirrored(y: real)
    requires Representable(y)
    ensures Representable(-y)
  {
    var n: int, j: int :| Shows(y, n, j);
    ShiftPlus(n as real, 0.0, -j);
    assert Shows(-y, -n, j);
  }

  // Rounding gives the nearest number of at most 34 digits, and of two nearest the one whose last
  // digit is even.
  lemma RoundNearest(x: real, y: real)
    requires Representable(y)
    ensures Gap(x, Round(x)) <= Gap(x, y)
    ensures Gap(x, Round(x)) == Gap(x, y) && y != Round(x) ==> EvenAt(Gap(x, 0.0), Gap(Round(x), 0.0))
  {
    if x > 0.0 {
      NearestPositive(x, y);
      RoundBounds(x);
      PowPositive(DIGITS - 1 - Scale(x));
    } else if x < 0.0 {
      Mirrored(y);
      NearestPositive(-x, -y);
      RoundBounds(-x);
      PowPositive(DIGITS - 1 - Scale(-x));
    }
  }

  // What rounding gives has at most 34 digits itself.
  lemma RoundRepresentable(x: real)
    ensures Representable(Round(x))
  {
    if x > 0.0 {
      PositiveRepresentable(x);
    } else if x < 0.0 {
      PositiveRepresentable(-x);
      Mirrored(RoundPositive(-x));
    } else {
      ShiftOrder(0.0, 0.0, 0);
      PowPositive(DIGITS);
      assert Shows(0.0, 0, 0);
    }
  }

  lemma PositiveRepresentable(x: real)
    requires x > 0.0
    ensures Representable(RoundPositive(x))
  {
    var k := Scale(x);
    var m := HalfEven(Shift(x, k));
    DigitBounds(x, k);
    PowPositive(DIGITS - 1);
    PowPositive(DIGITS);
    if m as real < Pow(DIGITS) {
      assert Shows(RoundPositive(x), m, k);
    } else {
      ShiftAdd(1.0, DIGITS, -k);
      ShiftFurther(1.0, 0, DIGITS);
      assert Shows(RoundPositive(x), 1, k - DIGITS);
    }
  }

  // Price over baseline in exact arithmetic.
  function ExactFactor(side: Side, bps: real): real {
    if side == Buy then 1.0 + bps / 10000.0 else 1.0 - bps / 10000.0
  }

  lemma FactorExact(side: Side, bps: real)
    requires Representable(bps / 10000.0) && Representable(ExactFactor(side, bps))
    ensures Factor(side, bps) == ExactFactor(side, bps)
  {
    RoundFixes(bps / 10000.0);
    RoundFixes(ExactFactor(side, bps));
  }

  lemma ModeledTimes(baseline: real, side: Side, bps: real)
    requires bps > 0.0 && baseline >= 0.0
    ensures var price := Times(baseline, ExactFactor(side, bps));
            ModeledPrice(baseline, side, bps)
            == Ok(if side == Buy then (if price > baseline then price else baseline)
                  else if price < baseline then price else baseline)
  {
  }

  // A price none of whose steps needs more than 34 digits is the exact one.
  lemma ExactPrice(baseline: real, side: Side, bps: real)
    requires baseline >= 0.0 && bps >= 0.0
    requires Representable(bps / 10000.0) && Representable(ExactFactor(side, bps))
    requires Representable(Times(baseline, ExactFactor(side, bps)))
    ensures RoundedPrice(baseline, side, bps) == ModeledPrice(baseline, side, bps)
  {
    FactorExact(side, bps);
    RoundFixes(Times(baseline, ExactFactor(side, bps)));
    if bps > 0.0 {
      ModeledTimes(baseline, side, bps);
    }
  }
}
