/** The payout formula and the two-decimal display amount, as the services compute them with JavaScript numbers. */
module Money {
  import opened Types
  import opened Doubles

  // ---- the payout formula -----------------------------------------------------------------------

  /** Math.floor(stakeCents * oddsInt / 100): a product, a quotient and a floor, the first two rounded. */
  function FloatPayout(stake: nat, odds: nat): int
    requires stake * odds < SAFE
  {
    RoundWhole(stake * odds);
    var product := Round((stake * odds) as real);
    HundredthFits(product);
    Round(product / 100.0).Floor
  }

  lemma HundredthFits(x: real)
    requires 0.0 <= x < Pow2(SIGNIFICAND_BITS)
    ensures 0.0 <= x / 100.0 < Pow2(SIGNIFICAND_BITS)
  {
    hide Pow2;
  }

  /** The rounded hundredth of a whole number has the floor of the exact hundredth. */
  lemma FloorOfHundredth(p: nat)
    requires p < SAFE
    ensures p as real / 100.0 < Pow2(SIGNIFICAND_BITS) && Round(p as real / 100.0).Floor == p / 100
  {
    hide Round, Pow2, IsDouble;
    var q, x := p / 100, p as real / 100.0;
    Pow2Safe();
    Pow2Quarters();
    assert p == 100 * q + p % 100;
    assert q as real <= x <= q as real + 0.99;
    WholeIsDouble(q);
    RoundIsNearest(x, q as real);
    var m := 64 * (q + 1) - 1;
    FractionIsDouble(m, -6);
    var c := m as real * Pow2(-6);
    assert c == q as real + 1.0 - 1.0 / 64.0;
    RoundIsNearest(x, c);
  }

  /** The floating-point payout is the exact one, for every stake and odds whose product is a safe integer. */
  lemma FloatPayoutIsExact(stake: nat, odds: nat)
    requires stake * odds < SAFE
    ensures FloatPayout(stake, odds) == Payout(stake, odds)
  {
    hide Round;
    RoundWhole(stake * odds);
    FloorOfHundredth(stake * odds);
  }

  lemma MulMonotone(a: nat, b: nat, c: nat, d: nat)
    requires a <= b && c <= d
    ensures a * c <= b * d
  {
    assert a * c <= b * c <= b * d;
  }

  /** The bounds on a stake and the odds column keep the product a safe integer. */
  lemma AcceptedBetsAreSafe(stake: nat, odds: nat)
    requires stake <= 1_000_000 && odds <= INT4_MAX
    ensures stake * odds < SAFE && FloatPayout(stake, odds) == Payout(stake, odds)
  {
    MulMonotone(stake, 1_000_000, odds, INT4_MAX);
    FloatPayoutIsExact(stake, odds);
  }

  /** A win returns the stake and at least one per cent of it. */
  lemma WinPaysAtLeast(stake: nat, odds: nat)
    requires stake * odds < SAFE && 101 <= odds
    ensures FloatPayout(stake, odds) >= stake + stake / 100
  {
    FloatPayoutIsExact(stake, odds);
    MulMonotone(stake, stake, 101, odds);
    assert stake * 101 / 100 == stake + stake / 100;
  }

  lemma PayoutIsMonotone(stake: nat, odds: nat, stake': nat, odds': nat)
    requires stake <= stake' && odds <= odds' && stake' * odds' < SAFE
    ensures stake * odds < SAFE && FloatPayout(stake, odds) <= FloatPayout(stake', odds')
  {
    MulMonotone(stake, stake', odds, odds');
    FloatPayoutIsExact(stake, odds);
    FloatPayoutIsExact(stake', odds');
  }

  /**
   Splitting a stake over several bets at the same odds never pays more than one bet, and loses at most a cent a
   split.
   */
  lemma SplittingNeverPays(a: nat, b: nat, odds: nat)
    requires (a + b) * odds < SAFE
    ensures a * odds < SAFE && b * odds < SAFE
    ensures var split := FloatPayout(a, odds) + FloatPayout(b, odds); split <= FloatPayout(a + b, odds) <= split + 1
  {
    var x, y := a * odds, b * odds;
    assert (a + b) * odds == x + y;
    FloatPayoutIsExact(a, odds);
    FloatPayoutIsExact(b, odds);
    FloatPayoutIsExact(a + b, odds);
  }

  // ---- the display amount -----------------------------------------------------------------------

  /**
   Number.prototype.toFixed(2) as whole hundredths: the integer n with n / 100 nearest to x, the larger of two equally
   near ones (section 21.1.3.3 of ECMA-262).
   */
  function ToFixed2(x: real): int
  {
    (100.0 * x + 0.5).Floor
  }

  /** The largest amount up to which every amount keeps its cents when divided by one hundred: 100 * 2^46. */
  const PRINTABLE: int := 7036874417766400

  /** (cents / 100).toFixed(2) as a number of cents. */
  function DisplayedCents(cents: nat): int
    requires cents < SAFE
  {
    RoundWhole(cents);
    HundredthFits(cents as real);
    ToFixed2(Round(cents as real / 100.0))
  }

  /** The nearest multiple of 1/128 below 2^46 is a double, so a hundredth is rounded by at most 1/256. */
  lemma HundredthIsClose(cents: nat)
    requires cents <= PRINTABLE
    ensures cents as real / 100.0 < Pow2(SIGNIFICAND_BITS)
    ensures Distance(cents as real / 100.0, Round(cents as real / 100.0)) <= 1.0 / 256.0
  {
    hide Round, Pow2, IsDouble;
    var x := cents as real / 100.0;
    Pow2Safe();
    Pow2Quarters();
    var m := (128.0 * x + 0.5).Floor;
    assert m as real <= 128.0 * x + 0.5 < m as real + 1.0;
    assert x <= 70368744177664.0;
    if m < SAFE {
      FractionIsDouble(m, -7);
      RoundIsNearest(x, m as real * Pow2(-7));
    } else {
      WholeIsDouble(70368744177664);
      RoundIsNearest(x, 70368744177664 as real);
    }
  }

  /** Dividing by one hundred and printing two decimals shows every cent. */
  lemma DisplayIsExact(cents: nat)
    requires cents <= PRINTABLE
    ensures DisplayedCents(cents) == cents
  {
    hide Round;
    HundredthIsClose(cents);
  }

  /** The bound is sharp: one cent more is shown as two cents more. No integer column can hold that amount. */
  lemma FirstMisprint()
    ensures PRINTABLE > INT4_MAX && DisplayedCents(PRINTABLE + 1) == PRINTABLE + 2
  {
    hide RoundAt, ExponentFrom, Pow2;
    var x := (PRINTABLE + 1) as real / 100.0;
    Pow2Safe();
    Pow2Quarters();
    HundredthFits((PRINTABLE + 1) as real);
    ExponentIsSix(x);
    SixtyFourths(x);
  }

  lemma ExponentIsSix(x: real)
    requires 70368744177664.0 <= x < 140737488355328.0
    ensures x < Pow2(SIGNIFICAND_BITS) && ExponentFrom(x, MIN_EXPONENT) == -6
  {
    hide ExponentFrom, Pow2;
    Pow2Safe();
    HighPowers();
    ExponentFits(x, MIN_EXPONENT);
    var f := ExponentFrom(x, MIN_EXPONENT);
    if f > -6 {
      Pow2Grows(47, f - 1 + 6);
    } else if f < -6 {
      Pow2Grows(SIGNIFICAND_BITS + f, -7 - f);
    }
  }

  lemma HighPowers()
    ensures Pow2(46) == 70368744177664.0 && Pow2(47) == 140737488355328.0
  {
    hide Pow2;
    Pow2Small();
    Pow2Add(10, 10);
    Pow2Add(20, 20);
    Pow2Add(40, 6);
    Pow2Step(46);
  }

  lemma SixtyFourths(x: real)
    requires x == (PRINTABLE + 1) as real / 100.0
    ensures RoundAt(x, -6) == 70368744177664.0 + 1.0 / 64.0
  {
    hide Pow2;
    Pow2Quarters();
    assert Units(x, -6) == 64.0 * x;
    assert RoundHalfEven(64.0 * x) == 4503599627370497;
  }
}
