/**
 The payout and the display amounts as the code computes them, in binary64 arithmetic: every operation is the exact
 result rounded to nearest, ties to even (section 4.3.1 of IEEE 754-2019).
 */
module Doubles {
  /** 2 to the power e, for any integer e. */
  function Pow2(e: int): (p: real)
    ensures p > 0.0
    decreases if e < 0 then -e else e
  {
    if e == 0 then 1.0 else if e > 0 then 2.0 * Pow2(e - 1) else Pow2(e + 1) / 2.0
  }

  const SIGNIFICAND_BITS := 53
  const MIN_EXPONENT := -1074
  const MAX_EXPONENT := 971

  ghost predicate Represents(x: real, m: int, e: int)
  {
    && -Pow2(SIGNIFICAND_BITS) < m as real < Pow2(SIGNIFICAND_BITS)
    && MIN_EXPONENT <= e <= MAX_EXPONENT
    && x == m as real * Pow2(e)
  }

  /** x is a finite binary64 number. */
  ghost predicate IsDouble(x: real)
  {
    exists m: int, e: int :: Represents(x, m, e)
  }

  // ---- rounding ---------------------------------------------------------------------------------

  /** The smallest exponent from `e` on at which x has at most 53 significand bits. */
  function ExponentFrom(x: real, e: int): int
    requires 0.0 <= x < Pow2(SIGNIFICAND_BITS) && e <= 0
    decreases -e
  {
    if e == 0 || x < Pow2(SIGNIFICAND_BITS + e) then e else ExponentFrom(x, e + 1)
  }

  /** Nearest integer, ties to even. */
  function RoundHalfEven(x: real): int
  {
    var low := x.Floor;
    var fraction := x - low as real;
    if fraction < 0.5 || (fraction == 0.5 && low % 2 == 0) then low else low + 1
  }

  /** k units of the exponent e. */
  function Scaled(k: int, e: int): real
  {
    k as real * Pow2(e)
  }

  /** x counted in units of the exponent e. */
  function Units(x: real, e: int): real
  {
    x / Pow2(e)
  }

  /** The multiple of the unit of exponent e nearest to x, ties to the even multiple. */
  function RoundAt(x: real, e: int): real
  {
    Scaled(RoundHalfEven(Units(x, e)), e)
  }

  /** Round to nearest, for non-negative results below 2^53, as all of this model's are. */
  function Round(x: real): real
    requires 0.0 <= x < Pow2(SIGNIFICAND_BITS)
  {
    RoundAt(x, ExponentFrom(x, MIN_EXPONENT))
  }

  lemma Pow2Zero()
    ensures Pow2(0) == 1.0
  {
  }

  lemma Pow2Step(e: int)
    ensures Pow2(e + 1) == 2.0 * Pow2(e)
  {
  }

  lemma {:induction false} Pow2Add(a: int, k: nat)
    ensures Pow2(a + k) == Pow2(k) * Pow2(a)
  {
    hide Pow2;
    Pow2Zero();
    if k > 0 {
      Pow2Add(a, k - 1);
      AddStep(a, k - 1);
    }
  }

  lemma AddStep(a: int, k: nat)
    requires Pow2(a + k) == Pow2(k) * Pow2(a)
    ensures Pow2(a + k + 1) == Pow2(k + 1) * Pow2(a)
  {
    Pow2Step(a + k);
    Pow2Step(k);
    hide Pow2;
    Doubling(Pow2(k), Pow2(a));
  }

  lemma Doubling(x: real, y: real)
    ensures 2.0 * (x * y) == (2.0 * x) * y
  {
  }

  /** Non-negative powers of two are integers. */
  lemma {:induction false} Pow2Whole(k: nat) returns (n: nat)
    ensures n as real == Pow2(k) && n > 0
  {
    if k == 0 {
      n := 1;
    } else {
      var half := Pow2Whole(k - 1);
      n := 2 * half;
    }
  }

  lemma {:induction false} Pow2Grows(a: int, k: nat)
    ensures Pow2(a) <= Pow2(a + k)
  {
    if k > 0 {
      Pow2Grows(a, k - 1);
      Pow2Step(a + k - 1);
    }
  }

  lemma {:induction false} ExponentFits(x: real, e: int)
    requires 0.0 <= x < Pow2(SIGNIFICAND_BITS) && e <= 0
    ensures var f := ExponentFrom(x, e);
            e <= f <= 0 && x < Pow2(SIGNIFICAND_BITS + f) && (f == e || x >= Pow2(SIGNIFICAND_BITS + f - 1))
    decreases -e
  {
    if e != 0 && x >= Pow2(SIGNIFICAND_BITS + e) {
      ExponentFits(x, e + 1);
    }
  }

  function Distance(x: real, y: real): real
  {
    if x <= y then y - x else x - y
  }

  /** Rounding to an integer is at least as close as any other integer. */
  lemma IntegerNearest(x: real, k: int)
    ensures Distance(x, RoundHalfEven(x) as real) <= Distance(x, k as real)
  {
    var low := x.Floor;
    if k <= low {
      assert k as real <= low as real;
    } else {
      assert k as real >= low as real + 1.0;
    }
  }

  lemma ScaleOne(s: real, t: real, u: real)
    requires u > 0.0
    ensures Distance(s * u, t * u) == Distance(s, t) * u
  {
    if s <= t {
      ScaleOrder(s, t, u);
      assert (t - s) * u == t * u - s * u;
    } else {
      ScaleOrder(t, s, u);
      assert (s - t) * u == s * u - t * u;
    }
  }

  lemma ScaleOrder(s: real, t: real, u: real)
    requires u > 0.0 && s <= t
    ensures s * u <= t * u
  {
  }

  lemma DivideBack(x: real, u: real)
    requires u > 0.0
    ensures x / u * u == x
  {
  }

  /** Scaling by a positive unit keeps comparisons of distances. */
  lemma ScaleDistance(x: real, u: real, t: real, a: real, b: real)
    requires u > 0.0 && t * u == x && Distance(t, a) <= Distance(t, b)
    ensures Distance(x, a * u) <= Distance(x, b * u)
  {
    ScaleOne(t, a, u);
    ScaleOne(t, b, u);
    var near, far := Distance(t, a), Distance(t, b);
    assert near <= far;
    ScaleOrder(near, far, u);
    assert near * u <= far * u;
    assert Distance(t * u, a * u) == near * u;
    assert Distance(t * u, b * u) == far * u;
    assert Distance(x, a * u) == Distance(t * u, a * u);
  }

  lemma WholeProduct(m: int, n: int)
    ensures (m * n) as real == m as real * n as real
  {
  }

  /** A double at least as coarse as the unit is a whole number of units. */
  lemma CoarseIsWhole(z: real, m: int, e: int, unit: int) returns (k: int)
    requires z == m as real * Pow2(e) && e >= unit
    ensures z == Scaled(k, unit)
  {
    hide Pow2;
    var n := Pow2Whole(e - unit);
    Pow2Add(unit, e - unit);
    Reassociate(m as real, Pow2(e - unit), Pow2(unit));
    WholeProduct(m, n);
    k := m * n;
  }

  lemma Reassociate(a: real, b: real, c: real)
    ensures a * (b * c) == (a * b) * c
  {
  }

  /** A finer double lies below every value that needs the unit. */
  lemma FineIsBelow(z: real, m: int, e: int, unit: int)
    requires z == m as real * Pow2(e) && m as real < Pow2(SIGNIFICAND_BITS) && e < unit
    ensures z < Pow2(SIGNIFICAND_BITS + unit - 1)
  {
    hide Pow2;
    Pow2Add(e, SIGNIFICAND_BITS);
    Pow2Grows(SIGNIFICAND_BITS + e, unit - 1 - e);
    StrictScale(m as real, Pow2(SIGNIFICAND_BITS), Pow2(e));
  }

  lemma StrictScale(s: real, t: real, u: real)
    requires u > 0.0 && s < t
    ensures s * u < t * u
  {
  }

  lemma InUnits(x: real, e: int)
    ensures Units(x, e) * Pow2(e) == x
  {
    hide Pow2;
    DivideBack(x, Pow2(e));
  }

  /** The rounding of x at exponent e is as near to x as any whole number of units of that exponent. */
  lemma NearestMultiple(x: real, e: int, k: int)
    ensures Distance(x, RoundAt(x, e)) <= Distance(x, Scaled(k, e))
  {
    hide RoundHalfEven, Units, Pow2;
    var t, u, r := Units(x, e), Pow2(e), RoundHalfEven(Units(x, e));
    InUnits(x, e);
    IntegerNearest(t, k);
    ScaleDistance(x, u, t, r as real, k as real);
    var near, other := r as real * u, k as real * u;
    assert RoundAt(x, e) == near && Scaled(k, e) == other;
    assert Distance(x, near) <= Distance(x, other);
  }

  /** Below x, which needs exponent e, there is a multiple of that unit above every finer double. */
  lemma BoundaryBetween(x: real, e: int, z: real, m: int, f: int) returns (n: int)
    requires Represents(z, m, f) && f < e && x >= Pow2(SIGNIFICAND_BITS + e - 1)
    ensures z < Scaled(n, e) <= x
  {
    hide Pow2;
    n := Pow2Whole(SIGNIFICAND_BITS - 1);
    Pow2Add(e, SIGNIFICAND_BITS - 1);
    FineIsBelow(z, m, f, e);
  }

  /** Rounding at exponent e is nearest among all doubles, when x needs exponent e. */
  lemma NearestAt(x: real, e: int, z: real, m: int, f: int)
    requires Represents(z, m, f) && (f < e ==> x >= Pow2(SIGNIFICAND_BITS + e - 1))
    ensures Distance(x, RoundAt(x, e)) <= Distance(x, z)
  {
    hide Pow2, RoundAt, Scaled;
    if f >= e {
      var k := CoarseIsWhole(z, m, f, e);
      NearestMultiple(x, e, k);
    } else {
      var n := BoundaryBetween(x, e, z, m, f);
      NearestMultiple(x, e, n);
    }
  }

  /** No finite double is closer to x than its rounding. */
  lemma RoundIsNearest(x: real, z: real)
    requires 0.0 <= x < Pow2(SIGNIFICAND_BITS) && IsDouble(z)
    ensures Distance(x, Round(x)) <= Distance(x, z)
  {
    hide Pow2, RoundAt, ExponentFrom;
    var e := ExponentFrom(x, MIN_EXPONENT);
    ExponentFits(x, MIN_EXPONENT);
    var m: int, f: int :| Represents(z, m, f);
    assert f >= MIN_EXPONENT;
    NearestAt(x, e, z, m, f);
  }

  /** 2 to the power 53: every smaller whole number is a double. */
  const SAFE: int := 9007199254740992

  lemma Pow2Small()
    ensures Pow2(3) == 8.0 && Pow2(6) == 64.0 && Pow2(10) == 1024.0
  {
  }

  lemma Pow2Safe()
    ensures Pow2(SIGNIFICAND_BITS) == SAFE as real
  {
    hide Pow2;
    Pow2Small();
    Pow2Add(10, 10);
    Pow2Add(20, 20);
    Pow2Add(40, 10);
    Pow2Add(50, 3);
  }

  // ---- the rounding is the standard's -----------------------------------------------------------

  /** m units of exponent e, with as many significand bits as the format has: the form whose last bit ties look at. */
  ghost predicate Canonical(x: real, m: int, e: int)
  {
    Represents(x, m, e) && (e == MIN_EXPONENT || Pow2(SIGNIFICAND_BITS - 1) <= m as real)
  }

  /** The units counted at exponent e lie in the range a canonical significand has. */
  lemma UnitsFit(x: real, e: int, t: real)
    requires 0.0 <= x < Pow2(SIGNIFICAND_BITS + e) && t * Pow2(e) == x
    ensures 0.0 <= t < Pow2(SIGNIFICAND_BITS)
    ensures x >= Pow2(SIGNIFICAND_BITS + e - 1) ==> t >= Pow2(SIGNIFICAND_BITS - 1)
  {
    hide Pow2;
    Pow2Add(e, SIGNIFICAND_BITS);
    Pow2Add(e, SIGNIFICAND_BITS - 1);
    UnscaleBounds(x, t, Pow2(e), Pow2(SIGNIFICAND_BITS), Pow2(SIGNIFICAND_BITS - 1));
  }

  lemma UnscaleBounds(x: real, t: real, u: real, high: real, low: real)
    requires u > 0.0 && t * u == x && 0.0 <= x < high * u
    ensures 0.0 <= t < high && (x >= low * u ==> t >= low)
  {
    assert 0.0 * u == 0.0;
    Unscale(0.0, t, u);
    Unscale(high, t, u);
    Unscale(low, t, u);
  }

  lemma Unscale(s: real, t: real, u: real)
    requires u > 0.0
    ensures s * u <= t * u ==> s <= t
    ensures t * u < s * u ==> t < s
  {
    if s > t {
      StrictScale(t, s, u);
    } else {
      ScaleOrder(s, t, u);
    }
  }

  /** A nearest integer does not leave an interval whose ends are integers. */
  lemma RoundStays(t: real, low: int, high: int)
    requires low as real <= t < high as real
    ensures low <= RoundHalfEven(t) <= high
  {
  }

  /** The units of x at the exponent it needs, and what their rounding can be. */
  lemma SignificandFits(x: real, f: int)
    requires MIN_EXPONENT <= f <= 0 && 0.0 <= x < Pow2(SIGNIFICAND_BITS + f)
    requires f == MIN_EXPONENT || x >= Pow2(SIGNIFICAND_BITS + f - 1)
    ensures var r := RoundHalfEven(Units(x, f)); 0 <= r <= SAFE && (f == MIN_EXPONENT || SAFE / 2 <= r)
  {
    hide Pow2, RoundHalfEven, Units;
    var t := Units(x, f);
    InUnits(x, f);
    UnitsFit(x, f, t);
    Pow2Safe();
    Pow2Half();
    RoundStays(t, 0, SAFE);
    if f != MIN_EXPONENT {
      RoundStays(t, SAFE / 2, SAFE);
    }
  }

  /** A significand that rounds up to 2^53 is carried into the exponent. */
  lemma Carry(r: int, f: int) returns (m: int, e: int)
    requires MIN_EXPONENT <= f <= 0 && 0 <= r <= SAFE && (f == MIN_EXPONENT || SAFE / 2 <= r)
    ensures Canonical(Scaled(r, f), m, e) && (r % 2 == 0 ==> m % 2 == 0)
  {
    hide Pow2;
    Pow2Safe();
    Pow2Half();
    if r < SAFE {
      m, e := r, f;
    } else {
      m, e := SAFE / 2, f + 1;
      Pow2Step(f);
      Reassociate(m as real, 2.0, Pow2(f));
      assert m as real * 2.0 == r as real;
      assert Represents(Scaled(r, f), m, e);
    }
  }

  /** Rounding gives a double, in a canonical form that is even when the significand was rounded to an even one. */
  lemma RoundIsCanonical(x: real) returns (m: int, e: int)
    requires 0.0 <= x < Pow2(SIGNIFICAND_BITS)
    ensures Canonical(Round(x), m, e)
    ensures RoundHalfEven(Units(x, ExponentFrom(x, MIN_EXPONENT))) % 2 == 0 ==> m % 2 == 0
  {
    hide Pow2, RoundHalfEven, Units, Scaled, ExponentFrom, Canonical;
    var f := ExponentFrom(x, MIN_EXPONENT);
    ExponentFits(x, MIN_EXPONENT);
    SignificandFits(x, f);
    m, e := Carry(RoundHalfEven(Units(x, f)), f);
  }

  lemma Pow2Half()
    ensures Pow2(SIGNIFICAND_BITS - 1) == (SAFE / 2) as real
  {
    Pow2Safe();
    Pow2Step(SIGNIFICAND_BITS - 1);
  }

  /** A rounded value is a finite binary64 number. */
  lemma RoundIsDouble(x: real)
    requires 0.0 <= x < Pow2(SIGNIFICAND_BITS)
    ensures IsDouble(Round(x))
  {
    hide Pow2, Round;
    var m, e := RoundIsCanonical(x);
  }

  /** Two integers equally near to t, one of them its rounding: the rounding is the even one. */
  lemma HalfwayIsEven(t: real, k: int)
    requires k != RoundHalfEven(t) && Distance(t, k as real) <= Distance(t, RoundHalfEven(t) as real)
    ensures RoundHalfEven(t) % 2 == 0
  {
    var low := t.Floor;
    if k < low {
      assert k as real <= low as real - 1.0;
    } else if k > low + 1 {
      assert k as real >= low as real + 2.0;
    }
  }

  lemma UnscaleDistance(x: real, u: real, t: real, a: real, b: real)
    requires u > 0.0 && t * u == x && Distance(x, a * u) <= Distance(x, b * u)
    ensures Distance(t, a) <= Distance(t, b)
  {
    ScaleOne(t, a, u);
    ScaleOne(t, b, u);
    var near, far := Distance(t, a), Distance(t, b);
    assert Distance(t * u, a * u) == near * u;
    assert Distance(t * u, b * u) == far * u;
    assert Distance(x, a * u) == Distance(t * u, a * u);
    assert near * u <= far * u;
    Unscale(near, far, u);
  }

  /** The same on a scale of units. */
  lemma HalfwayMultiple(x: real, e: int, k: int)
    requires Distance(x, Scaled(k, e)) <= Distance(x, RoundAt(x, e)) && Scaled(k, e) != RoundAt(x, e)
    ensures RoundHalfEven(Units(x, e)) % 2 == 0
  {
    hide RoundHalfEven, Pow2, Units;
    var t := Units(x, e);
    InUnits(x, e);
    var u, r := Pow2(e), RoundHalfEven(t);
    UnscaleDistance(x, u, t, k as real, r as real);
    HalfwayIsEven(t, k);
  }

  /** When another double is just as near, the rounding is the one whose canonical significand is even. */
  lemma TiesToEven(x: real, z: real) returns (m: int, e: int)
    requires 0.0 <= x < Pow2(SIGNIFICAND_BITS) && IsDouble(z)
    requires z != Round(x) && Distance(x, z) == Distance(x, Round(x))
    ensures Canonical(Round(x), m, e) && m % 2 == 0
  {
    hide Pow2, RoundHalfEven, RoundAt, ExponentFrom, Scaled, Canonical;
    m, e := RoundIsCanonical(x);
    var f := ExponentFrom(x, MIN_EXPONENT);
    ExponentFits(x, MIN_EXPONENT);
    var k: int, g: int :| Represents(z, k, g);
    if g >= f {
      var n := CoarseIsWhole(z, k, g, f);
      HalfwayMultiple(x, f, n);
    } else {
      var n := BoundaryBetween(x, f, z, k, g);
      NearestMultiple(x, f, n);
      assert false;
    }
  }

  // ---- whole and fractional amounts that binary64 holds exactly ------------------------------------

  lemma Pow2Quarters()
    ensures Pow2(-6) == 1.0 / 64.0 && Pow2(-7) == 1.0 / 128.0
  {
  }

  lemma WholeIsDouble(n: int)
    requires 0 <= n < SAFE
    ensures IsDouble(n as real)
  {
    Pow2Safe();
    assert Represents(n as real, n, 0);
  }

  lemma FractionIsDouble(m: int, e: int)
    requires 0 <= m < SAFE && MIN_EXPONENT <= e <= 0
    ensures IsDouble(m as real * Pow2(e))
  {
    Pow2Safe();
    assert Represents(m as real * Pow2(e), m, e);
  }

  /** Whole numbers below 2^53 are not changed by rounding. */
  lemma RoundWhole(n: int)
    requires 0 <= n < SAFE
    ensures n as real < Pow2(SIGNIFICAND_BITS) && Round(n as real) == n as real
  {
    hide Round, Pow2;
    Pow2Safe();
    WholeIsDouble(n);
    RoundIsNearest(n as real, n as real);
  }
}
