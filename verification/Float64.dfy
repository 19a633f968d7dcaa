/** Rounding to nearest as 64-bit floats do it, for whichever way ties fall. */
module Float64 {
  import opened Common
  import opened Money

  // ---- Powers of two

  function Pow2(e: int): (p: real)
    ensures p > 0.0
    decreases if e < 0 then -e else e
  {
    if e == 0 then 1.0 else if e > 0 then 2.0 * Pow2(e - 1) else Pow2(e + 1) / 2.0
  }

  lemma Pow2Next(e: int)
    ensures Pow2(e + 1) == 2.0 * Pow2(e)
  {
  }

  lemma Pow2Zero()
    ensures Pow2(0) == 1.0
  {
  }

  lemma {:induction false} Pow2Sum(a: int, b: nat)
    ensures Pow2(a + b) == Pow2(a) * Pow2(b)
    decreases b
  {
    hide Pow2;
    if b == 0 {
      Pow2Zero();
    } else {
      Pow2Sum(a, b - 1);
      Pow2Next(a + (b - 1));
      Pow2Next(b - 1);
      assert a + (b - 1) + 1 == a + b;
      assert Pow2(a) * (2.0 * Pow2(b - 1)) == 2.0 * (Pow2(a) * Pow2(b - 1));
    }
  }

  lemma {:induction false} Pow2Grows(a: int, b: int)
    requires a <= b
    ensures Pow2(a) <= Pow2(b)
    decreases b - a
  {
    if a < b {
      Pow2Grows(a, b - 1);
      Pow2Next(b - 1);
    }
  }

  lemma SomePowers()
    ensures Pow2(-10) == 0.0009765625 && Pow2(-9) == 0.001953125 && Pow2(-8) == 0.00390625 && Pow2(-7) == 0.0078125
    ensures Pow2(-2) == 0.25 && Pow2(-1) == 0.5 && Pow2(0) == 1.0
    ensures Pow2(45) == 35184372088832.0 && Pow2(46) == 70368744177664.0
    ensures Pow2(51) == 2251799813685248.0 && Pow2(52) == 4503599627370496.0 && Pow2(53) == FLOAT_EXACT
    ensures Pow2(64) == 18446744073709551616.0
  {
    hide Pow2;
    Pow2Zero();
    SmallPowers();
    Pow2Sum(5, 5);
    Pow2Sum(10, 10);
    Pow2Sum(20, 20);
    Pow2Sum(40, 5);
    Pow2Next(45);
    Pow2Sum(46, 5);
    Pow2Next(51);
    Pow2Next(52);
    Pow2Sum(53, 5);
    Pow2Sum(58, 5);
    Pow2Next(63);
  }

  lemma SmallPowers()
    ensures Pow2(5) == 32.0
    ensures Pow2(-1) == 0.5 && Pow2(-2) == 0.25
    ensures Pow2(-7) == 0.0078125 && Pow2(-8) == 0.00390625 && Pow2(-9) == 0.001953125 && Pow2(-10) == 0.0009765625
  {
    hide Pow2;
    Pow2Zero();
    Pow2Next(0);
    Pow2Next(1);
    Pow2Next(2);
    Pow2Next(3);
    Pow2Next(4);
    Pow2Next(-1);
    Pow2Next(-2);
    Pow2Next(-3);
    Pow2Next(-4);
    Pow2Next(-5);
    Pow2Next(-6);
    Pow2Next(-7);
    Pow2Next(-8);
    Pow2Next(-9);
    Pow2Next(-10);
  }

  // ---- The binary64 grid

  /** The binade of a value; in it, floats lie 2^(e-52) apart. */
  predicate InBinade(x: real, e: int) { Pow2(e) <= Abs(x) < Pow2(e + 1) }

  predicate IsMultiple(y: real, unit: real)
    requires unit > 0.0
  {
    IsWhole(y / unit)
  }

  predicate InRange(x: real) { 0.001 <= Abs(x) <= 18446744073709551616.0 }

  /** Rounding to nearest over the range amounts use, where binary64 neither overflows nor underflows: the
      result is a float of the value's binade, at most half a step away (IEEE 754-2019, section 4.3.1). Of
      two floats equally near, either may be the result. */
  ghost predicate Binary64(fl: real -> real) {
    && fl(0.0) == 0.0
    && (forall x: real, e: int :: InRange(x) && InBinade(x, e) ==>
          IsMultiple(fl(x), Pow2(e - 52)) && Abs(fl(x) - x) <= Pow2(e - 53))
  }

  lemma {:induction false} BinadeBelow(x: real, e: int) returns (found: int)
    requires e >= -10 && Pow2(-10) <= Abs(x) < Pow2(e + 1)
    ensures -10 <= found <= e && InBinade(x, found)
    decreases e + 10
  {
    if Pow2(e) <= Abs(x) {
      found := e;
    } else {
      found := BinadeBelow(x, e - 1);
    }
  }

  lemma BinadeOf(x: real) returns (e: int)
    requires InRange(x)
    ensures -10 <= e <= 64 && InBinade(x, e)
  {
    hide Pow2;
    SomePowers();
    Pow2Next(64);
    e := BinadeBelow(x, 64);
  }

  lemma MultipleIs(y: real, unit: real)
    requires unit > 0.0 && IsMultiple(y, unit)
    ensures y == (y / unit).Floor as real * unit
  {
  }

  lemma AtLeastOneUnit(n: int, unit: real)
    requires unit > 0.0 && n != 0
    ensures Abs(n as real * unit) >= unit
  {
    if n > 0 {
      assert (n as real - 1.0) * unit >= 0.0;
    } else {
      assert (-(n as real) - 1.0) * unit >= 0.0;
    }
  }

  lemma Apart(j: int, k: int, unit: real)
    requires unit > 0.0 && Abs(j as real * unit - k as real * unit) < unit
    ensures j == k
  {
    var n := j - k;
    assert n as real * unit == j as real * unit - k as real * unit;
    if n != 0 {
      AtLeastOneUnit(n, unit);
    }
  }

  /** A multiple of a unit less than a unit away from another is the other. */
  lemma SameMultiple(y: real, z: real, unit: real)
    requires unit > 0.0 && IsMultiple(y, unit) && IsMultiple(z, unit) && Abs(y - z) < unit
    ensures y == z
  {
    hide IsMultiple;
    var j, k := (y / unit).Floor, (z / unit).Floor;
    MultipleIs(y, unit);
    MultipleIs(z, unit);
    Apart(j, k, unit);
  }

  // ---- What a rounding to nearest does

  lemma Rounded(fl: real -> real, x: real, e: int)
    requires Binary64(fl) && InRange(x) && InBinade(x, e)
    ensures IsMultiple(fl(x), Pow2(e - 52)) && Abs(fl(x) - x) <= Pow2(e - 53)
  {
  }

  /** If a multiple of the step is nearer than half a step, it is the result. */
  lemma RoundsToMultiple(fl: real -> real, x: real, e: int, z: real)
    requires Binary64(fl) && InRange(x) && InBinade(x, e)
    requires IsMultiple(z, Pow2(e - 52)) && Abs(z - x) < Pow2(e - 53)
    ensures fl(x) == z
  {
    hide Pow2, IsMultiple, InRange, InBinade, Binary64;
    Rounded(fl, x, e);
    Pow2Next(e - 53);
    assert e - 53 + 1 == e - 52;
    SameMultiple(fl(x), z, Pow2(e - 52));
  }

  lemma WholeIsMultiple(n: int, e: int)
    requires e <= 0
    ensures IsMultiple(n as real, Pow2(e))
  {
    hide Pow2;
    var k := WholePower(-e);
    PowersCancel(e);
    assert n as real / Pow2(e) == (n * k) as real;
  }

  lemma {:induction false} WholePower(e: nat) returns (k: int)
    ensures Pow2(e) == k as real
    decreases e
  {
    hide Pow2;
    if e == 0 {
      Pow2Zero();
      k := 1;
    } else {
      var half := WholePower(e - 1);
      Pow2Next(e - 1);
      k := 2 * half;
    }
  }

  lemma PowersCancel(e: int)
    requires e <= 0
    ensures 1.0 / Pow2(e) == Pow2(-e)
  {
    hide Pow2;
    Pow2Sum(e, -e);
    Pow2Zero();
    assert e + -e == 0;
  }

  /** Integers up to 2^53 are floats. */
  lemma WholeIsExact(fl: real -> real, x: real)
    requires Binary64(fl) && IsWhole(x) && Abs(x) <= FLOAT_EXACT
    ensures fl(x) == x
  {
    hide Pow2, IsMultiple, Binary64;
    if x == 0.0 {
      ZeroStays(fl);
    } else {
      WholeInRange(x);
      var e := BinadeOf(x);
      StepOfWhole(x, e);
      RoundsToMultiple(fl, x, e, x);
    }
  }

  lemma ZeroStays(fl: real -> real)
    requires Binary64(fl)
    ensures fl(0.0) == 0.0
  {
  }

  lemma WholeInRange(x: real)
    requires IsWhole(x) && x != 0.0 && Abs(x) <= FLOAT_EXACT
    ensures InRange(x)
  {
  }

  lemma StepOfWhole(x: real, e: int)
    requires IsWhole(x) && Abs(x) <= FLOAT_EXACT && InBinade(x, e)
    ensures IsMultiple(x, Pow2(e - 52))
  {
    hide Pow2;
    SomePowers();
    if e <= 52 {
      WholeIsMultiple(x.Floor, e - 52);
    } else {
      Pow2Grows(53, e);
      assert Abs(x) == FLOAT_EXACT;
      if e > 53 {
        Pow2Grows(54, e);
        Pow2Next(53);
      }
      Pow2Next(0);
      assert x / Pow2(1) == (if x > 0.0 then 4503599627370496 else -4503599627370496) as real;
    }
  }

  lemma StepAgainstValue(x: real, e: int)
    requires InBinade(x, e)
    ensures Pow2(e - 53) * FLOAT_EXACT <= Abs(x)
  {
    hide Pow2;
    SomePowers();
    Pow2Sum(e - 53, 53);
    assert e - 53 + 53 == e;
  }

  lemma OffByHalfAStep(fl: real -> real, x: real)
    requires Binary64(fl) && InRange(x)
    ensures Abs(fl(x) - x) * FLOAT_EXACT <= Abs(x)
  {
    hide Pow2, Binary64, IsMultiple;
    var e := BinadeOf(x);
    Rounded(fl, x, e);
    StepAgainstValue(x, e);
    assert Abs(fl(x) - x) * FLOAT_EXACT <= Pow2(e - 53) * FLOAT_EXACT;
  }

  /** The error bound the general results use. */
  lemma Binary64IsNearest(fl: real -> real)
    requires Binary64(fl)
    ensures Nearest(fl)
  {
    hide Binary64;
    forall x: real
      ensures IsWhole(x) && Abs(x) <= FLOAT_EXACT ==> fl(x) == x
      ensures InRange(x) ==> Abs(fl(x) - x) * FLOAT_EXACT <= Abs(x)
    {
      if IsWhole(x) && Abs(x) <= FLOAT_EXACT {
        WholeIsExact(fl, x);
      }
      if InRange(x) {
        OffByHalfAStep(fl, x);
      }
    }
  }

  lemma EvenMultiple(y: real, e: int)
    requires e >= 1 && IsMultiple(y, Pow2(e))
    ensures IsEven(y)
  {
    hide Pow2;
    var k := WholePower(e - 1);
    Pow2Next(e - 1);
    MultipleIs(y, Pow2(e));
    var j := (y / Pow2(e)).Floor;
    assert y == (2 * (j * k)) as real;
  }

  lemma TopOfBinade(fl: real -> real, x: real, e: int)
    requires Binary64(fl) && InRange(x) && InBinade(x, e) && e <= 52 && FLOAT_EXACT <= Abs(fl(x))
    ensures fl(x) == FLOAT_EXACT || fl(x) == -FLOAT_EXACT
  {
    hide Pow2, IsMultiple, Binary64;
    Rounded(fl, x, e);
    SomePowers();
    Pow2Grows(e + 1, 53);
    Pow2Next(e - 53);
    assert e - 53 + 1 == e - 52;
    var top: int := if x > 0.0 then 9007199254740992 else -9007199254740992;
    WholeIsMultiple(top, e - 52);
    SameMultiple(fl(x), top as real, Pow2(e - 52));
  }

  /** From 2^53 to 2^54 every result is even. */
  lemma Binary64IsCoarse(fl: real -> real)
    requires Binary64(fl)
    ensures Coarse(fl)
  {
    hide Binary64, IsEven;
    forall x: real | InRange(x) && FLOAT_EXACT <= Abs(fl(x)) <= 2.0 * FLOAT_EXACT
      ensures IsEven(fl(x))
    {
      EvenResult(fl, x);
    }
  }

  lemma EvenResult(fl: real -> real, x: real)
    requires Binary64(fl) && InRange(x) && FLOAT_EXACT <= Abs(fl(x))
    ensures IsEven(fl(x))
  {
    hide Binary64, Pow2, IsMultiple;
    var e := BinadeOf(x);
    Rounded(fl, x, e);
    if e <= 52 {
      TopOfBinade(fl, x, e);
    } else {
      EvenMultiple(fl(x), e - 52);
    }
  }

  // ---- The first amount that is lost

  /** 100 * 2^45 major and minor units: up to here a hundredth lies below 2^45, where the step is 2^-8. */
  const LAST_FINE := 3518437208883200

  const FIRST_LOST := 3518437208883202

  lemma FineHundredth(fl: real -> real, x: real)
    requires Binary64(fl) && InRange(x) && Abs(x) < 35184372088832.0
    ensures Abs(fl(x) - x) <= 0.001953125
  {
    hide Pow2, Binary64, IsMultiple;
    var e := BinadeOf(x);
    Rounded(fl, x, e);
    SomePowers();
    if e >= 45 {
      Pow2Grows(45, e);
    }
    Pow2Grows(e - 53, -9);
  }

  lemma FineAmount(fl: real -> real, x: real)
    requires Binary64(fl) && InRange(x) && Abs(x) < 4503599627370496.0
    ensures Abs(fl(x) - x) <= 0.25
  {
    hide Pow2, Binary64, IsMultiple;
    var e := BinadeOf(x);
    Rounded(fl, x, e);
    SomePowers();
    if e >= 52 {
      Pow2Grows(52, e);
    }
    Pow2Grows(e - 53, -2);
  }

  lemma NewMoneyNear(go: Machine, major: real, m: Int64)
    requires Abs(go.fl(major * 100.0) - m as real) < 0.5
    ensures NewMoney(go, major) == m
  {
    RoundsTo(go.fl(major * 100.0), m);
  }

  lemma MajorIsOneRounding(go: Machine, m: Int64)
    requires Binary64(go.fl) && -9007199254740992 <= m <= 9007199254740992
    ensures Major(go, m) == go.fl(m as real / 100.0)
  {
    hide Binary64;
    assert IsWhole(m as real);
    WholeIsExact(go.fl, m as real);
  }

  lemma HundredthScales(x: real, a: real)
    requires Abs(a - x / 100.0) <= 0.001953125
    ensures Abs(a * 100.0 - x) <= 0.1953125
  {
    assert a * 100.0 - x == (a - x / 100.0) * 100.0;
  }

  lemma FineComesBack(go: Machine, m: Int64)
    requires Binary64(go.fl) && -LAST_FINE < m < LAST_FINE
    ensures NewMoney(go, Major(go, m)) == m
  {
    hide Binary64, NewMoney, Major;
    var x := m as real;
    MajorIsOneRounding(go, m);
    if m == 0 {
      ZeroStays(go.fl);
      assert 0.0 / 100.0 == 0.0 && 0.0 * 100.0 == 0.0;
    } else {
      assert InRange(x / 100.0) && Abs(x / 100.0) < 35184372088832.0;
      var a := go.fl(x / 100.0);
      FineHundredth(go.fl, x / 100.0);
      HundredthScales(x, a);
      assert InRange(a * 100.0) && Abs(a * 100.0) < 4503599627370496.0;
      FineAmount(go.fl, a * 100.0);
    }
    NewMoneyNear(go, Major(go, m), m);
  }

  lemma WholeComesBack(go: Machine, m: Int64)
    requires Binary64(go.fl) && m % 100 == 0 && -9007199254740992 <= m <= 9007199254740992
    ensures NewMoney(go, Major(go, m)) == m
  {
    hide Binary64;
    Binary64IsNearest(go.fl);
    WholeMajorUnits(go, m);
  }

  /** A value between 2^45 and 2^46 goes to the nearest multiple of 2^-7. */
  lemma CoarseHundredth(fl: real -> real, x: real, k: int)
    requires Binary64(fl) && 35184372088832.0 <= Abs(x) < 70368744177664.0
    requires Abs(k as real * 0.0078125 - x) < 0.00390625
    ensures fl(x) == k as real * 0.0078125
  {
    hide Pow2, Binary64, IsMultiple;
    SomePowers();
    MultipleOf(k, 0.0078125);
    RoundsToMultiple(fl, x, 45, k as real * 0.0078125);
  }

  /** A value between 2^51 and 2^52 goes to the nearest half. */
  lemma CoarseAmount(fl: real -> real, x: real, k: int)
    requires Binary64(fl) && 2251799813685248.0 <= Abs(x) < 4503599627370496.0
    requires Abs(k as real * 0.5 - x) < 0.25
    ensures fl(x) == k as real * 0.5
  {
    hide Pow2, Binary64, IsMultiple;
    SomePowers();
    MultipleOf(k, 0.5);
    RoundsToMultiple(fl, x, 51, k as real * 0.5);
  }

  lemma MultipleOf(k: int, unit: real)
    requires unit > 0.0
    ensures IsMultiple(k as real * unit, unit)
  {
    assert k as real * unit / unit == k as real;
  }

  /** One more comes back: the two roundings happen to cancel. */
  lemma OneMoreComesBack(go: Machine, m: Int64)
    requires Binary64(go.fl) && (m == LAST_FINE + 1 || m == -LAST_FINE - 1)
    ensures NewMoney(go, Major(go, m)) == m
  {
    hide Binary64, NewMoney, Major;
    var s: int := if m > 0 then 1 else -1;
    MajorIsOneRounding(go, m);
    CoarseHundredth(go.fl, m as real / 100.0, s * 4503599627370497);
    CoarseAmount(go.fl, Major(go, m) * 100.0, s * 7036874417766402);
    NewMoneyNear(go, Major(go, m), m);
  }

  /** The next is off by a half after both roundings, and goes up. */
  lemma FirstLost(go: Machine)
    requires Binary64(go.fl)
    ensures NewMoney(go, Major(go, FIRST_LOST)) == FIRST_LOST + 1
  {
    hide Binary64, Major;
    MajorIsOneRounding(go, FIRST_LOST);
    CoarseHundredth(go.fl, FIRST_LOST as real / 100.0, 4503599627370499);
    CoarseAmount(go.fl, Major(go, FIRST_LOST) * 100.0, 7036874417766405);
  }

  /** Every amount up to a limit, of either sign, comes back through major units if and only if the limit
      is below 3518437208883202, for any way of breaking ties. */
  lemma RoundTripExactly(go: Machine, limit: Int64)
    requires Binary64(go.fl) && limit >= 0
    ensures (forall m: Int64 :: -limit <= m <= limit ==> NewMoney(go, Major(go, m)) == m) <==> limit < FIRST_LOST
  {
    hide Binary64, NewMoney, Major;
    if limit < FIRST_LOST {
      forall m: Int64 | -limit <= m <= limit
        ensures NewMoney(go, Major(go, m)) == m
      {
        if -LAST_FINE < m < LAST_FINE {
          FineComesBack(go, m);
        } else if m == LAST_FINE || m == -LAST_FINE {
          WholeComesBack(go, m);
        } else {
          OneMoreComesBack(go, m);
        }
      }
    } else {
      FirstLost(go);
      var lost: Int64 := FIRST_LOST;
      assert NewMoney(go, Major(go, lost)) != lost;
    }
  }

  /** The same through text: ParseMoney(m.String()). */
  lemma ParseRoundTripExactly(go: Machine, r: Readers, limit: Int64)
    requires Binary64(go.fl) && Standard(r) && limit >= 0
    ensures (forall m: Int64 :: -limit <= m <= limit ==> ParseMoney(go, r, Printed(m)) == Some(m))
            <==> limit < FIRST_LOST
  {
    hide Binary64, NewMoney, Major, ParseMoney, Printed, Standard;
    RoundTripExactly(go, limit);
    if limit < FIRST_LOST {
      forall m: Int64 | -limit <= m <= limit
        ensures ParseMoney(go, r, Printed(m)) == Some(m)
      {
        ParsesLikeMajor(go, r, m);
      }
    } else {
      var lost: Int64 := FIRST_LOST;
      FirstLost(go);
      ParsesLikeMajor(go, r, lost);
      assert ParseMoney(go, r, Printed(lost)) != Some(lost);
    }
  }

  lemma ParsesLikeMajor(go: Machine, r: Readers, m: Int64)
    requires Binary64(go.fl) && Standard(r) && -9007199254740992 <= m <= 9007199254740992
    ensures ParseMoney(go, r, Printed(m)) == Some(NewMoney(go, Major(go, m)))
  {
    hide Binary64, Reading, Printed, ValueOf, IsJsonNumber, IsPlain, NewMoney, Major;
    PrintsExactly(m);
    TwoPlaces(m);
    MajorIsOneRounding(go, m);
  }

  // ---- There is such a rounding

  lemma {:induction false} OneBinade(x: real, e: int, f: int)
    requires InBinade(x, e) && InBinade(x, f)
    ensures e == f
  {
    hide Pow2;
    if e < f {
      Pow2Grows(e + 1, f);
    } else if f < e {
      Pow2Grows(f + 1, e);
    }
  }

  /** Ties go up. */
  ghost function HalfUp(x: real): real {
    if !InRange(x) then x
    else
      assert exists e :: InBinade(x, e) by { var e := BinadeOf(x); }
      var e :| InBinade(x, e);
      (x / Pow2(e - 52) + 0.5).Floor as real * Pow2(e - 52)
  }

  lemma NotNegative(a: real, b: real)
    requires a >= 0.0 && b >= 0.0
    ensures a * b >= 0.0
  {
  }

  lemma HalfOfUnit(off: real, unit: real)
    requires -0.5 <= off <= 0.5 && unit > 0.0
    ensures Abs(off * unit) <= unit / 2.0
  {
    NotNegative(0.5 - off, unit);
    NotNegative(off + 0.5, unit);
    assert (0.5 - off) * unit == unit / 2.0 - off * unit;
    assert (off + 0.5) * unit == off * unit + unit / 2.0;
  }

  lemma NearestMultiple(x: real, unit: real, k: int)
    requires unit > 0.0 && k == (x / unit + 0.5).Floor
    ensures IsMultiple(k as real * unit, unit) && Abs(k as real * unit - x) <= unit / 2.0
  {
    hide IsMultiple;
    MultipleOf(k, unit);
    var off := k as real - x / unit;
    assert -0.5 <= off <= 0.5;
    assert k as real * unit - x == off * unit by {
      assert x / unit * unit == x;
    }
    HalfOfUnit(off, unit);
  }

  lemma HalfUpAt(x: real, e: int)
    requires InRange(x) && InBinade(x, e)
    ensures HalfUp(x) == (x / Pow2(e - 52) + 0.5).Floor as real * Pow2(e - 52)
  {
    hide Pow2, InRange;
    var f :| InBinade(x, f) && HalfUp(x) == (x / Pow2(f - 52) + 0.5).Floor as real * Pow2(f - 52);
    OneBinade(x, e, f);
  }

  lemma HalfUpIsNear(x: real, e: int)
    requires InRange(x) && InBinade(x, e)
    ensures IsMultiple(HalfUp(x), Pow2(e - 52)) && Abs(HalfUp(x) - x) <= Pow2(e - 53)
  {
    hide Pow2, InRange, InBinade, IsMultiple, HalfUp;
    HalfUpAt(x, e);
    var unit := Pow2(e - 52);
    var k := (x / unit + 0.5).Floor;
    NearestMultiple(x, unit, k);
    assert HalfUp(x) == k as real * unit;
    Pow2Next(e - 53);
    assert e - 53 + 1 == e - 52;
  }

  lemma HalfUpIsBinary64()
    ensures Binary64(x => HalfUp(x))
  {
    hide Pow2, InBinade, IsMultiple;
    var fl := x => HalfUp(x);
    assert fl(0.0) == 0.0;
    hide HalfUp, InRange;
    forall x: real, e: int | InRange(x) && InBinade(x, e)
      ensures IsMultiple(fl(x), Pow2(e - 52)) && Abs(fl(x) - x) <= Pow2(e - 53)
    {
      HalfUpIsNear(x, e);
    }
  }
}
