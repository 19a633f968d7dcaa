/** Amounts in minor units: printed exactly, and carried through 64-bit floats and back. */
module Money {
  import opened Common

  const MINOR_UNITS := 100

  // ---- Decimal numerals

  predicate IsDigit(c: char) { '0' <= c <= '9' }

  predicate AllDigits(s: string) { s != "" && forall i :: 0 <= i < |s| ==> IsDigit(s[i]) }

  function DigitOf(n: nat): char
    requires n < 10
  {
    '0' + n as char
  }

  function Digits(n: nat): string {
    if n < 10 then [DigitOf(n)] else Digits(n / 10) + [DigitOf(n % 10)]
  }

  function NatOf(s: string): nat
    requires forall i :: 0 <= i < |s| ==> IsDigit(s[i])
  {
    if s == "" then 0
    else
      assert IsDigit(s[|s| - 1]);
      10 * NatOf(s[..|s| - 1]) + (s[|s| - 1] - '0') as nat
  }

  /** A decimal number: `units` counts the last of its `places`. */
  datatype Decimal = Decimal(units: int, places: nat)

  function IndexOf(s: string, c: char): (i: nat)
    ensures i <= |s|
    ensures i < |s| ==> s[i] == c
    ensures c !in s[..i]
  {
    if s == "" || s[0] == c then 0
    else
      var i := 1 + IndexOf(s[1..], c);
      assert s[..i] == [s[0]] + s[1..][..i - 1];
      i
  }

  predicate IsNegative(s: string) { s != "" && s[0] == '-' }

  function Unsigned(s: string): string { if IsNegative(s) then s[1..] else s }

  /** What a plain decimal says, exactly: a sign or none, digits, a point, digits. */
  function Reading(s: string): Option<Decimal> {
    var negative := IsNegative(s);
    var body := Unsigned(s);
    var point := IndexOf(body, '.');
    if point == |body| then None
    else
      var whole, fraction := body[..point], body[point + 1..];
      if !AllDigits(whole) || !AllDigits(fraction) then None
      else
        var units: int := NatOf(whole + fraction);
        Some(Decimal(if negative then -units else units, |fraction|))
  }

  // ---- String

  /** Go's integer division and remainder, which truncate toward zero. */
  function Quo(a: int, b: int): int
    requires b > 0
  {
    if a >= 0 then a / b else -((-a) / b)
  }

  function Rem(a: int, b: int): int
    requires b > 0
  {
    a - b * Quo(a, b)
  }

  /** The verb %d. */
  function Show(v: int): string {
    if v < 0 then "-" + Digits(-v) else Digits(v)
  }

  /** The verb %02d: the sign counts toward the width. */
  function ShowTwo(v: int): string {
    if 0 <= v < 10 then "0" + Digits(v) else Show(v)
  }

  /** An amount's text: a minus sign if negative, the major units, a point, two digits. The one amount
      without a positive counterpart comes out malformed, as --92233720368547758.-8. */
  function Printed(m: Int64): string {
    if m == INT64_MIN then "--" + Digits(92233720368547758) + ".-8"
    else
      var v: nat := if m < 0 then -m else m;
      (if m < 0 then "-" else "") + Digits(v / 100) + "." + [DigitOf(v % 100 / 10), DigitOf(v % 10)]
  }

  lemma TwoDigits(v: nat)
    requires v < 100
    ensures ShowTwo(v) == [DigitOf(v / 10), DigitOf(v % 10)]
  {
    if v < 10 {
      assert "0" + Digits(v) == [DigitOf(0), DigitOf(v)];
    } else {
      assert Digits(v / 10) == [DigitOf(v / 10)];
      assert Show(v) == [DigitOf(v / 10)] + [DigitOf(v % 10)];
    }
  }

  /** Negating the least int64 leaves it as it is. */
  lemma NegatedMinimum()
    ensures Wrap64(-INT64_MIN) == INT64_MIN
  {
  }

  method String(m: Int64) returns (s: string)
    ensures s == Printed(m)
  {
    hide Digits, Printed, ShowTwo, Show, Quo, Rem;
    var sign, v: int := "", m;
    if v < 0 {
      NegatedMinimum();
      sign, v := "-", Wrap64(-v);
    }
    s := sign + Show(Quo(v, MINOR_UNITS)) + "." + ShowTwo(Rem(v, MINOR_UNITS));
    if m == INT64_MIN {
      MinimumText();
    } else {
      OrdinaryText(m, v);
    }
  }

  lemma OrdinaryText(m: Int64, v: nat)
    requires m != INT64_MIN && v == if m < 0 then -(m as int) else m as int
    ensures (if m < 0 then "-" else "") + Show(Quo(v, 100)) + "." + ShowTwo(Rem(v, 100)) == Printed(m)
  {
    hide Digits, ShowTwo;
    assert Quo(v, 100) == v / 100 && Rem(v, 100) == v % 100;
    assert v % 100 % 10 == v % 10;
    TwoDigits(v % 100);
  }

  lemma MinusEight()
    ensures ShowTwo(-8) == "-8"
  {
    assert Digits(8) == [DigitOf(8)];
  }

  lemma MinimumText()
    ensures "-" + Show(Quo(INT64_MIN, 100)) + "." + ShowTwo(Rem(INT64_MIN, 100)) == Printed(INT64_MIN)
  {
    hide Digits, ShowTwo;
    assert Quo(INT64_MIN, 100) == -92233720368547758 && Rem(INT64_MIN, 100) == -8;
    MinusEight();
    var whole := Digits(92233720368547758);
    assert "-" + ("-" + whole) + "." + "-8" == "--" + whole + ".-8";
  }

  // ---- What is printed reads back exactly

  lemma {:induction false} DigitsRead(n: nat)
    ensures AllDigits(Digits(n)) && NatOf(Digits(n)) == n
    ensures Digits(n)[0] == '0' ==> n == 0 && |Digits(n)| == 1
  {
    if n >= 10 {
      DigitsRead(n / 10);
      var front := Digits(n / 10);
      assert (front + [DigitOf(n % 10)])[..|front|] == front;
    }
  }

  lemma NatOfAppend(s: string, d: nat)
    requires d < 10 && forall i :: 0 <= i < |s| ==> IsDigit(s[i])
    ensures NatOf(s + [DigitOf(d)]) == 10 * NatOf(s) + d
  {
    assert (s + [DigitOf(d)])[..|s|] == s;
  }

  lemma {:induction false} PointAfterDigits(whole: string, rest: string)
    requires forall i :: 0 <= i < |whole| ==> IsDigit(whole[i])
    ensures IndexOf(whole + "." + rest, '.') == |whole|
  {
    if whole != "" {
      PointAfterDigits(whole[1..], rest);
      assert (whole + "." + rest)[1..] == whole[1..] + "." + rest;
      assert IsDigit(whole[0]);
    }
  }

  lemma LastTwo(v: nat)
    ensures v % 100 == 10 * (v % 100 / 10) + v % 10 && v % 100 / 10 < 10
  {
  }

  lemma FractionReads(whole: string, v: nat)
    requires AllDigits(whole)
    ensures var fraction := [DigitOf(v % 100 / 10), DigitOf(v % 10)];
            AllDigits(fraction) && AllDigits(whole + fraction)
              && NatOf(whole + fraction) == 100 * NatOf(whole) + v % 100
  {
    hide NatOf;
    LastTwo(v);
    var tens, ones := v % 100 / 10, v % 10;
    NatOfAppend(whole, tens);
    NatOfAppend(whole + [DigitOf(tens)], ones);
    assert whole + [DigitOf(tens), DigitOf(ones)] == whole + [DigitOf(tens)] + [DigitOf(ones)];
  }

  lemma PartsRead(s: string, whole: string, fraction: string, units: int)
    requires AllDigits(whole) && AllDigits(fraction) && AllDigits(whole + fraction)
    requires Unsigned(s) == whole + "." + fraction
    requires units == if IsNegative(s) then -(NatOf(whole + fraction) as int) else NatOf(whole + fraction)
    ensures Reading(s) == Some(Decimal(units, |fraction|))
  {
    hide NatOf, IndexOf, IsNegative, Unsigned, IsDigit;
    var body := Unsigned(s);
    PointAfterDigits(whole, fraction);
    assert body[..|whole|] == whole && body[|whole| + 1..] == fraction;
  }

  lemma PositiveReads(v: nat, signed: int, negative: bool)
    requires signed == if negative then -(v as int) else v
    ensures Reading((if negative then "-" else "") + Digits(v / 100) + "." + [DigitOf(v % 100 / 10), DigitOf(v % 10)])
            == Some(Decimal(signed, 2))
  {
    hide Digits, NatOf, Reading;
    var whole, fraction := Digits(v / 100), [DigitOf(v % 100 / 10), DigitOf(v % 10)];
    var s := (if negative then "-" else "") + whole + "." + fraction;
    DigitsRead(v / 100);
    FractionReads(whole, v);
    assert Unsigned(s) == whole + "." + fraction;
    PartsRead(s, whole, fraction, signed);
  }

  lemma MinusIsNoDigit(s: string)
    requires s != "" && s[0] == '-'
    ensures !AllDigits(s)
  {
    assert !IsDigit(s[0]);
  }

  lemma MinimumDoesNotRead()
    ensures Reading(Printed(INT64_MIN)) == None
  {
    hide Digits, NatOf, AllDigits;
    var s := Printed(INT64_MIN);
    assert s[0] == '-' && s[1] == '-';
    var body := Unsigned(s);
    assert body[0] == '-';
    var point := IndexOf(body, '.');
    assert point > 0;
    MinusIsNoDigit(body[..point]);
  }

  /** An amount's text, read as a decimal, is the amount to the last digit, with two places: for every
      int64 but the least, whose text is no decimal at all. */
  lemma PrintsExactly(m: Int64)
    ensures Reading(Printed(m)) == Some(Decimal(m, 2)) <==> m != INT64_MIN
  {
    hide Reading, Digits;
    if m == INT64_MIN {
      MinimumDoesNotRead();
    } else {
      PositiveReads(if m < 0 then -m else m, m, m < 0);
    }
  }

  /** No two amounts print alike, the least int64 included. */
  lemma PrintingIsInjective(m: Int64, n: Int64)
    ensures Printed(m) == Printed(n) <==> m == n
  {
    hide Reading, Printed;
    PrintsExactly(m);
    PrintsExactly(n);
    MinimumDoesNotRead();
  }

  // ---- Through 64-bit floats

  /** The largest integer up to which a 64-bit float holds every one. */
  const FLOAT_EXACT := 9007199254740992.0

  function Abs(x: real): real { if x < 0.0 then -x else x }

  predicate IsWhole(x: real) { x.Floor as real == x }

  /** IEEE 754 rounding to nearest, where it neither overflows nor underflows: integers up to 2^53 are
      exact, and any other value is off by at most 2^-53 of itself (IEEE 754-2019, section 4.3.1). */
  ghost predicate Nearest(fl: real -> real) {
    && (forall x: real :: IsWhole(x) && Abs(x) <= FLOAT_EXACT ==> fl(x) == x)
    && (forall x: real :: 0.001 <= Abs(x) <= 18446744073709551616.0 ==> Abs(fl(x) - x) * FLOAT_EXACT <= Abs(x))
  }

  /** math.Round: half away from zero. */
  function Round(x: real): int {
    if x >= 0.0 then (x + 0.5).Floor else -((-x + 0.5).Floor)
  }

  /** Out of int64 range, Go leaves the conversion to the platform. */
  datatype Machine = Machine(fl: real -> real, overflow: real -> Int64)

  function NewMoney(go: Machine, major: real): Int64 {
    var n := Round(go.fl(major * 100.0));
    if INT64_MIN <= n <= INT64_MAX then n else go.overflow(go.fl(major * 100.0))
  }

  function Major(go: Machine, m: Int64): real {
    go.fl(go.fl(m as real) / 100.0)
  }

  /** A major amount becomes the minor amount nearest to what the float product says, and of two equally near ones
      the one farther from zero. */
  lemma NewMoneyRoundsHalfAway(go: Machine, major: real)
    requires Abs(go.fl(major * 100.0)) < 9223372036854775807.0
    ensures var x := go.fl(major * 100.0);
            var n := NewMoney(go, major) as real;
            Abs(n - x) <= 0.5 && (Abs(n - x) == 0.5 ==> Abs(n) > Abs(x))
  {
    RoundIsNear(go.fl(major * 100.0));
  }

  lemma RoundIsNear(x: real)
    ensures var n := Round(x) as real;
            Abs(n - x) <= 0.5 && (Abs(n - x) == 0.5 ==> Abs(n) > Abs(x))
  {
    var y := Abs(x);
    var f := (y + 0.5).Floor;
    assert f as real <= y + 0.5 < f as real + 1.0;
    assert Round(x) as real == if x >= 0.0 then f as real else -(f as real);
  }

  lemma RoundsTo(x: real, n: int)
    requires Abs(x - n as real) < 0.5
    ensures Round(x) == n
  {
  }

  lemma Together(m: real, p: real, b: real)
    requires 1.0 <= Abs(m) <= 2251799813685247.0
    requires Abs(p - m) * FLOAT_EXACT <= Abs(m) && Abs(b - p) * FLOAT_EXACT <= Abs(p)
    ensures Abs(b - m) < 0.5
  {
  }

  lemma Scaled(m: real, a: real)
    requires Abs(a - m / 100.0) * FLOAT_EXACT <= Abs(m / 100.0)
    ensures Abs(a * 100.0 - m) * FLOAT_EXACT <= Abs(m)
  {
    assert a * 100.0 - m == (a - m / 100.0) * 100.0;
  }

  lemma StaysInRange(m: real, p: real)
    requires 1.0 <= Abs(m) <= 2251799813685247.0 && Abs(p - m) * FLOAT_EXACT <= Abs(m)
    ensures 0.001 <= Abs(p) <= 18446744073709551616.0
  {
  }

  lemma OffByLittle(fl: real -> real, x: real)
    requires Nearest(fl) && 0.001 <= Abs(x) <= 18446744073709551616.0
    ensures Abs(fl(x) - x) * FLOAT_EXACT <= Abs(x)
  {
  }

  lemma Hundredth(x: real)
    requires 1.0 <= Abs(x) <= 2251799813685247.0
    ensures 0.001 <= Abs(x / 100.0) <= 18446744073709551616.0
  {
  }

  lemma TwoRoundingsOf(fl: real -> real, x: real)
    requires Nearest(fl) && 1.0 <= Abs(x) <= 2251799813685247.0
    ensures Abs(fl(fl(x / 100.0) * 100.0) - x) < 0.5
  {
    hide Nearest, Abs;
    var a := fl(x / 100.0);
    Hundredth(x);
    OffByLittle(fl, x / 100.0);
    Scaled(x, a);
    StaysInRange(x, a * 100.0);
    OffByLittle(fl, a * 100.0);
    Together(x, a * 100.0, fl(a * 100.0));
  }

  lemma Zero(fl: real -> real)
    requires Nearest(fl)
    ensures fl(fl(0.0 / 100.0) * 100.0) == 0.0
  {
    assert IsWhole(0.0);
  }

  /** Two roundings of an amount below 2^51 stay strictly within half a minor unit. */
  lemma TwoRoundings(fl: real -> real, m: Int64)
    requires Nearest(fl) && -0x8_0000_0000_0000 < m < 0x8_0000_0000_0000
    ensures Abs(fl(fl(m as real / 100.0) * 100.0) - m as real) < 0.5
  {
    hide Nearest;
    if m == 0 {
      Zero(fl);
    } else {
      TwoRoundingsOf(fl, m as real);
    }
  }

  lemma SmallIsExact(fl: real -> real, m: Int64)
    requires Nearest(fl) && -0x8_0000_0000_0000 < m < 0x8_0000_0000_0000
    ensures fl(m as real) == m as real
  {
    assert IsWhole(m as real);
  }

  /** Below 2^51 an amount survives the float exactly. */
  lemma MajorRoundTrip(go: Machine, m: Int64)
    requires Nearest(go.fl) && -0x8_0000_0000_0000 < m < 0x8_0000_0000_0000
    ensures NewMoney(go, Major(go, m)) == m
  {
    hide Nearest, Abs, Round;
    TwoRoundings(go.fl, m);
    SmallIsExact(go.fl, m);
    RoundsTo(go.fl(go.fl(m as real / 100.0) * 100.0), m);
  }

  // ---- Through text

  function PowerOfTen(n: nat): (p: real)
    ensures p > 0.0
  {
    if n == 0 then 1.0 else 10.0 * PowerOfTen(n - 1)
  }

  function ValueOf(d: Decimal): real { d.units as real / PowerOfTen(d.places) }

  /** No superfluous zero in front. */
  predicate IsJsonNumber(s: string) {
    var whole := Unsigned(s)[..IndexOf(Unsigned(s), '.')];
    Reading(s).Some? && (whole != "" && whole[0] == '0' ==> whole == "0")
  }

  /** The characters amounts are written in. */
  predicate IsPlain(s: string) {
    forall i :: 0 <= i < |s| ==> IsDigit(s[i]) || s[i] == '.' || s[i] == '-'
  }

  /** The libraries' readers: strconv.ParseFloat before rounding, and json.Unmarshal into a number and
      into a string. */
  datatype Readers = Readers(float: string -> Option<real>, number: string -> Option<real>,
    text: string -> Option<string>)

  /** A value a float can hold without overflowing. */
  predicate Representable(s: string) {
    Reading(s).Some? && Abs(ValueOf(Reading(s).value)) <= 18446744073709551616.0
  }

  /** They read at least plain decimals of moderate size, at their exact value, and plain strings; two signs
      are an error, and so is a quoted number. */
  ghost predicate Standard(r: Readers) {
    && (forall s :: Representable(s) ==> r.float(s) == Some(ValueOf(Reading(s).value)))
    && (forall s :: Representable(s) && IsJsonNumber(s) ==> r.number(s) == Some(ValueOf(Reading(s).value)))
    && (forall s :: |s| > 1 && s[..2] == "--" ==> r.float(s).None? && r.number(s).None? && r.text(s).None?)
    && (forall s :: IsPlain(s) ==> r.text(Quoted(s)) == Some(s) && r.number(Quoted(s)).None?)
  }

  function Quoted(s: string): string { "\"" + s + "\"" }

  /** The least such readers. */
  function PlainReaders(): Readers {
    Readers(
      s => if Representable(s) then Some(ValueOf(Reading(s).value)) else None,
      s => if Representable(s) && IsJsonNumber(s) then Some(ValueOf(Reading(s).value)) else None,
      s => if |s| >= 2 && s == Quoted(s[1..|s| - 1]) && IsPlain(s[1..|s| - 1]) then Some(s[1..|s| - 1]) else None)
  }

  lemma NoDigitNoReading(s: string)
    requires s != "" && (s[0] == '"' || (|s| > 1 && s[..2] == "--"))
    ensures Reading(s) == None
  {
    hide NatOf;
    assert s[0] == '"' || s[1] == s[..2][1] == '-';
    var body := Unsigned(s);
    var point := IndexOf(body, '.');
    assert !IsDigit(body[0]) && body[0] != '.';
    if point < |body| {
      assert body[..point] != "" && body[..point][0] == body[0];
    }
  }

  /** There are readers that meet the standard. */
  lemma PlainReadersAreStandard()
    ensures Standard(PlainReaders())
  {
    hide Reading, ValueOf, IsJsonNumber;
    forall s: string | |s| > 1 && s[..2] == "--"
      ensures Reading(s) == None && s[0] != '"'
    {
      NoDigitNoReading(s);
      assert s[0] == s[..2][0];
    }
    forall s: string
      ensures Reading(Quoted(s)) == None && Quoted(s)[1..|Quoted(s)| - 1] == s
    {
      NoDigitNoReading(Quoted(s));
    }
  }

  function ParseMoney(go: Machine, r: Readers, s: string): Option<Int64> {
    match r.float(s)
    case None => None
    case Some(x) => Some(NewMoney(go, go.fl(x)))
  }

  lemma TwoPlaces(m: int)
    ensures ValueOf(Decimal(m, 2)) == m as real / 100.0
  {
    assert PowerOfTen(1) == 10.0 && PowerOfTen(2) == 100.0;
  }

  /** An amount below 2^51 parses back from its text exactly; the least int64's text is refused. */
  lemma ParseRoundTrip(go: Machine, r: Readers, m: Int64)
    requires Nearest(go.fl) && Standard(r)
    ensures -0x8_0000_0000_0000 < m < 0x8_0000_0000_0000 ==> ParseMoney(go, r, Printed(m)) == Some(m)
    ensures ParseMoney(go, r, Printed(m)).None? <==> m == INT64_MIN
  {
    PrintsExactly(m);
    TwoPlaces(m);
    if m == INT64_MIN {
      TwoSigns();
    }
    hide Nearest, Reading, Printed, ValueOf, IsJsonNumber, IsPlain;
    if -0x8_0000_0000_0000 < m < 0x8_0000_0000_0000 {
      MajorRoundTrip(go, m);
      SmallIsExact(go.fl, m);
    }
  }

  lemma TwoSigns()
    ensures |Printed(INT64_MIN)| > 1 && Printed(INT64_MIN)[..2] == "--"
  {
    hide Digits;
  }

  // ---- Through JSON

  function Unmarshalled(go: Machine, r: Readers, data: string): Option<Int64> {
    match r.number(data)
    case Some(x) => Some(NewMoney(go, go.fl(x)))
    case None =>
      match r.text(data)
      case Some(s) => ParseMoney(go, r, s)
      case None => None
  }

  /** A Money variable: UnmarshalJSON writes through its receiver. */
  class MoneyVariable {
    var minor: Int64

    constructor (minor: Int64)
      ensures this.minor == minor
    {
      this.minor := minor;
    }

    method MarshalJSON() returns (data: string)
      ensures data == Printed(minor)
    {
      data := String(minor);
    }

    method UnmarshalJSON(go: Machine, r: Readers, data: string) returns (ok: bool)
      modifies this
      ensures ok == Unmarshalled(go, r, data).Some?
      ensures minor == if ok then Unmarshalled(go, r, data).value else old(minor)
    {
      var major := r.number(data);
      if major.Some? {
        minor := NewMoney(go, go.fl(major.value));
        return true;
      }
      var s := r.text(data);
      if s.None? {
        return false;
      }
      var parsed := ParseMoney(go, r, s.value);
      if parsed.None? {
        return false;
      }
      minor := parsed.value;
      return true;
    }
  }

  lemma WholePart(s: string, whole: string, fraction: string)
    requires AllDigits(whole) && Unsigned(s) == whole + "." + fraction
    ensures Unsigned(s)[..IndexOf(Unsigned(s), '.')] == whole
  {
    hide IndexOf;
    PointAfterDigits(whole, fraction);
  }

  lemma PlainParts(negative: bool, whole: string, fraction: string)
    requires AllDigits(whole) && AllDigits(fraction)
    ensures var s := (if negative then "-" else "") + whole + "." + fraction;
            IsPlain(s) && Unsigned(s) == whole + "." + fraction
  {
  }

  lemma OrdinaryIsJson(m: Int64)
    requires m != INT64_MIN
    ensures IsJsonNumber(Printed(m)) && IsPlain(Printed(m))
  {
    hide Digits, NatOf, Reading, IndexOf, AllDigits, Unsigned, IsPlain;
    PrintsExactly(m);
    var v: nat := if m < 0 then -m else m;
    var whole, fraction := Digits(v / 100), [DigitOf(v % 100 / 10), DigitOf(v % 10)];
    DigitsRead(v / 100);
    FractionReads(whole, v);
    PlainParts(m < 0, whole, fraction);
    WholePart(Printed(m), whole, fraction);
    if whole[0] == '0' {
      assert whole == [whole[0]];
    }
  }

  lemma PrintedIsRepresentable(m: Int64)
    requires m != INT64_MIN
    ensures Reading(Printed(m)) == Some(Decimal(m, 2)) && Representable(Printed(m))
    ensures ValueOf(Decimal(m, 2)) == m as real / 100.0
  {
    hide Reading, Printed, ValueOf;
    PrintsExactly(m);
    TwoPlaces(m);
  }

  lemma StandardAt(r: Readers, s: string)
    requires Standard(r) && Representable(s) && IsJsonNumber(s) && IsPlain(s)
    ensures r.float(s) == r.number(s) == Some(ValueOf(Reading(s).value))
    ensures r.text(Quoted(s)) == Some(s) && r.number(Quoted(s)).None?
  {
    hide Reading, ValueOf, IsJsonNumber, IsPlain, Quoted;
  }

  lemma PrintedIsRead(r: Readers, m: Int64)
    requires Standard(r) && m != INT64_MIN
    ensures r.float(Printed(m)) == Some(m as real / 100.0) && r.number(Printed(m)) == Some(m as real / 100.0)
    ensures r.text(Quoted(Printed(m))) == Some(Printed(m)) && r.number(Quoted(Printed(m))).None?
  {
    hide Reading, Printed, ValueOf, IsJsonNumber, IsPlain, Representable, Standard;
    OrdinaryIsJson(m);
    PrintedIsRepresentable(m);
    StandardAt(r, Printed(m));
  }

  /** Sent as JSON and read back, as a number or as a quoted one, an amount below 2^51 is itself. */
  lemma JsonRoundTrip(go: Machine, r: Readers, m: Int64)
    requires Nearest(go.fl) && Standard(r) && -0x8_0000_0000_0000 < m < 0x8_0000_0000_0000
    ensures Unmarshalled(go, r, Printed(m)) == Some(m)
    ensures Unmarshalled(go, r, Quoted(Printed(m))) == Some(m)
  {
    hide Nearest, Printed, Standard, NewMoney;
    PrintedIsRead(r, m);
    ParseRoundTrip(go, r, m);
  }

  /** The least int64 goes out as JSON no reader accepts: the variable it is read into keeps its value. */
  lemma LeastDoesNotUnmarshal(go: Machine, r: Readers)
    requires Standard(r)
    ensures Unmarshalled(go, r, Printed(INT64_MIN)) == None
  {
    TwoSigns();
    hide Reading, Printed, ValueOf, IsJsonNumber, IsPlain;
  }

  // ---- Where floats give out

  predicate IsEven(x: real) { IsWhole(x) && x.Floor % 2 == 0 }

  /** From 2^53 to 2^54 a 64-bit float holds only the even integers. */
  ghost predicate Coarse(fl: real -> real) {
    forall x: real :: 0.001 <= Abs(x) <= 18446744073709551616.0 && FLOAT_EXACT <= Abs(fl(x)) <= 2.0 * FLOAT_EXACT ==>
      IsEven(fl(x))
  }

  predicate OddAndLarge(m: int) {
    m % 2 == 1 && (9007199254740992 < m < 18014398509481984 || -18014398509481984 < m < -9007199254740992)
  }

  lemma RoundsInside(y: real)
    requires OddAndLarge(Round(y))
    ensures FLOAT_EXACT <= Abs(y) <= 2.0 * FLOAT_EXACT
  {
    var n := Round(y);
    if y >= 0.0 {
      assert y + 0.5 >= n as real && y < n as real + 0.5;
    } else {
      assert -y + 0.5 >= -(n as real) && -y < -(n as real) + 0.5;
    }
  }

  lemma WholeRoundsToItself(y: real)
    requires IsWhole(y)
    ensures Round(y) == y.Floor
  {
  }

  /** Whatever float comes in, no odd amount of that size comes out. */
  lemma NoOddComesOut(fl: real -> real, x: real)
    requires Coarse(fl) && 0.001 <= Abs(x) <= 18446744073709551616.0
    ensures !OddAndLarge(Round(fl(x)))
  {
    if OddAndLarge(Round(fl(x))) {
      RoundsInside(fl(x));
      assert IsEven(fl(x));
      hide Round, Abs;
      WholeRoundsToItself(fl(x));
    }
  }

  lemma HalfToDouble(fl: real -> real, x: real)
    requires Nearest(fl) && 0.001 <= Abs(x) <= 18446744073709551616.0
    ensures Abs(x) / 2.0 <= Abs(fl(x)) <= 2.0 * Abs(x)
  {
    OffByLittle(fl, x);
  }

  lemma AbsScales(x: real)
    ensures Abs(x / 100.0) == Abs(x) / 100.0 && Abs(x * 100.0) == Abs(x) * 100.0
  {
  }

  lemma StaysInt64(x: real)
    requires Abs(x) <= 200000000000000000.0
    ensures INT64_MIN <= Round(x) <= INT64_MAX
  {
  }

  /** The way out and back stays far inside int64. */
  lemma ThereAndBackFits(fl: real -> real, x: real)
    requires Nearest(fl) && FLOAT_EXACT <= Abs(x) <= 2.0 * FLOAT_EXACT
    ensures 0.001 <= Abs(fl(fl(x) / 100.0) * 100.0) <= 18446744073709551616.0
    ensures Abs(fl(fl(fl(x) / 100.0) * 100.0)) <= 200000000000000000.0
  {
    hide Nearest, Abs;
    HalfToDouble(fl, x);
    AbsScales(fl(x));
    HalfToDouble(fl, fl(x) / 100.0);
    AbsScales(fl(fl(x) / 100.0));
    HalfToDouble(fl, fl(fl(x) / 100.0) * 100.0);
  }

  /** Between 2^53 and 2^54 every odd amount comes back as some other amount. */
  lemma OddAmountsAreLost(go: Machine, m: Int64)
    requires Nearest(go.fl) && Coarse(go.fl) && OddAndLarge(m)
    ensures NewMoney(go, Major(go, m)) != m
  {
    hide Nearest, Coarse;
    ThereAndBackFits(go.fl, m as real);
    StaysInt64(go.fl(Major(go, m) * 100.0));
    NoOddComesOut(go.fl, Major(go, m) * 100.0);
  }

  // ---- How far the error bound alone reaches

  /** Off as far as the bound allows, away from zero, at two points. */
  function OffAtTwo(q: real, p: real): real -> real {
    x => if x == q || x == p then x + x / FLOAT_EXACT else x
  }

  lemma OffAtTwoIsNearest(q: real, p: real)
    requires !IsWhole(q) && (IsWhole(p) ==> Abs(p) > FLOAT_EXACT)
    ensures Nearest(OffAtTwo(q, p))
  {
    var fl := OffAtTwo(q, p);
    forall x: real
      ensures IsWhole(x) && Abs(x) <= FLOAT_EXACT ==> fl(x) == x
      ensures Abs(fl(x) - x) * FLOAT_EXACT <= Abs(x)
    {
      hide IsWhole;
    }
  }

  lemma HundredthIsNotWhole(m: int)
    requires m % 100 != 0
    ensures !IsWhole(m as real / 100.0)
  {
    var k := (m as real / 100.0).Floor;
    assert IsWhole(m as real / 100.0) ==> m as real == (k * 100) as real;
  }

  /** The first rounding's result, times a hundred: off the amount by less than one unit. */
  lemma ScaledUp(m: int)
    requires 0 < m <= 9007199254740992 || -9007199254740992 <= m < 0
    ensures var q := m as real / 100.0;
            var p := (q + q / FLOAT_EXACT) * 100.0;
            && p == m as real + m as real / FLOAT_EXACT
            && (IsWhole(p) ==> Abs(p) > FLOAT_EXACT)
  {
    var q := m as real / 100.0;
    var p := (q + q / FLOAT_EXACT) * 100.0;
    var off := m as real / FLOAT_EXACT;
    assert p == m as real + off;
    if -9007199254740992 < m < 9007199254740992 {
      assert 0.0 < off < 1.0 || -1.0 < off < 0.0;
      assert p.Floor == if off > 0.0 then m else m - 1;
    }
  }

  predicate WithinExact(m: int) { -9007199254740992 <= m <= 9007199254740992 }

  predicate Below51(m: int) { -0x8_0000_0000_0000 < m < 0x8_0000_0000_0000 }

  lemma RoundsAway(m: int)
    requires WithinExact(m) && !Below51(m)
    ensures var p := m as real + m as real / FLOAT_EXACT;
            Round(p + p / FLOAT_EXACT) != m && WithinExact(Round(p + p / FLOAT_EXACT) / 2)
  {
    var p := m as real + m as real / FLOAT_EXACT;
    var z := p + p / FLOAT_EXACT;
    if m > 0 {
      assert z >= m as real + 0.5 && z <= m as real + 3.0;
    } else {
      assert z <= m as real - 0.5 && z >= m as real - 3.0;
    }
  }

  lemma OffAtBoth(q: real, p: real)
    ensures OffAtTwo(q, p)(q) == q + q / FLOAT_EXACT && OffAtTwo(q, p)(p) == p + p / FLOAT_EXACT
  {
  }

  lemma Lost(go: Machine, m: Int64, n: int)
    requires n != m && INT64_MIN <= n <= INT64_MAX && Round(go.fl(Major(go, m) * 100.0)) == n
    ensures NewMoney(go, Major(go, m)) != m
  {
  }

  /** A function within the bound that loses the amount. */
  lemma WorstRounding(m: Int64) returns (go: Machine)
    requires WithinExact(m) && !Below51(m) && m % 100 != 0
    ensures Nearest(go.fl) && NewMoney(go, Major(go, m)) != m
  {
    hide IsWhole, Nearest, Round, OffAtTwo, NewMoney, Abs;
    var x := m as real;
    var q := x / 100.0;
    var p := (q + q / FLOAT_EXACT) * 100.0;
    HundredthIsNotWhole(m);
    ScaledUp(m);
    OffAtTwoIsNearest(q, p);
    OffAtBoth(q, p);
    RoundsAway(m);
    go := Machine(OffAtTwo(q, p), _ => 0);
    ExactUpTo53(go.fl, m);
    assert Major(go, m) == q + q / FLOAT_EXACT;
    Lost(go, m, Round(p + p / FLOAT_EXACT));
  }

  lemma ExactUpTo53(fl: real -> real, m: int)
    requires Nearest(fl) && WithinExact(m)
    ensures fl(m as real) == m as real
  {
    assert IsWhole(m as real);
  }

  lemma WholeMajorUnits(go: Machine, m: Int64)
    requires Nearest(go.fl) && WithinExact(m) && m % 100 == 0
    ensures NewMoney(go, Major(go, m)) == m
  {
    hide Nearest, Abs, IsWhole;
    ExactUpTo53(go.fl, m);
    ExactUpTo53(go.fl, m / 100);
    assert m as real / 100.0 == (m / 100) as real;
  }

  /** How much the error bound alone can show: of the amounts a float holds exactly, it settles the ones below
      2^51 and the whole major units. For any other, some function within the bound, though no 64-bit float
      arithmetic, loses the amount. What floats do is in Float64. */
  lemma ErrorBoundAloneExactly(m: Int64)
    requires WithinExact(m)
    ensures (forall go: Machine :: Nearest(go.fl) ==> NewMoney(go, Major(go, m)) == m) <==> Below51(m) || m % 100 == 0
  {
    hide Nearest, NewMoney, Major;
    if Below51(m) || m % 100 == 0 {
      forall go: Machine | Nearest(go.fl)
        ensures NewMoney(go, Major(go, m)) == m
      {
        if Below51(m) {
          MajorRoundTrip(go, m);
        } else {
          WholeMajorUnits(go, m);
        }
      }
    } else {
      var go := WorstRounding(m);
    }
  }
}
