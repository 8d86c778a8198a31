/** Fixed-point arithmetic of the ledger: decimals are exact reals, and the roundings of
    shopspring/decimal are explicit functions onto the 16-digit and 8-digit grids. */
module Decimal {

  /** One unit in the last place of the 16-digit grid, and half of it. */
  const ULP: real := 0.0000000000000001
  const HALF: real := 0.00000000000000005
  /** One unit in the last place of the 8-digit grid. */
  const SAT: real := 0.00000001

  /** The largest multiple of 10^-digits not above x. */
  function FloorTo(x: real, digits: nat): real
    decreases digits, x
  {
    if digits == 0 then x.Floor as real else FloorTo(x * 10.0, digits - 1) / 10.0
  }

  function Floor16(x: real): real { FloorTo(x, 16) }

  function Floor8(x: real): real { FloorTo(x, 8) }

  predicate Grid16(x: real) { Floor16(x) == x }

  predicate Grid8(x: real) { Floor8(x) == x }

  /** Truncate(16): toward zero. */
  function Trunc16(x: real): real { if x >= 0.0 then Floor16(x) else -Floor16(-x) }

  /** Truncate(8): toward zero. */
  function Trunc8(x: real): real { if x >= 0.0 then Floor8(x) else -Floor8(-x) }

  /** Shift(16).Ceil().Shift(-16). */
  function Ceil16(x: real): real { -Floor16(-x) }

  /** To the nearest multiple of 10^-16, halves away from zero. */
  function Round16(x: real): real {
    if x >= 0.0 then Floor16(x + HALF) else -Floor16(-x + HALF)
  }

  /** decimal.Mul is exact. */
  function Mul(a: real, b: real): real { a * b }

  /** decimal.Div. The library panics on a zero divisor; no caller of a legal run passes one. */
  function Div(a: real, b: real): real { if b == 0.0 then 0.0 else Round16(a / b) }

  function Min(a: real, b: real): real { if a <= b then a else b }

  function Pow10(n: nat): real { if n == 0 then 1.0 else 10.0 * Pow10(n - 1) }

  /** FloorTo counts whole units: it is the only multiple of the unit in (x - unit, x]. */
  lemma {:induction false} FloorToUnits(x: real, digits: nat) returns (k: int)
    ensures Pow10(digits) > 0.0
    ensures k as real <= x * Pow10(digits) < k as real + 1.0
    ensures FloorTo(x, digits) * Pow10(digits) == k as real
    decreases digits
  {
    if digits == 0 {
      k := x.Floor;
    } else {
      k := FloorToUnits(x * 10.0, digits - 1);
      var p := Pow10(digits - 1);
      assert (x * 10.0) * p == x * (10.0 * p);
      assert FloorTo(x * 10.0, digits - 1) / 10.0 * (10.0 * p) == FloorTo(x * 10.0, digits - 1) * p;
    }
  }

  lemma Floor16Units(x: real) returns (k: int)
    ensures k as real <= x * 10000000000000000.0 < k as real + 1.0
    ensures Floor16(x) * 10000000000000000.0 == k as real
  {
    k := FloorToUnits(x, 16);
    assert Pow10(8) == 100000000.0;
    assert Pow10(16) == 10000000000000000.0;
  }

  lemma Floor8Units(x: real) returns (k: int)
    ensures k as real <= x * 100000000.0 < k as real + 1.0
    ensures Floor8(x) * 100000000.0 == k as real
  {
    k := FloorToUnits(x, 8);
    assert Pow10(8) == 100000000.0;
  }

  lemma SameUnit(j: int, k: int, z: real)
    requires j as real <= z < j as real + 1.0
    requires k as real <= z < k as real + 1.0
    ensures j == k
  {
  }

  lemma Floor16Bounds(x: real)
    ensures Floor16(x) <= x < Floor16(x) + ULP
    ensures Grid16(Floor16(x))
  {
    var k := Floor16Units(x);
    FromUnits16(Floor16(x), k);
  }

  lemma Floor8Bounds(x: real)
    ensures Floor8(x) <= x < Floor8(x) + SAT
    ensures Grid8(Floor8(x))
  {
    var k := Floor8Units(x);
    FromUnits8(Floor8(x), k);
  }

  /** The value of a grid number counted in units, and back. */
  lemma Units16(x: real) returns (k: int)
    requires Grid16(x)
    ensures x * 10000000000000000.0 == k as real
  {
    k := Floor16Units(x);
  }

  lemma FromUnits16(x: real, k: int)
    requires x * 10000000000000000.0 == k as real
    ensures Grid16(x)
  {
    var j := Floor16Units(x);
    SameUnit(j, k, x * 10000000000000000.0);
  }

  lemma Units8(x: real) returns (k: int)
    requires Grid8(x)
    ensures x * 100000000.0 == k as real
  {
    k := Floor8Units(x);
  }

  lemma FromUnits8(x: real, k: int)
    requires x * 100000000.0 == k as real
    ensures Grid8(x)
  {
    var j := Floor8Units(x);
    SameUnit(j, k, x * 100000000.0);
  }

  lemma Grid16Zero()
    ensures Grid16(0.0)
  {
    FromUnits16(0.0, 0);
  }

  lemma Grid16Add(a: real, b: real)
    requires Grid16(a) && Grid16(b)
    ensures Grid16(a + b) && Grid16(a - b) && Grid16(-a)
  {
    var j := Units16(a);
    var k := Units16(b);
    FromUnits16(a + b, j + k);
    FromUnits16(a - b, j - k);
    FromUnits16(-a, -j);
  }

  lemma Grid8Add(a: real, b: real)
    requires Grid8(a) && Grid8(b)
    ensures Grid8(a + b) && Grid8(a - b)
  {
    var j := Units8(a);
    var k := Units8(b);
    FromUnits8(a + b, j + k);
    FromUnits8(a - b, j - k);
  }

  lemma Grid8Is16(x: real)
    requires Grid8(x)
    ensures Grid16(x)
  {
    var k := Units8(x);
    FromUnits16(x, k * 100000000);
  }

  lemma UnitsOrdered(j: int, k: int, y: real, z: real)
    requires j as real <= y <= z < k as real + 1.0
    ensures j <= k
  {
  }

  /** Floor is the largest grid number below: nothing on the grid fits between. */
  lemma Floor16Above(x: real, g: real)
    requires Grid16(g) && g <= x
    ensures g <= Floor16(x)
  {
    var j := Units16(g);
    var k := Floor16Units(x);
    UnitsOrdered(j, k, g * 10000000000000000.0, x * 10000000000000000.0);
  }

  lemma Trunc16Bounds(x: real)
    ensures Grid16(Trunc16(x))
    ensures x >= 0.0 ==> 0.0 <= Trunc16(x) <= x < Trunc16(x) + ULP
    ensures x <= 0.0 ==> x <= Trunc16(x) <= 0.0
    ensures Grid16(x) ==> Trunc16(x) == x
  {
    Floor16Bounds(x);
    Floor16Bounds(-x);
    Grid16Zero();
    Grid16Add(Floor16(-x), 0.0);
    if x >= 0.0 { Floor16Above(x, 0.0); } else { Floor16Above(-x, 0.0); }
    if Grid16(x) { Grid16Add(x, 0.0); }
  }

  lemma Trunc8Bounds(x: real)
    requires x >= 0.0
    ensures Grid8(Trunc8(x)) && Grid16(Trunc8(x))
    ensures 0.0 <= Trunc8(x) <= x < Trunc8(x) + SAT
  {
    Floor8Bounds(x);
    var k := Floor8Units(x);
    UnitsOrdered(0, k, 0.0, x * 100000000.0);
    Grid8Is16(Trunc8(x));
  }

  lemma Trunc8Grid(x: real)
    ensures Grid8(Trunc8(x)) && Grid16(Trunc8(x))
  {
    if x >= 0.0 {
      Trunc8Bounds(x);
    } else {
      Trunc8Bounds(-x);
      FromUnits8(0.0, 0);
      Grid8Add(0.0, Trunc8(-x));
      Grid8Is16(Trunc8(x));
    }
  }

  /** Truncating below the next 8-digit number lands on or under a given 8-digit number. */
  lemma Trunc8Below(x: real, g: real)
    requires 0.0 <= x < g + SAT && Grid8(g)
    ensures Trunc8(x) <= g
  {
    var k := Units8(g);
    var j := Floor8Units(x);
    UnitsOrdered(j, k, x * 100000000.0, x * 100000000.0);
  }

  /** Truncating lands above an 8-digit number exactly from the next one on. */
  lemma Trunc8Above(x: real, g: real)
    requires x >= 0.0 && Grid8(g)
    ensures Trunc8(x) > g <==> x >= g + SAT
  {
    if 0.0 <= x < g + SAT {
      Trunc8Below(x, g);
    } else {
      Trunc8Bounds(x);
    }
  }

  lemma Ceil16Bounds(x: real)
    ensures Grid16(Ceil16(x)) && x <= Ceil16(x) < x + ULP
  {
    Floor16Bounds(-x);
    Grid16Zero();
    Grid16Add(Floor16(-x), 0.0);
  }

  /** A sum rounded up is no more than its parts rounded up. */
  lemma Ceil16Subadditive(x: real, y: real, s: real)
    requires s <= x + y
    ensures Ceil16(s) <= Ceil16(x) + Ceil16(y)
  {
    Ceil16Bounds(x);
    Ceil16Bounds(y);
    Grid16Add(Ceil16(x), Ceil16(y));
    Grid16Zero();
    Grid16Add(Ceil16(x) + Ceil16(y), 0.0);
    Floor16Above(-s, -(Ceil16(x) + Ceil16(y)));
  }

  lemma HalfUnitFloors(y: real, j: int)
    requires y * 10000000000000000.0 == j as real
    ensures Floor16(y + HALF) == y
  {
    var k := Floor16Units(y + HALF);
    SameUnit(j, k, (y + HALF) * 10000000000000000.0);
  }

  lemma Round16Grid(x: real)
    requires Grid16(x)
    ensures Round16(x) == x
  {
    var k := Units16(x);
    if x >= 0.0 { HalfUnitFloors(x, k); } else { HalfUnitFloors(-x, -k); }
  }

  lemma Round16Bounds(x: real)
    ensures Grid16(Round16(x))
    ensures x - HALF <= Round16(x) <= x + HALF
    ensures x >= 0.0 ==> Round16(x) >= 0.0
    ensures Grid16(x) ==> Round16(x) == x
  {
    Grid16Zero();
    if x >= 0.0 {
      Floor16Bounds(x + HALF);
      Floor16Above(x + HALF, 0.0);
    } else {
      Floor16Bounds(-x + HALF);
      Grid16Add(Floor16(-x + HALF), 0.0);
    }
    if Grid16(x) { Round16Grid(x); }
  }

  /** Rounding a given number, counted in units. */
  lemma Round16To(x: real, k: int)
    requires x >= 0.0 && k as real <= (x + HALF) * 10000000000000000.0 < k as real + 1.0
    ensures Round16(x) * 10000000000000000.0 == k as real
  {
    var j := Floor16Units(x + HALF);
    SameUnit(j, k, (x + HALF) * 10000000000000000.0);
  }

  lemma Trunc8To(x: real, k: int)
    requires x >= 0.0 && k as real <= x * 100000000.0 < k as real + 1.0
    ensures Trunc8(x) * 100000000.0 == k as real
  {
    var j := Floor8Units(x);
    SameUnit(j, k, x * 100000000.0);
  }

  /** A number on the 8-digit grid survives every rounding. */
  lemma Exact(x: real, k: int)
    requires x * 100000000.0 == k as real
    ensures Grid8(x) && Grid16(x) && Trunc16(x) == x && Round16(x) == x && (x >= 0.0 ==> Trunc8(x) == x)
  {
    FromUnits8(x, k);
    Grid8Is16(x);
    Trunc16Bounds(x);
    Round16Bounds(x);
    if x >= 0.0 { Trunc8To(x, k); }
  }

  lemma Floor16Monotone(x: real, y: real)
    requires x <= y
    ensures Floor16(x) <= Floor16(y)
  {
    Floor16Bounds(x);
    Floor16Above(y, Floor16(x));
  }

  lemma Round16Monotone(x: real, y: real)
    requires x <= y
    ensures Round16(x) <= Round16(y)
  {
    if x >= 0.0 {
      Floor16Monotone(x + HALF, y + HALF);
    } else if y < 0.0 {
      Floor16Monotone(-y + HALF, -x + HALF);
    } else {
      Round16Bounds(y);
      Grid16Zero();
      Floor16Above(-x + HALF, 0.0);
    }
  }

  lemma Trunc16Monotone(x: real, y: real)
    requires x <= y
    ensures Trunc16(x) <= Trunc16(y)
  {
    if x >= 0.0 {
      Floor16Monotone(x, y);
    } else if y < 0.0 {
      Floor16Monotone(-y, -x);
    } else {
      Trunc16Bounds(x);
      Trunc16Bounds(y);
    }
  }

  lemma MulMonotone(a: real, b: real, c: real)
    requires a <= b && c >= 0.0
    ensures Mul(a, c) <= Mul(b, c)
  {
  }

  lemma MulNonNegative(a: real, b: real)
    requires a >= 0.0 && b >= 0.0
    ensures Mul(a, b) >= 0.0
  {
  }

  lemma MulPositive(a: real, b: real)
    requires a > 0.0 && b > 0.0
    ensures Mul(a, b) > 0.0
  {
  }

  lemma DivOrder(a: real, b: real, c: real, d: real)
    requires b > 0.0 && d > 0.0 && a * d <= c * b
    ensures a / b <= c / d
  {
    var x, y := a / b, c / d;
    assert x * b == a && y * d == c;
    assert x * (b * d) <= y * (b * d);
  }
}
