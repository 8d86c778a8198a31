/** Interest: pkg/compound/interestrate.go, pkg/compound/borrow.go, worker/payee/utils_market.go. */
module Rates {
  import opened Decimal
  import opened Core

  const BLOCKS_PER_YEAR: real := 2102400.0

  function UtilizationRate(cash: real, borrows: real, reserves: real): real
  {
    if cash + borrows - reserves <= 0.0 then 0.0
    else Trunc16(Div(borrows, cash + borrows - reserves))
  }

  function GetExchangeRate(cash: real, borrows: real, reserves: real, ctokens: real, init: real): real
  {
    if ctokens > 0.0 then Trunc16(Div(cash + borrows - reserves, ctokens)) else init
  }

  function PerBlock(rate: real): real { Trunc16(Div(rate, BLOCKS_PER_YEAR)) }

  /** The jump-rate curve: one slope up to the kink and another beyond it. */
  function Curve(u: real, base: real, slope: real, jump: real, kink: real): real
  {
    if kink == 0.0 || u <= kink then Mul(u, slope) + base
    else Mul(u - kink, jump) + (Mul(kink, slope) + base)
  }

  function BorrowRatePerBlock(u: real, p: Params): real
  {
    Trunc16(Curve(u, PerBlock(p.baseRate), PerBlock(p.multiplier), PerBlock(p.jumpMultiplier), p.kink))
  }

  function CurBorrowRate(m: Market): real
  {
    BorrowRatePerBlock(UtilizationRate(m.cash, m.borrows, m.reserves), m.p)
  }

  function CurExchangeRate(m: Market): real { if m.exchangeRate > 0.0 then m.exchangeRate else m.p.initExchangeRate }

  /** What a row read from the market store looks like. */
  function AfterFind(m: Market): Market
  {
    m.(exchangeRate := if m.exchangeRate > 0.0 then m.exchangeRate else 1.0,
       borrowIndex := if m.borrowIndex > 0.0 then m.borrowIndex else 1.0)
  }

  /** Interest of a positive number of blocks at the accumulated rate t. */
  function Grow(m: Market, block: int, t: real): Market
  {
    var interest := Trunc16(Mul(m.borrows, t));
    m.(blockNumber := block,
       borrows := m.borrows + interest,
       reserves := m.reserves + Trunc16(Mul(interest, m.p.reserveFactor)),
       borrowIndex := m.borrowIndex + Ceil16(Mul(t, m.borrowIndex)))
  }

  function Refresh(m: Market): Market
  {
    m.(exchangeRate := Trunc16(GetExchangeRate(m.cash, m.borrows, m.reserves, m.ctokens, m.p.initExchangeRate)))
  }

  function Normal(m: Market): Market { m.(borrowIndex := if m.borrowIndex > 0.0 then m.borrowIndex else 1.0) }

  function Elapse(m: Market, block: int): Market
  {
    if block > m.blockNumber then Grow(m, block, Mul(CurBorrowRate(m), (block - m.blockNumber) as real)) else m
  }

  function Accrue(m: Market, block: int): Market { Refresh(Elapse(Normal(m), block)) }

  function SupplyRatePerBlock(u: real, p: Params): real
  {
    Trunc16(Mul(u, Mul(BorrowRatePerBlock(u, p), 1.0 - p.reserveFactor)))
  }

  /** The rates a market shows: written on every accrual and read by no handler. */
  datatype Shown = Shown(utilization: real, supplyRate: real, borrowRate: real)

  function Display(m: Market): Shown
  {
    var u := UtilizationRate(m.cash, m.borrows, m.reserves);
    Shown(Trunc16(u), Trunc16(SupplyRatePerBlock(u, m.p)), Trunc16(BorrowRatePerBlock(u, m.p)))
  }

  /** AccrueInterest, as the sequence of assignments the worker makes. */
  method AccrueInterest(market: Market, block: int) returns (m: Market, shown: Shown)
    ensures m == Accrue(market, block) && shown == Display(m)
  {
    m := market;
    if m.borrowIndex <= 0.0 { m := m.(borrowIndex := 1.0); }
    var delta := block - m.blockNumber;
    if delta > 0 {
      var times := Mul(CurBorrowRate(m), delta as real);
      var interest := Trunc16(Mul(m.borrows, times));
      m := m.(blockNumber := block);
      m := m.(borrows := m.borrows + interest);
      m := m.(reserves := m.reserves + Trunc16(Mul(interest, m.p.reserveFactor)));
      m := m.(borrowIndex := m.borrowIndex + Ceil16(Mul(times, m.borrowIndex)));
    }
    var uRate := UtilizationRate(m.cash, m.borrows, m.reserves);
    var rate := GetExchangeRate(m.cash, m.borrows, m.reserves, m.ctokens, m.p.initExchangeRate);
    var supplyRate := SupplyRatePerBlock(uRate, m.p);
    var borrowRate := BorrowRatePerBlock(uRate, m.p);
    shown := Shown(Trunc16(uRate), Trunc16(supplyRate), Trunc16(borrowRate));
    m := m.(exchangeRate := Trunc16(rate));
  }

  /** The debt of a row at the index of its market. */
  function BorrowBalance(b: Borrow, m: Market): real
  {
    var index := if m.borrowIndex > 0.0 then m.borrowIndex else 1.0;
    var base := if b.interestIndex > 0.0 then b.interestIndex else index;
    Ceil16(Div(Mul(b.principal, index), base))
  }

  // ---- Well-formed markets --------------------------------------------------------

  /** Ranges at least as wide as the ones governance enforces on an update. */
  predicate ParamsOk(p: Params)
  {
    && p.initExchangeRate > 0.0
    && 0.0 <= p.reserveFactor <= 1.0
    && 0.0 <= p.liquidationIncentive < 1.0
    && p.borrowCap >= 0.0
    && 0.0 <= p.collateralFactor <= 1.0
    && 0.0 <= p.closeFactor <= 1.0
    && p.baseRate >= 0.0 && p.multiplier >= 0.0 && p.jumpMultiplier >= 0.0 && p.kink >= 0.0
  }

  predicate OnGrid(m: Market)
  {
    Grid16(m.cash) && Grid16(m.borrows) && Grid16(m.reserves) && Grid16(m.ctokens) && Grid16(m.borrowIndex)
  }

  /** The reserves can always be covered by cash and the reserve share of what is lent out. */
  predicate ReserveBound(m: Market) { m.reserves <= m.cash + Mul(m.p.reserveFactor, m.borrows) }

  predicate MarketOk(m: Market)
  {
    && ParamsOk(m.p)
    && OnGrid(m)
    && m.borrows >= 0.0 && m.reserves >= 0.0 && m.ctokens >= 0.0
    && m.borrowIndex >= 1.0
    && m.price > 0.0
    && ReserveBound(m)
  }

  lemma PerBlockNonNegative(rate: real)
    requires rate >= 0.0
    ensures PerBlock(rate) >= 0.0
  {
    Round16Bounds(rate / BLOCKS_PER_YEAR);
    Trunc16Bounds(Div(rate, BLOCKS_PER_YEAR));
  }

  lemma UtilizationNonNegative(cash: real, borrows: real, reserves: real)
    requires borrows >= 0.0
    ensures UtilizationRate(cash, borrows, reserves) >= 0.0
  {
    var d := cash + borrows - reserves;
    if d > 0.0 {
      assert borrows / d >= 0.0;
      Round16Bounds(borrows / d);
      Trunc16Bounds(Div(borrows, d));
    }
  }

  lemma CurveMonotone(u: real, v: real, base: real, slope: real, jump: real, kink: real)
    requires base >= 0.0 && slope >= 0.0 && jump >= 0.0 && kink >= 0.0 && 0.0 <= u <= v
    ensures 0.0 <= Curve(u, base, slope, jump, kink) <= Curve(v, base, slope, jump, kink)
  {
    MulMonotone(0.0, u, slope);
    MulMonotone(u, v, slope);
    MulMonotone(0.0, kink, slope);
    if u <= kink { MulMonotone(u, kink, slope); }
    if kink <= u { MulMonotone(0.0, u - kink, jump); }
    if kink <= v { MulMonotone(0.0, v - kink, jump); }
    MulMonotone(u - kink, v - kink, jump);
  }

  /** The borrow rate never falls as utilization rises, across the kink included. */
  lemma BorrowRateMonotone(u: real, v: real, p: Params)
    requires ParamsOk(p) && 0.0 <= u <= v
    ensures 0.0 <= BorrowRatePerBlock(u, p) <= BorrowRatePerBlock(v, p)
  {
    var base, slope, jump := PerBlock(p.baseRate), PerBlock(p.multiplier), PerBlock(p.jumpMultiplier);
    PerBlockNonNegative(p.baseRate);
    PerBlockNonNegative(p.multiplier);
    PerBlockNonNegative(p.jumpMultiplier);
    CurveMonotone(u, v, base, slope, jump, p.kink);
    Trunc16Bounds(Curve(u, base, slope, jump, p.kink));
    Trunc16Monotone(Curve(u, base, slope, jump, p.kink), Curve(v, base, slope, jump, p.kink));
  }

  lemma CurBorrowRateNonNegative(m: Market)
    requires ParamsOk(m.p) && m.borrows >= 0.0
    ensures CurBorrowRate(m) >= 0.0
  {
    UtilizationNonNegative(m.cash, m.borrows, m.reserves);
    var u := UtilizationRate(m.cash, m.borrows, m.reserves);
    BorrowRateMonotone(u, u, m.p);
  }

  lemma InterestBounds(borrows: real, t: real)
    requires borrows >= 0.0 && t >= 0.0
    ensures 0.0 <= Trunc16(Mul(borrows, t)) <= borrows * t < Trunc16(Mul(borrows, t)) + ULP
    ensures Grid16(Trunc16(Mul(borrows, t)))
  {
    MulNonNegative(borrows, t);
    Trunc16Bounds(Mul(borrows, t));
  }

  lemma IndexBounds(t: real, index: real)
    requires t >= 0.0 && index >= 0.0
    ensures t * index + ULP > Ceil16(Mul(t, index)) >= t * index >= 0.0 && Grid16(Ceil16(Mul(t, index)))
  {
    MulNonNegative(t, index);
    Ceil16Bounds(Mul(t, index));
  }

  /** Interest: what Grow adds, bounded on both sides. */
  lemma GrowBounds(m: Market, block: int, t: real)
    requires ParamsOk(m.p) && OnGrid(m) && m.borrows >= 0.0 && m.borrowIndex >= 1.0 && t >= 0.0
    ensures var n := Grow(m, block, t);
      && OnGrid(n)
      && m.borrows <= n.borrows <= m.borrows + m.borrows * t < n.borrows + ULP
      && m.reserves <= n.reserves <= m.reserves + m.p.reserveFactor * (n.borrows - m.borrows) < n.reserves + ULP
      && n.borrowIndex >= m.borrowIndex + t * m.borrowIndex >= m.borrowIndex
      && n.borrowIndex < m.borrowIndex + t * m.borrowIndex + ULP
  {
    var i := Trunc16(Mul(m.borrows, t));
    InterestBounds(m.borrows, t);
    InterestBounds(i, m.p.reserveFactor);
    IndexBounds(t, m.borrowIndex);
    Grid16Add(m.borrows, i);
    Grid16Add(m.reserves, Trunc16(Mul(i, m.p.reserveFactor)));
    Grid16Add(m.borrowIndex, Ceil16(Mul(t, m.borrowIndex)));
  }

  lemma UtilizationBounds(b: real, total: real)
    requires b >= 0.0 && total > 0.0
    ensures var u := Trunc16(Div(b, total)); 0.0 <= u && b - Mul(HALF, total) <= Mul(u, total) <= b + Mul(HALF, total)
  {
    var q := b / total;
    assert q >= 0.0 && q * total == b;
    Round16Bounds(q);
    Trunc16Bounds(Div(b, total));
    MulMonotone(Trunc16(Div(b, total)), q + HALF, total);
    MulMonotone(q - HALF, Trunc16(Div(b, total)), total);
    assert Mul(q + HALF, total) == b + Mul(HALF, total) && Mul(q - HALF, total) == b - Mul(HALF, total);
  }

  /** Suppliers are shown what borrowers pay: the supply rate on all net assets is the suppliers' share
      of the borrow rate on what is lent, and never more, but for rounding. */
  lemma SuppliersEarnNoMoreThanBorrowersPay(m: Market)
    requires MarketOk(m) && m.cash + m.borrows - m.reserves > 0.0
    ensures var total := m.cash + m.borrows - m.reserves;
      var share := Mul(CurBorrowRate(m), 1.0 - m.p.reserveFactor);
      && Display(m).borrowRate == CurBorrowRate(m) >= 0.0 && Display(m).supplyRate >= 0.0
      && Display(m).utilization == UtilizationRate(m.cash, m.borrows, m.reserves)
      && Mul(m.borrows - Mul(HALF, total), share) - Mul(ULP, total)
         <= Mul(Display(m).supplyRate, total) <= Mul(m.borrows + Mul(HALF, total), share)
  {
    var total, u := m.cash + m.borrows - m.reserves, UtilizationRate(m.cash, m.borrows, m.reserves);
    var share := Mul(CurBorrowRate(m), 1.0 - m.p.reserveFactor);
    CurBorrowRateNonNegative(m);
    MulNonNegative(CurBorrowRate(m), 1.0 - m.p.reserveFactor);
    UtilizationBounds(m.borrows, total);
    ShownOnce(m, u, share);
    ShownShare(u, share, total, m.borrows);
  }

  /** What is shown has been truncated already. */
  lemma ShownOnce(m: Market, u: real, share: real)
    requires u == UtilizationRate(m.cash, m.borrows, m.reserves)
    requires share == Mul(CurBorrowRate(m), 1.0 - m.p.reserveFactor)
    ensures Display(m) == Shown(u, Trunc16(Mul(u, share)), CurBorrowRate(m))
  {
    Truncated(Div(m.borrows, m.cash + m.borrows - m.reserves));
    Trunc16Bounds(0.0);
    Truncated(Curve(u, PerBlock(m.p.baseRate), PerBlock(m.p.multiplier), PerBlock(m.p.jumpMultiplier), m.p.kink));
    Truncated(Mul(u, share));
  }

  lemma ShownShare(u: real, share: real, total: real, b: real)
    requires u >= 0.0 && share >= 0.0 && total > 0.0
    requires b - Mul(HALF, total) <= Mul(u, total) <= b + Mul(HALF, total)
    ensures var rate := Trunc16(Mul(u, share));
      && rate >= 0.0
      && Mul(b - Mul(HALF, total), share) - Mul(ULP, total) <= Mul(rate, total) <= Mul(b + Mul(HALF, total), share)
  {
    MulNonNegative(u, share);
    Trunc16Bounds(Mul(u, share));
    MulMonotone(Trunc16(Mul(u, share)), Mul(u, share), total);
    MulMonotone(Mul(u, share) - ULP, Trunc16(Mul(u, share)), total);
    MulMonotone(Mul(u, total), b + Mul(HALF, total), share);
    MulMonotone(b - Mul(HALF, total), Mul(u, total), share);
    assert Mul(Mul(u, share) - ULP, total) == Mul(Mul(u, share), total) - Mul(ULP, total);
    assert Mul(Mul(u, share), total) == Mul(Mul(u, total), share);
  }

  lemma Truncated(x: real)
    ensures Trunc16(Trunc16(x)) == Trunc16(x)
  {
    Trunc16Bounds(x);
    Trunc16Bounds(Trunc16(x));
  }

  /** Letting time pass keeps a market well formed, the reserve bound included. */
  lemma ElapseOk(m: Market, block: int)
    requires MarketOk(m)
    ensures MarketOk(Elapse(m, block))
  {
    if block > m.blockNumber {
      CurBorrowRateNonNegative(m);
      var t := Mul(CurBorrowRate(m), (block - m.blockNumber) as real);
      MulNonNegative(CurBorrowRate(m), (block - m.blockNumber) as real);
      GrowBounds(m, block, t);
      GrownBound(m, Grow(m, block, t));
    }
  }

  /** Reserves that grow by at most the reserve share of the interest stay covered. */
  lemma GrownBound(m: Market, n: Market)
    requires ReserveBound(m) && n.p == m.p && n.cash == m.cash && n.borrows >= m.borrows
    requires n.reserves <= m.reserves + m.p.reserveFactor * (n.borrows - m.borrows)
    ensures ReserveBound(n)
  {
    assert Mul(m.p.reserveFactor, n.borrows)
        == Mul(m.p.reserveFactor, m.borrows) + m.p.reserveFactor * (n.borrows - m.borrows);
  }

  lemma AccrueOk(m: Market, block: int)
    requires MarketOk(m)
    ensures MarketOk(Accrue(m, block))
    ensures Accrue(m, block).p == m.p && Accrue(m, block).cash == m.cash && Accrue(m, block).ctokens == m.ctokens
    ensures Accrue(m, block).price == m.price
  {
    ElapseOk(m, block);
  }

  /** A second accrual in the same block only recomputes the exchange rate. */
  lemma AccrueAgain(m: Market, block: int)
    requires m.borrowIndex > 0.0 && block <= m.blockNumber
    ensures Accrue(m, block) == Refresh(m)
  {
  }

  lemma AccruedBlock(m: Market, block: int)
    ensures Accrue(m, block).blockNumber >= block
  {
  }
}
