/** The laws of interest, from both sides: what a market is charged, what it quotes, and how the gain of
    its lending is shared (pkg/compound/interestrate.go, worker/payee/utils_market.go). */
module Interest {
  import opened Decimal
  import opened Core
  import opened Rates
  import opened Liquidation

  // ---- The rate curve ------------------------------------------------------------------------------

  /** Utilization is what is lent over all net assets, to the nearest unit. */
  lemma UtilizationIsTheLentShare(cash: real, borrows: real, reserves: real)
    requires borrows >= 0.0
    ensures var u, total := UtilizationRate(cash, borrows, reserves), cash + borrows - reserves;
      if total <= 0.0 then u == 0.0
      else u >= 0.0 && borrows - Mul(total, HALF) <= Mul(u, total) <= borrows + Mul(total, HALF)
  {
    var total := cash + borrows - reserves;
    if total > 0.0 {
      TruncOfDiv(borrows, total);
      DivNear(borrows, total);
    }
  }

  /** The yearly rate: one slope up to the kink and another beyond it. */
  function Yearly(u: real, p: Params): real
  {
    if p.kink == 0.0 || u <= p.kink then p.baseRate + Mul(u, p.multiplier)
    else p.baseRate + Mul(p.kink, p.multiplier) + Mul(u - p.kink, p.jumpMultiplier)
  }

  lemma PerBlockNear(rate: real)
    ensures Mul(rate / 2102400.0 - HALF, 1.0) <= PerBlock(rate) <= rate / 2102400.0 + HALF
  {
    TruncOfDiv(rate, BLOCKS_PER_YEAR);
    Round16Bounds(rate / BLOCKS_PER_YEAR);
  }

  /** A value times a rate known to half a unit. */
  lemma Scaled(u: real, rate: real, near: real)
    requires u >= 0.0 && rate / 2102400.0 - HALF <= near <= rate / 2102400.0 + HALF
    ensures Mul(u, rate) / 2102400.0 - Mul(u, HALF) <= Mul(u, near) <= Mul(u, rate) / 2102400.0 + Mul(u, HALF)
  {
    var q := rate / 2102400.0;
    assert Mul(u, q) == Mul(u, rate) / 2102400.0;
    MulMonotone(q - HALF, near, u);
    MulMonotone(near, q + HALF, u);
    assert Mul(q - HALF, u) == Mul(u, q) - Mul(u, HALF) && Mul(q + HALF, u) == Mul(u, q) + Mul(u, HALF);
  }

  /** The rate of a block is the yearly rate over 2102400 blocks, but for rounding each slope to the
      nearest unit and the sum down. */
  lemma RateOfABlock(u: real, p: Params)
    requires ParamsOk(p) && u >= 0.0
    ensures var r, year := BorrowRatePerBlock(u, p), Yearly(u, p);
      year / 2102400.0 - Mul(1.0 + u, HALF) - ULP < r <= year / 2102400.0 + Mul(1.0 + u, HALF)
  {
    var base, slope, jump := PerBlock(p.baseRate), PerBlock(p.multiplier), PerBlock(p.jumpMultiplier);
    PerBlockNear(p.baseRate);
    PerBlockNear(p.multiplier);
    PerBlockNear(p.jumpMultiplier);
    PerBlockNonNegative(p.baseRate);
    PerBlockNonNegative(p.multiplier);
    PerBlockNonNegative(p.jumpMultiplier);
    CurveMonotone(u, u, base, slope, jump, p.kink);
    Trunc16Bounds(Curve(u, base, slope, jump, p.kink));
    if p.kink == 0.0 || u <= p.kink {
      Scaled(u, p.multiplier, slope);
      assert Mul(1.0 + u, HALF) == HALF + Mul(u, HALF);
    } else {
      Scaled(p.kink, p.multiplier, slope);
      Scaled(u - p.kink, p.jumpMultiplier, jump);
      assert Mul(1.0 + u, HALF) == HALF + Mul(p.kink, HALF) + Mul(u - p.kink, HALF);
    }
  }

  // ---- Accrual ---------------------------------------------------------------------------------------

  function NetAssets(m: Market): real { m.cash + m.borrows - m.reserves }

  /** The rate of the blocks that have gone by. */
  function Owed(m: Market, block: int): real
  {
    if block > m.blockNumber then Mul(CurBorrowRate(m), (block - m.blockNumber) as real) else 0.0
  }

  lemma AccrueElapses(m: Market, block: int)
    requires MarketOk(m)
    ensures var n, g := Accrue(m, block), Elapse(m, block);
      n == g.(exchangeRate := n.exchangeRate) && Owed(m, block) >= 0.0
      && (block > m.blockNumber ==> g == Grow(m, block, Owed(m, block))) && (block <= m.blockNumber ==> g == m)
  {
    CurBorrowRateNonNegative(m);
    if block > m.blockNumber { MulNonNegative(CurBorrowRate(m), (block - m.blockNumber) as real); }
  }

  /** What is lent has grown by the rate of the blocks that have gone by, the reserves by their share of
      that, and the index by the same rate, each up to one unit; nothing else but the block and the
      exchange rate has changed. */
  ghost predicate Charged(m: Market, n: Market, block: int)
  {
    var t := Owed(m, block);
    && n == m.(blockNumber := if block > m.blockNumber then block else m.blockNumber, borrows := n.borrows,
               reserves := n.reserves, borrowIndex := n.borrowIndex, exchangeRate := n.exchangeRate)
    && m.borrows + Mul(m.borrows, t) - ULP < n.borrows <= m.borrows + Mul(m.borrows, t)
    && m.reserves + Mul(m.p.reserveFactor, n.borrows - m.borrows) - ULP < n.reserves
    && n.reserves <= m.reserves + Mul(m.p.reserveFactor, n.borrows - m.borrows)
    && m.borrowIndex + Mul(m.borrowIndex, t) <= n.borrowIndex < m.borrowIndex + Mul(m.borrowIndex, t) + ULP
  }

  /** Interest reaches the market. */
  lemma InterestReachesTheMarket(m: Market, block: int)
    requires MarketOk(m)
    ensures Charged(m, Accrue(m, block), block)
  {
    AccrueElapses(m, block);
    var t := Owed(m, block);
    if block > m.blockNumber { Grown(m, Grow(m, block, t), block, t); } else { Grown(m, m, block, t); }
  }

  lemma Grown(m: Market, n: Market, block: int, t: real)
    requires MarketOk(m) && t >= 0.0 && (n == Grow(m, block, t) || (n == m && t == 0.0))
    ensures m.borrows + Mul(m.borrows, t) - ULP < n.borrows <= m.borrows + Mul(m.borrows, t)
    ensures m.reserves + Mul(m.p.reserveFactor, n.borrows - m.borrows) - ULP < n.reserves
    ensures n.reserves <= m.reserves + Mul(m.p.reserveFactor, n.borrows - m.borrows)
    ensures m.borrowIndex + Mul(m.borrowIndex, t) <= n.borrowIndex < m.borrowIndex + Mul(m.borrowIndex, t) + ULP
  {
    if n == m {
      assert Mul(m.p.reserveFactor, n.borrows - m.borrows) == 0.0;
      if t == 0.0 { assert Mul(m.borrows, t) == 0.0 && Mul(m.borrowIndex, t) == 0.0; }
    }
    if n == Grow(m, block, t) { GrowBounds(m, block, t); }
  }

  /** The suppliers' share of the interest reaches the suppliers: net assets grow by it, up to a unit. */
  lemma SuppliersGetTheirShare(m: Market, block: int)
    requires MarketOk(m)
    ensures var gain, share := NetAssets(Accrue(m, block)) - NetAssets(m),
        Mul(1.0 - m.p.reserveFactor, Mul(m.borrows, Owed(m, block)));
      share - ULP < gain < share + ULP
  {
    InterestReachesTheMarket(m, block);
    var i, all, rf := Accrue(m, block).borrows - m.borrows, Mul(m.borrows, Owed(m, block)), m.p.reserveFactor;
    Shared(i, all, rf);
  }

  lemma Shared(i: real, all: real, rf: real)
    requires all - ULP < i <= all && 0.0 <= rf <= 1.0
    ensures Mul(1.0 - rf, all) - ULP < i - Mul(rf, i) <= Mul(1.0 - rf, all)
  {
    assert i - Mul(rf, i) == Mul(i, 1.0 - rf) && Mul(1.0 - rf, all) == Mul(all, 1.0 - rf);
    MulMonotone(i, all, 1.0 - rf);
    if rf < 1.0 {
      MulPositive(i - (all - ULP), 1.0 - rf);
      assert Mul(i - (all - ULP), 1.0 - rf) == Mul(i, 1.0 - rf) - Mul(all, 1.0 - rf) + ULP * (1.0 - rf);
    }
  }

  /** After accrual a market quotes its net assets per cToken, to the nearest unit, or the initial rate
      while it has no cTokens. */
  lemma QuoteIsNetAssetsPerToken(m: Market, block: int)
    requires MarketOk(m)
    ensures var n := Accrue(m, block);
      if m.ctokens > 0.0
      then Mul(n.ctokens, n.exchangeRate - HALF) <= NetAssets(n) <= Mul(n.ctokens, n.exchangeRate + HALF)
      else n.exchangeRate == Trunc16(m.p.initExchangeRate)
  {
    AccrueElapses(m, block);
    var n := Elapse(m, block);
    if m.ctokens > 0.0 { QuoteNear(NetAssets(n), n.ctokens); }
  }

  lemma QuoteNear(net: real, t: real)
    requires t > 0.0
    ensures var q := Trunc16(Trunc16(Div(net, t))); Mul(t, q - HALF) <= net <= Mul(t, q + HALF)
  {
    TruncOfDiv(net, t);
    DivNear(net, t);
    var d := Div(net, t);
    assert Mul(t, d - HALF) == Mul(d, t) - Mul(t, HALF) && Mul(t, d + HALF) == Mul(d, t) + Mul(t, HALF);
  }

  // ---- The terms of a liquidation -----------------------------------------------------------------------

  /** The discounted price of the collateral, rounded down. */
  lemma DiscountedPrice(m: Market)
    requires m.price > 0.0 && 0.0 <= m.p.liquidationIncentive < 1.0
    ensures var p := Mul(m.price, 1.0 - m.p.liquidationIncentive); p - ULP < SeizedPrice(m) <= p
  {
    var p := m.price - Mul(m.price, m.p.liquidationIncentive);
    assert p == Mul(m.price, 1.0 - m.p.liquidationIncentive);
    MulNonNegative(m.price, 1.0 - m.p.liquidationIncentive);
    Trunc16Bounds(p);
  }

  /** The least of what was paid, what the close factor lets go, and what is owed, by value. */
  function LeastCap(amount: real, collaterals: real, balance: real, sm: Market, bm: Market): real
  {
    var paid, pledged, owed := Mul(amount, bm.price),
      Mul(Mul(Mul(collaterals, CurExchangeRate(sm)), sm.p.closeFactor), SeizedPrice(sm)), Mul(balance, bm.price);
    if paid <= pledged && paid <= owed then paid else if pledged <= owed then pledged else owed
  }

  lemma CapsRounded(amount: real, collaterals: real, balance: real, sm: Market, bm: Market)
    requires Seizable(amount, collaterals, balance, sm, bm)
    ensures var least := LeastCap(amount, collaterals, balance, sm, bm);
      var v := RepayValue(amount, collaterals, balance, sm, bm);
      0.0 <= v <= least && least - ULP < v
  {
    MulNonNegative(amount, bm.price);
    MulNonNegative(balance, bm.price);
    MulNonNegative(collaterals, CurExchangeRate(sm));
    MulNonNegative(Mul(collaterals, CurExchangeRate(sm)), sm.p.closeFactor);
    MulNonNegative(Mul(Mul(collaterals, CurExchangeRate(sm)), sm.p.closeFactor), SeizedPrice(sm));
    Trunc16Bounds(Mul(amount, bm.price));
    Trunc16Bounds(Mul(balance, bm.price));
    Trunc16Bounds(Mul(Mul(Mul(collaterals, CurExchangeRate(sm)), sm.p.closeFactor), SeizedPrice(sm)));
  }

  /** A liquidation repays the least of its three caps, and seizes cTokens of that value at the
      discounted price, each up to rounding. */
  lemma TermsMeetTheLeastCap(amount: real, collaterals: real, balance: real, sm: Market, bm: Market)
    requires Seizable(amount, collaterals, balance, sm, bm)
    ensures var t := SeizeTerms(amount, collaterals, balance, sm, bm);
      var least := LeastCap(amount, collaterals, balance, sm, bm);
      var sp, rate := SeizedPrice(sm), CurExchangeRate(sm);
      && least - ULP - Mul(bm.price, HALF) < Mul(t.repay, bm.price) <= least + Mul(bm.price, HALF)
      && (least - ULP) / sp - HALF - Mul(rate, HALF + SAT) < Mul(t.ctokens, rate) <= least / sp + HALF + Mul(rate, HALF)
  {
    var t, v := SeizeTerms(amount, collaterals, balance, sm, bm), RepayValue(amount, collaterals, balance, sm, bm);
    var least, sp, rate := LeastCap(amount, collaterals, balance, sm, bm), SeizedPrice(sm), CurExchangeRate(sm);
    CapsRounded(amount, collaterals, balance, sm, bm);
    CapsHold(amount, collaterals, balance, sm, bm);
    RepaidInFull(v, balance, bm.price);
    SeizedNear(v, sp, rate);
    MulMonotone(least - ULP, v, sp);
    MulMonotone(v, least, sp);
    DivOrder(least - ULP, sp, v, sp);
    DivOrder(v, sp, least, sp);
  }

  lemma RepaidInFull(v: real, balance: real, price: real)
    requires 0.0 <= v <= Mul(balance, price) && price > 0.0 && Grid16(balance)
    ensures var repay := Min(Trunc16(Div(v, price)), balance);
      v - Mul(price, HALF) <= Mul(repay, price) <= v + Mul(price, HALF)
  {
    TruncOfDiv(v, price);
    DivNear(v, price);
    DivAtMost(v, price, balance);
  }

  lemma SeizedNear(v: real, sp: real, rate: real)
    requires v >= 0.0 && sp > 0.0 && rate > 0.0
    ensures var c := Trunc8(Div(Div(v, sp), rate));
      v / sp - HALF - Mul(rate, HALF + SAT) < Mul(c, rate) <= v / sp + HALF + Mul(rate, HALF)
  {
    var s := Div(v, sp);
    DivNear(v, sp);
    Round16Bounds(v / sp);
    DivNear(s, rate);
    var q := Div(s, rate);
    Trunc8Bounds(q);
    var c := Trunc8(q);
    MulMonotone(c, q, rate);
    MulPositive(c + SAT - q, rate);
    assert Mul(c + SAT - q, rate) == Mul(c, rate) + SAT * rate - Mul(q, rate);
    assert Mul(rate, HALF + SAT) == Mul(rate, HALF) + SAT * rate;
  }
}
