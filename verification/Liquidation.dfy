/** The seize and repay arithmetic of worker/payee/liquidation.go. */
module Liquidation {
  import opened Decimal
  import opened Core
  import opened Rates

  datatype Terms = Terms(ctokens: real, repay: real)

  /** The collateral price after the liquidator's discount. */
  function SeizedPrice(sm: Market): real { Trunc16(sm.price - Mul(sm.price, sm.p.liquidationIncentive)) }

  function PaidValue(amount: real, bm: Market): real { Trunc16(Mul(amount, bm.price)) }

  function MaxSeizeValue(collaterals: real, sm: Market): real
  {
    Trunc16(Mul(Mul(Mul(collaterals, CurExchangeRate(sm)), sm.p.closeFactor), SeizedPrice(sm)))
  }

  /** The value repaid is the least of the three caps. */
  function RepayValue(amount: real, collaterals: real, balance: real, sm: Market, bm: Market): real
  {
    Min(Min(PaidValue(amount, bm), MaxSeizeValue(collaterals, sm)), PaidValue(balance, bm))
  }

  function SeizeTerms(amount: real, collaterals: real, balance: real, sm: Market, bm: Market): Terms
  {
    var v := RepayValue(amount, collaterals, balance, sm, bm);
    Terms(Trunc8(Div(Div(v, SeizedPrice(sm)), CurExchangeRate(sm))), Min(Trunc16(Div(v, bm.price)), balance))
  }

  lemma TruncOfDiv(a: real, b: real)
    ensures Grid16(Div(a, b)) && Trunc16(Div(a, b)) == Div(a, b)
  {
    if b == 0.0 { Grid16Zero(); } else { Round16Bounds(a / b); }
    Trunc16Bounds(Div(a, b));
  }

  /** The sequence of reassignments the handler makes computes the minimum of the caps. */
  method ComputeTerms(amount: real, collaterals: real, balance: real, sm: Market, bm: Market) returns (t: Terms)
    ensures t == SeizeTerms(amount, collaterals, balance, sm, bm)
  {
    var rate := CurExchangeRate(sm);
    var price := SeizedPrice(sm);
    var repayValue := Trunc16(Mul(amount, bm.price));
    var seizedAmount := Trunc16(Div(repayValue, price));
    TruncOfDiv(repayValue, price);
    var maxSeizeValue := Trunc16(Mul(Mul(Mul(collaterals, rate), sm.p.closeFactor), price));
    if repayValue > maxSeizeValue {
      repayValue := maxSeizeValue;
      seizedAmount := Div(repayValue, price);
    }
    var balanceValue := Trunc16(Mul(balance, bm.price));
    if repayValue > balanceValue {
      repayValue := balanceValue;
      seizedAmount := Div(repayValue, price);
    }
    var ctokens := Trunc8(Div(seizedAmount, rate));
    var repay := Trunc16(Div(repayValue, bm.price));
    if repay > balance { repay := balance; }
    t := Terms(ctokens, repay);
  }

  /** Rounding a quotient to nearest cannot step over a grid number above it. */
  lemma DivAtMost(a: real, b: real, g: real)
    requires b > 0.0 && a <= Mul(g, b) && Grid16(g)
    ensures Div(a, b) <= g
  {
    assert a / b <= g;
    Round16Monotone(a / b, g);
    Round16Bounds(g);
  }

  lemma DivNear(a: real, b: real)
    requires b > 0.0
    ensures a - Mul(b, HALF) <= Mul(Div(a, b), b) <= a + Mul(b, HALF)
    ensures a >= 0.0 ==> Div(a, b) >= 0.0
  {
    var q := a / b;
    assert q * b == a;
    Round16Bounds(q);
    MulMonotone(q - HALF, Div(a, b), b);
    MulMonotone(Div(a, b), q + HALF, b);
    if a >= 0.0 { assert q >= 0.0; }
  }

  /** What liquidation terms are computed from in a well-formed ledger. */
  predicate Seizable(amount: real, collaterals: real, balance: real, sm: Market, bm: Market)
  {
    && ParamsOk(sm.p) && bm.price > 0.0 && SeizedPrice(sm) > 0.0
    && amount >= 0.0 && Grid16(amount)
    && collaterals >= 0.0 && Grid8(collaterals)
    && balance >= 0.0 && Grid16(balance)
    && CurExchangeRate(sm) > 0.0
  }

  lemma CapsHold(amount: real, collaterals: real, balance: real, sm: Market, bm: Market)
    requires Seizable(amount, collaterals, balance, sm, bm)
    ensures var v := RepayValue(amount, collaterals, balance, sm, bm);
      && 0.0 <= v <= Mul(amount, bm.price)
      && v <= Mul(balance, bm.price)
      && v <= Mul(Mul(collaterals, CurExchangeRate(sm)), SeizedPrice(sm))
  {
    var worth, sp := Mul(collaterals, CurExchangeRate(sm)), SeizedPrice(sm);
    MulNonNegative(amount, bm.price);
    MulNonNegative(balance, bm.price);
    MulNonNegative(collaterals, CurExchangeRate(sm));
    MulMonotone(0.0, sm.p.closeFactor, worth);
    MulMonotone(sm.p.closeFactor, 1.0, worth);
    assert 0.0 <= Mul(worth, sm.p.closeFactor) <= worth;
    MulMonotone(Mul(worth, sm.p.closeFactor), worth, sp);
    MulNonNegative(Mul(worth, sm.p.closeFactor), sp);
    Trunc16Bounds(Mul(amount, bm.price));
    Trunc16Bounds(Mul(balance, bm.price));
    Trunc16Bounds(Mul(Mul(worth, sm.p.closeFactor), sp));
  }

  /** A liquidation takes no more than was paid, than is owed and than is pledged: neither the
      principal nor the collateral can go negative. The exchange rate bound is what keeps the
      two roundings to nearest below one unit of the 8-digit grid. */
  lemma LiquidationBounded(amount: real, collaterals: real, balance: real, sm: Market, bm: Market)
    requires Seizable(amount, collaterals, balance, sm, bm)
    ensures var t := SeizeTerms(amount, collaterals, balance, sm, bm);
      && 0.0 <= t.repay <= amount && t.repay <= balance && Grid16(t.repay)
      && 0.0 <= t.ctokens && Grid8(t.ctokens)
      && (CurExchangeRate(sm) >= SAT ==> t.ctokens <= collaterals)
  {
    CapsHold(amount, collaterals, balance, sm, bm);
    var v, sp, rate := RepayValue(amount, collaterals, balance, sm, bm), SeizedPrice(sm), CurExchangeRate(sm);
    TruncOfDiv(v, bm.price);
    DivNear(v, bm.price);
    DivAtMost(v, bm.price, amount);
    DivNear(v, sp);
    var s := Div(v, sp);
    DivNear(s, rate);
    var c := Div(s, rate);
    Trunc8Bounds(c);
    if rate >= SAT {
      SeizedWithin(v, sp, rate, collaterals);
      Trunc8Below(c, collaterals);
    }
  }

  lemma SeizedWithin(v: real, sp: real, rate: real, collaterals: real)
    requires sp > 0.0 && rate >= SAT && 0.0 <= v <= Mul(Mul(collaterals, rate), sp)
    ensures Div(Div(v, sp), rate) < collaterals + SAT
  {
    var s := Div(v, sp);
    assert v / sp <= Mul(collaterals, rate);
    Round16Bounds(v / sp);
    assert s <= Mul(collaterals, rate) + HALF;
    var bound := collaterals + SAT * 0.5;
    assert Mul(bound, rate) == Mul(collaterals, rate) + Mul(SAT * 0.5, rate);
    MulMonotone(SAT, rate, SAT * 0.5);
    assert s <= Mul(bound, rate);
    assert s / rate <= bound;
    Round16Bounds(s / rate);
  }

  /** Rounding that a liquidation may cost the seized account, in value. */
  function Slack(v: real, sm: Market, bm: Market): real
    requires SeizedPrice(sm) > 0.0
  {
    Mul(bm.price, HALF) + Mul(ULP, v / SeizedPrice(sm))
    + Mul(Mul(sm.p.collateralFactor, sm.price), HALF)
      + Mul(Mul(Mul(sm.p.collateralFactor, sm.price), CurExchangeRate(sm)), HALF)
  }

  /** If the collateral factor leaves room for the discount, the debt value repaid makes up for
      the collateral value seized, whichever cap applies, up to the explicit slack. */
  lemma LiquidationHelps(amount: real, collaterals: real, balance: real, sm: Market, bm: Market)
    requires Seizable(amount, collaterals, balance, sm, bm)
    requires sm.price > 0.0 && sm.p.collateralFactor <= 1.0 - sm.p.liquidationIncentive
    ensures var t := SeizeTerms(amount, collaterals, balance, sm, bm);
      Mul(t.repay, bm.price)
        >= Mul(Mul(Mul(t.ctokens, CurExchangeRate(sm)), sm.p.collateralFactor), sm.price)
           - Slack(RepayValue(amount, collaterals, balance, sm, bm), sm, bm)
  {
    var v, sp, rate := RepayValue(amount, collaterals, balance, sm, bm), SeizedPrice(sm), CurExchangeRate(sm);
    var t := SeizeTerms(amount, collaterals, balance, sm, bm);
    CapsHold(amount, collaterals, balance, sm, bm);
    RepaidWorth(v, balance, bm.price);
    DivNear(v, sp);
    var s := Div(v, sp);
    DivNear(s, rate);
    Trunc8Bounds(Div(s, rate));
    MulMonotone(t.ctokens, Div(s, rate), rate);
    SeizedAtMost(v, sp);
    var y := Mul(t.ctokens, rate);
    assert y <= v / sp + HALF + Mul(rate, HALF);
    DiscountLeft(sm);
    SeizedWorth(y, v, sp, rate, sm.p.collateralFactor, sm.price);
  }

  lemma RepaidWorth(v: real, balance: real, price: real)
    requires 0.0 <= v <= Mul(balance, price) && price > 0.0
    ensures Mul(Min(Trunc16(Div(v, price)), balance), price) >= v - Mul(price, HALF)
  {
    TruncOfDiv(v, price);
    DivNear(v, price);
    MulNonNegative(price, HALF);
  }

  lemma SeizedAtMost(v: real, sp: real)
    requires sp > 0.0
    ensures Div(v, sp) <= v / sp + HALF
  {
    Round16Bounds(v / sp);
  }

  lemma DiscountLeft(sm: Market)
    requires sm.price > 0.0 && 0.0 <= sm.p.collateralFactor <= 1.0 - sm.p.liquidationIncentive
    ensures Mul(sm.p.collateralFactor, sm.price) <= SeizedPrice(sm) + ULP
  {
    var rest := sm.price - Mul(sm.price, sm.p.liquidationIncentive);
    assert rest == Mul(1.0 - sm.p.liquidationIncentive, sm.price);
    MulMonotone(sm.p.collateralFactor, 1.0 - sm.p.liquidationIncentive, sm.price);
    MulNonNegative(sm.p.collateralFactor, sm.price);
    Trunc16Bounds(rest);
  }

  lemma SeizedWorth(y: real, v: real, sp: real, rate: real, cf: real, price: real)
    requires sp > 0.0 && v >= 0.0 && cf >= 0.0 && price > 0.0
    requires Mul(cf, price) <= sp + ULP
    requires y <= v / sp + HALF + Mul(rate, HALF)
    ensures Mul(Mul(y, cf), price)
      <= v + Mul(ULP, v / sp) + Mul(Mul(cf, price), HALF) + Mul(Mul(Mul(cf, price), rate), HALF)
  {
    var w, q := Mul(cf, price), v / sp;
    assert q >= 0.0 && q * sp == v;
    MulNonNegative(cf, price);
    MulMonotone(y, q + HALF + Mul(rate, HALF), w);
    MulMonotone(w, sp + ULP, q);
    assert Mul(Mul(y, cf), price) == Mul(y, w);
    assert Mul(q + HALF + Mul(rate, HALF), w) == Mul(q, w) + Mul(w, HALF) + Mul(Mul(w, rate), HALF);
    assert Mul(sp + ULP, q) == v + Mul(ULP, q);
  }
}
