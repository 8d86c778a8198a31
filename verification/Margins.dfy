/** Account health where rounding has a say: deposits that are minted before they are pledged, and
    liquidations. */
module Margins {
  import opened Decimal
  import opened Core
  import opened Rates
  import opened Account
  import opened Liquidation
  import opened Handlers
  import opened Books
  import opened Replay
  import opened Refunds
  import opened Ledger
  import opened Flows
  import opened Health

  // ---- Minting at a rounded rate ------------------------------------------------------------------------

  /** What a deposit of a mints is worth no less than a, less one unit of the 8-digit grid. */
  lemma MintShort(a: real, rate: real, c: real)
    requires a >= 0.0 && rate > 0.0 && c == Trunc8(Div(a, rate))
    ensures a - Mul(SAT + HALF, rate) <= Mul(c, rate) <= a + Mul(HALF, rate)
  {
    DivNear(a, rate);
    var q := Div(a, rate);
    Trunc8Bounds(q);
    MulMonotone(c, q, rate);
    MulMonotone(q - SAT, c, rate);
    assert Mul(q - SAT, rate) == Mul(q, rate) - Mul(SAT, rate);
  }

  /** How far rounding can pull the exchange rate of a market below a rate it was quoted at. */
  function Drop(ctokens: real, rate: real, c: real): real
    requires ctokens + c > 0.0
  {
    HALF + Mul(HALF, ctokens + rate) / (ctokens + c)
  }

  lemma RateFalls(n: real, t: real, a: real, rate: real, c: real)
    requires t >= 0.0 && c > 0.0 && rate > 0.0 && n >= Mul(rate - HALF, t) && Mul(c, rate) <= a + Mul(HALF, rate)
    ensures Div(n + a, t + c) >= rate - Drop(t, rate, c)
  {
    var u := t + c;
    var q, d := (n + a) / u, Mul(HALF, t + rate) / u;
    assert q * u == n + a && d * u == Mul(HALF, t + rate);
    assert (rate - d) * u == Mul(rate, t) + Mul(c, rate) - Mul(HALF, t + rate);
    assert (rate - d) * u <= q * u;
    assert rate - d <= q;
    Round16Bounds(q);
  }

  /** The rate a refreshed market quotes is covered by its net assets, up to half a unit each. */
  lemma NetCoversRate(m: Market)
    requires MarketOk(m) && Refreshed(m)
    ensures m.cash + m.borrows - m.reserves >= Mul(m.exchangeRate - HALF, m.ctokens)
  {
    var n := m.cash + m.borrows - m.reserves;
    if m.ctokens > 0.0 {
      TruncOfDiv(n, m.ctokens);
      DivNear(n, m.ctokens);
      MulSum(m.exchangeRate, HALF, m.ctokens);
      assert Mul(HALF, m.ctokens) == Mul(m.ctokens, HALF);
    } else {
      MulMonotone(m.p.reserveFactor, 1.0, m.borrows);
      assert Mul(m.exchangeRate - HALF, 0.0) == 0.0;
    }
  }

  lemma MintKeepsRate(m: Market, a: real, block: int)
    requires MarketOk(m) && Refreshed(m) && m.blockNumber >= block && m.exchangeRate > 0.0 && a > 0.0 && Grid16(a)
    requires Trunc8(Div(a, m.exchangeRate)) > 0.0
    ensures var c := Trunc8(Div(a, m.exchangeRate)); var n := Accrue(Minted(m, c, a), block);
      && SameQuotes(m, n.(exchangeRate := m.exchangeRate))
      && n.exchangeRate >= m.exchangeRate - Drop(m.ctokens, m.exchangeRate, c)
  {
    var c := Trunc8(Div(a, m.exchangeRate));
    Trunc8Grid(Div(a, m.exchangeRate));
    MintedOk(m, c, a);
    AccrueAgain(Minted(m, c, a), block);
    MintShort(a, m.exchangeRate, c);
    NetCoversRate(m);
    RateFalls(m.cash + m.borrows - m.reserves, m.ctokens, a, m.exchangeRate, c);
    var net := m.cash + a + m.borrows - m.reserves;
    assert net == m.cash + m.borrows - m.reserves + a;
    TruncOfDiv(net, m.ctokens + c);
    Trunc16Bounds(Div(net, m.ctokens + c));
  }

  /** The value of collateral at a lower rate. */
  lemma WorthFalls(c: real, m: Market, n: Market, drop: real)
    requires c >= 0.0 && m.p.collateralFactor >= 0.0 && m.price > 0.0
    requires SameQuotes(m, n.(exchangeRate := m.exchangeRate)) && n.exchangeRate >= m.exchangeRate - drop
    ensures Worth(c, n) >= Worth(c, m) - Worth(c, m.(exchangeRate := drop))
  {
    var cf, p := m.p.collateralFactor, m.price;
    MulMonotone(m.exchangeRate - drop, n.exchangeRate, c);
    var lo, hi := Mul(c, m.exchangeRate) - Mul(c, drop), Mul(c, n.exchangeRate);
    assert lo <= hi;
    MulMonotone(lo, hi, cf);
    MulMonotone(Mul(lo, cf), Mul(hi, cf), p);
    MulSum(Mul(c, m.exchangeRate), Mul(c, drop), cf);
    MulSum(Mul(Mul(c, m.exchangeRate), cf), Mul(Mul(c, drop), cf), p);
  }

  /** A minted deposit is worth its credit, less the value of one unit of the 8-digit grid. */
  lemma CreditHolds(a: real, m: Market, c: real)
    requires a >= 0.0 && m.exchangeRate > 0.0 && m.p.collateralFactor >= 0.0 && m.price > 0.0
    requires c == Trunc8(Div(a, m.exchangeRate))
    ensures Worth(c, m) >= Mul(Mul(a, m.p.collateralFactor), m.price) - Worth(SAT + HALF, m)
  {
    var cf, p := m.p.collateralFactor, m.price;
    MintShort(a, m.exchangeRate, c);
    var short := Mul(SAT + HALF, m.exchangeRate);
    MulMonotone(a - short, Mul(c, m.exchangeRate), cf);
    MulMonotone(Mul(a - short, cf), Mul(Mul(c, m.exchangeRate), cf), p);
    MulSum(a, short, cf);
    MulSum(Mul(a, cf), Mul(short, cf), p);
  }

  /** The rounding an underlying quick borrow may cost: one unit of the 8-digit grid of cTokens, and
      the drop of the exchange rate on all the account's collateral in the market. */
  function MintSlack(m: Market, collaterals: real, c: real): real
    requires m.ctokens + c > 0.0
  {
    Worth(SAT + HALF, m) + Worth(collaterals + c, m.(exchangeRate := Drop(m.ctokens, m.exchangeRate, c)))
  }

  /** The stored account after the batch, valued at the checked quotes but for one moved rate. */
  lemma MovedValue(db: Db, mid: Db, o: Output, s: Batch, user: nat, live: map<nat, Market>, moved: map<nat, Market>,
                   k: Key, n: Market)
    requires mid == db.(supplies := SuppliesAfter(db, s), borrows := BorrowsAfter(db, s)) && Priced(db, o, s, moved)
    requires k.user == user && k.market in db.markets && k.market in live && moved == live[k.market := n]
    requires SameQuotes(live[k.market], n.(exchangeRate := live[k.market].exchangeRate))
    ensures Liquidity(RunAll(db, s), map[], user)
         == Liquidity(mid, live, user) + StoredPledge(mid, k, n) - StoredPledge(mid, k, live[k.market])
  {
    BatchValue(db, o, s, moved, user);
    RateMoved(mid, live, k, n);
  }

  lemma LockedPledge(db: Db, mid: Db, o: Output, s: Batch, user: nat, si: nat, v: View, pledged: real, c: real,
                     m: Market)
    requires mid.supplies == SuppliesAfter(db, s) && Locks(db, o, s, user, si, v, pledged, c)
    ensures StoredPledge(mid, Key(user, si), m) == Worth(pledged + c, m)
  {
  }

  /** The account after the batch, valued at the row its deposit has moved. */
  lemma MintedValue(db: Db, mid: Db, o: Output, s: Batch, si: nat, bi: nat, v: View, live: map<nat, Market>, n: Market,
                    pledged: real, c: real)
    requires Sound(db, o, o.sender, si, bi, v, live, s) && si != bi && Locks(db, o, s, o.sender, si, v, pledged, c)
    requires mid == db.(supplies := SuppliesAfter(db, s), borrows := BorrowsAfter(db, s))
    requires n == RowAfter(db, s, si) && n.exchangeRate > 0.0 && SameQuotes(v.sm, n.(exchangeRate := v.sm.exchangeRate))
    requires SameQuotes(v.bm, RowAfter(db, s, bi))
    ensures Liquidity(RunAll(db, s), map[], o.sender)
         == Liquidity(mid, live, o.sender) + Worth(pledged + c, n) - Worth(pledged + c, v.sm)
  {
    var moved := live[si := n];
    TwoQuotes(db, o, s, o.sender, si, bi, moved);
    LockedPledge(db, mid, o, s, o.sender, si, v, pledged, c, n);
    LockedPledge(db, mid, o, s, o.sender, si, v, pledged, c, v.sm);
    MovedValue(db, mid, o, s, o.sender, live, moved, Key(o.sender, si), n);
  }

  lemma MintedQuotes(o: Output, v: View, c: real, amount: real)
    requires ViewOk(v) && Paid(o) && Grid8(amount) && BorrowAllowed(v.bm, amount)
    requires Refreshed(v.sm) && v.sm.blockNumber >= o.block && v.sm.exchangeRate > 0.0
    requires Refreshed(v.bm) && v.bm.blockNumber >= o.block
    requires c == Trunc8(Div(o.amount, v.sm.exchangeRate)) && c > 0.0
    ensures var n := Accrue(Minted(v.sm, c, o.amount), o.block);
      && SameQuotes(v.sm, n.(exchangeRate := v.sm.exchangeRate))
      && n.exchangeRate >= v.sm.exchangeRate - Drop(v.sm.ctokens, v.sm.exchangeRate, c)
      && SameQuotes(v.bm, Accrue(Lent(v.bm, amount), o.block))
  {
    Grid8Is16(o.amount);
    MintKeepsRate(v.sm, o.amount, o.block);
    LentKeepsRate(v.bm, amount, o.block);
  }

  /** What is left of the credit when the deposit is minted and the rate has moved. */
  lemma MintedMargin(a: real, m: Market, n: Market, pledged: real, c: real)
    requires MarketOk(m) && m.exchangeRate > 0.0 && a >= 0.0 && pledged >= 0.0 && c > 0.0
    requires c == Trunc8(Div(a, m.exchangeRate)) && SameQuotes(m, n.(exchangeRate := m.exchangeRate))
    requires n.exchangeRate >= m.exchangeRate - Drop(m.ctokens, m.exchangeRate, c)
    ensures Worth(c, m) + Worth(pledged + c, n) - Worth(pledged + c, m)
         >= Mul(Mul(a, m.p.collateralFactor), m.price) - MintSlack(m, pledged, c)
  {
    WorthFalls(pledged + c, m, n, Drop(m.ctokens, m.exchangeRate, c));
    CreditHolds(a, m, c);
  }

  lemma QuickBorrowHealth(db: Db, o: Output, si: nat, bi: nat, v: View, live: map<nat, Market>, s: Batch, n: Market,
                          pledged: real, c: real, debt: real, amount: real)
    requires Sound(db, o, o.sender, si, bi, v, live, s) && si != bi
    requires Locks(db, o, s, o.sender, si, v, pledged, c) && Owes(db, o, s, o.sender, bi, v, debt, amount)
    requires n == RowAfter(db, s, si) && n.exchangeRate > 0.0 && SameQuotes(v.sm, n.(exchangeRate := v.sm.exchangeRate))
    requires SameQuotes(v.bm, RowAfter(db, s, bi))
    ensures Liquidity(RunAll(db, s), map[], o.sender)
         == v.liquidity + Worth(c, v.sm) - Mul(amount, v.bm.price) + Worth(pledged + c, n) - Worth(pledged + c, v.sm)
  {
    var mid := db.(supplies := SuppliesAfter(db, s), borrows := BorrowsAfter(db, s));
    MintedValue(db, mid, o, s, si, bi, v, live, n, pledged, c);
    RowsValue(db, o, s, o.sender, si, bi, v, live, pledged, c, debt, amount);
  }

  lemma QuickBorrowMargin(db: Db, o: Output, si: nat, bi: nat, v: View, live: map<nat, Market>, s: Batch, n: Market,
                          pledged: real, c: real, debt: real, amount: real)
    requires Sound(db, o, o.sender, si, bi, v, live, s) && si != bi && Grid8(amount) && BorrowAllowed(v.bm, amount)
    requires Paid(o)
    requires Locks(db, o, s, o.sender, si, v, pledged, c) && Owes(db, o, s, o.sender, bi, v, debt, amount)
    requires c == Trunc8(Div(o.amount, v.sm.exchangeRate)) && c > 0.0 && n.exchangeRate > 0.0
    requires RowAfter(db, s, si) == n == Accrue(Minted(v.sm, c, o.amount), o.block).(version := o.id)
    requires RowAfter(db, s, bi) == Accrue(Lent(v.bm, amount), o.block).(version := o.id)
    ensures Liquidity(RunAll(db, s), map[], o.sender)
         >= v.liquidity + Mul(Mul(o.amount, v.sm.p.collateralFactor), v.sm.price)
            - Mul(amount, v.bm.price) - MintSlack(v.sm, pledged, c)
  {
    MintedQuotes(o, v, c, amount);
    QuickBorrowHealth(db, o, si, bi, v, live, s, n, pledged, c, debt, amount);
    ViewRows(v);
    MintedMargin(o.amount, v.sm, n, pledged, c);
  }

  /** Account health after an underlying quick borrow: the checked liquidity with the deposit
      credited, less the value of the loan, less an explicit slack for rounding; hence not below
      minus that slack. */
  lemma QuickBorrowKeepsAccountHealthy(db: Db, o: Output, si: nat, bi: nat, memo: real)
    requires Inv(db) && Fresh(db, o) && Legal(db, o) && si in db.markets && bi in db.markets
    requires o.asset == Underlying(si) && o.action == DoQuickBorrow(Underlying(bi), memo)
    requires Live(db, si, o.block).exchangeRate > 0.0 && Live(db, bi, o.block).exchangeRate > 0.0
    requires Slots(db, o).c.CreateTx?
    requires RowAfter(db, Slots(db, o), si).exchangeRate > 0.0
    ensures var v, c := Look(db, o, o.sender, si, bi), CTokensOf(Slots(db, o).c.extra);
      && v.sm.ctokens + c > 0.0
      && Liquidity(Step(db, o), map[], o.sender)
         >= v.liquidity + Credit(o, v.sm) - Mul(Trunc8(memo), v.bm.price) - MintSlack(v.sm, v.Collaterals(), c)
         >= -MintSlack(v.sm, v.Collaterals(), c)
  {
    var v, amount := Look(db, o, o.sender, si, bi), Trunc8(memo);
    var s := QuickBorrowPlan(o, si, bi, v, amount);
    QuickBorrowShaped(o, si, bi, v, amount);
    var live := StepSound(db, o, o.sender, si, bi, v, s);
    Trunc8Grid(memo);
    QuickBorrowLocks(db, o, si, bi, v, amount);
    QuickBorrowRowsAfter(db, o, si, bi, v, amount);
    QuickBorrowChecked(o, si, bi, v, amount);
    QuickBorrowMargin(db, o, si, bi, v, live, s, RowAfter(db, s, si), v.Collaterals(), CTokensOf(s.c.extra), v.Debt(),
                      amount);
  }

  // ---- Liquidation -----------------------------------------------------------------------------------------

  /** A repayment never lowers the exchange rate; clamping total borrows at zero may raise it. */
  lemma RepaymentRaisesRate(m: Market, repay: real, block: int)
    requires MarketOk(m) && Refreshed(m) && m.blockNumber >= block && Grid16(repay) && repay >= 0.0
    ensures var n := Accrue(Returned(m, repay), block);
      SameQuotes(m, n.(exchangeRate := m.exchangeRate)) && n.exchangeRate >= m.exchangeRate
  {
    ReturnedOk(m, repay);
    var r := Returned(m, repay);
    AccrueAgain(r, block);
    var before, after := m.cash + m.borrows - m.reserves, r.cash + r.borrows - r.reserves;
    assert before <= after;
    if m.ctokens > 0.0 {
      MulMonotone(before, after, m.ctokens);
      DivOrder(before, m.ctokens, after, m.ctokens);
      Round16Monotone(before / m.ctokens, after / m.ctokens);
      Trunc16Monotone(Div(before, m.ctokens), Div(after, m.ctokens));
      Trunc16Monotone(Trunc16(Div(before, m.ctokens)), Trunc16(Div(after, m.ctokens)));
    }
  }

  lemma PledgeRises(db: Db, k: Key, m: Market, n: Market)
    requires k in db.supplies ==> SupplyOk(db.supplies[k])
    requires m.p.collateralFactor >= 0.0 && m.price > 0.0
    requires SameQuotes(m, n.(exchangeRate := m.exchangeRate)) && n.exchangeRate >= m.exchangeRate
    ensures StoredPledge(db, k, n) >= StoredPledge(db, k, m)
  {
    if k in db.supplies {
      var c := db.supplies[k].collaterals;
      WorthFalls(c, m, n, 0.0);
      EmptySupplyWorthless(m);
      assert Mul(c, 0.0) == 0.0;
    }
  }

  lemma LiquidateLocks(db: Db, o: Output, user: nat, si: nat, bi: nat, v: View, t: Terms)
    requires si in db.markets && bi in db.markets && Fresh(db, o) && ViewOk(v) && Paid(o)
    requires Quoted(v.sm) && LiquidatePlan(o, user, si, bi, v).c.CreateTx?
    requires t == SeizeTerms(o.amount, v.Collaterals(), v.Debt(), v.sm, v.bm)
    ensures var s := LiquidatePlan(o, user, si, bi, v);
      && Locks(db, o, s, user, si, v, v.Collaterals(), -t.ctokens)
      && Owes(db, o, s, user, bi, v, v.Debt(), -t.repay)
      && t.repay >= 0.0 && Grid16(t.repay)
  {
    ViewRows(v);
    Grid8Is16(o.amount);
    LiquidationBounded(o.amount, v.Collaterals(), v.Debt(), v.sm, v.bm);
    TakenCollateral(v, t.ctokens);
    RepaymentRows(o, bi, Key(user, bi), v, t.repay);
    Grid16Add(v.Debt(), t.repay);
    SupplyRowWritten(db, o, Key(user, si), Supply(v.Collaterals() - t.ctokens, o.id));
    DebtRowWritten(db, o, Key(user, bi), Borrow(v.Debt() - t.repay, v.bm.borrowIndex, o.id));
  }

  lemma LiquidateRowsAfter(db: Db, o: Output, user: nat, si: nat, bi: nat, v: View, t: Terms)
    requires si in db.markets && bi in db.markets && ViewOk(v) && LiquidatePlan(o, user, si, bi, v).c.CreateTx?
    requires t == SeizeTerms(o.amount, v.Collaterals(), v.Debt(), v.sm, v.bm)
    ensures var s := LiquidatePlan(o, user, si, bi, v);
      && RowAfter(db, s, si) == Accrue(v.sm, o.block).(version := o.id)
      && (si != bi ==> RowAfter(db, s, bi) == Accrue(Returned(v.bm, t.repay), o.block).(version := o.id))
  {
  }

  lemma SeizedValue(db: Db, o: Output, user: nat, si: nat, bi: nat, v: View, live: map<nat, Market>, s: Batch, mid: Db,
                    n: Market)
    requires Sound(db, o, user, si, bi, v, live, s) && si != bi
    requires mid == db.(supplies := SuppliesAfter(db, s), borrows := BorrowsAfter(db, s))
    requires Key(user, bi) in mid.supplies ==> SupplyOk(mid.supplies[Key(user, bi)])
    requires SameQuotes(v.sm, RowAfter(db, s, si)) && n == RowAfter(db, s, bi)
    requires SameQuotes(v.bm, n.(exchangeRate := v.bm.exchangeRate)) && n.exchangeRate >= v.bm.exchangeRate
    ensures Liquidity(RunAll(db, s), map[], user) >= Liquidity(mid, live, user)
  {
    var moved := live[bi := n];
    TwoQuotes(db, o, s, user, si, bi, moved);
    MovedValue(db, mid, o, s, user, live, moved, Key(user, bi), n);
    PledgeRises(mid, Key(user, bi), v.bm, n);
  }

  lemma SeizedRow(db: Db, o: Output, s: Batch, user: nat, si: nat, bi: nat, v: View, pledged: real, change: real)
    requires Inv(db) && Locks(db, o, s, user, si, v, pledged, change) && pledged + change >= 0.0
    requires Grid8(pledged + change)
    ensures Key(user, bi) in SuppliesAfter(db, s) ==> SupplyOk(SuppliesAfter(db, s)[Key(user, bi)])
  {
  }

  lemma LiquidateHealth(db: Db, o: Output, user: nat, si: nat, bi: nat, v: View, live: map<nat, Market>, s: Batch,
                        pledged: real, ctokens: real, debt: real, loan: real, repay: real)
    requires Sound(db, o, user, si, bi, v, live, s) && Inv(db) && loan == -repay
    requires Locks(db, o, s, user, si, v, pledged, ctokens) && Owes(db, o, s, user, bi, v, debt, loan)
    requires pledged + ctokens >= 0.0 && Grid8(pledged + ctokens) && repay >= 0.0 && Grid16(repay)
    requires RowAfter(db, s, si) == Accrue(v.sm, o.block).(version := o.id)
    requires si != bi ==> RowAfter(db, s, bi) == Accrue(Returned(v.bm, repay), o.block).(version := o.id)
    ensures Liquidity(RunAll(db, s), map[], user) >= v.liquidity + Worth(ctokens, v.sm) - Mul(loan, v.bm.price)
  {
    var mid := db.(supplies := SuppliesAfter(db, s), borrows := BorrowsAfter(db, s));
    SeizedRow(db, o, s, user, si, bi, v, pledged, ctokens);
    AccruedQuotes(v.sm, o.block);
    if si == bi {
      TwoQuotes(db, o, s, user, si, bi, live);
      BatchValue(db, o, s, live, user);
    } else {
      RepaymentRaisesRate(v.bm, repay, o.block);
      SeizedValue(db, o, user, si, bi, v, live, s, mid, RowAfter(db, s, bi));
    }
    RowsValue(db, o, s, user, si, bi, v, live, pledged, ctokens, debt, loan);
  }

  /** The rounding slack of a liquidation judged by the given view. */
  function SeizureSlack(o: Output, v: View): real
    requires SeizedPrice(v.sm) > 0.0
  {
    Slack(RepayValue(o.amount, v.Collaterals(), v.Debt(), v.sm, v.bm), v.sm, v.bm)
  }

  /** A liquidation never lowers the seized account's liquidity by more than the slack. */
  lemma SeizureMargin(o: Output, v: View, t: Terms)
    requires ViewOk(v) && Paid(o) && Quoted(v.sm)
    requires v.sm.p.collateralFactor <= 1.0 - v.sm.p.liquidationIncentive
    requires t == SeizeTerms(o.amount, v.Collaterals(), v.Debt(), v.sm, v.bm)
    ensures Worth(-t.ctokens, v.sm) - Mul(-t.repay, v.bm.price) >= -SeizureSlack(o, v)
    ensures v.Collaterals() - t.ctokens >= 0.0 && Grid8(v.Collaterals() - t.ctokens)
  {
    ViewRows(v);
    Grid8Is16(o.amount);
    LiquidationHelps(o.amount, v.Collaterals(), v.Debt(), v.sm, v.bm);
    LiquidationBounded(o.amount, v.Collaterals(), v.Debt(), v.sm, v.bm);
    Grid8Add(v.Collaterals(), t.ctokens);
    WorthNegated(t.ctokens, v.sm);
    MulSum(0.0, t.repay, v.bm.price);
  }

  /** The rows a liquidation leaves: collateral down by what is seized, debt by what is repaid. */
  predicate Seizes(db: Db, o: Output, user: nat, si: nat, bi: nat, v: View, s: Batch, pledged: real, seized: real,
                   debt: real, loan: real)
  {
    && si in db.markets && bi in db.markets
    && Locks(db, o, s, user, si, v, pledged, seized) && Owes(db, o, s, user, bi, v, debt, loan)
    && pledged + seized >= 0.0 && Grid8(pledged + seized) && loan <= 0.0 && Grid16(-loan)
    && RowAfter(db, s, si) == Accrue(v.sm, o.block).(version := o.id)
    && (si != bi ==> RowAfter(db, s, bi) == Accrue(Returned(v.bm, -loan), o.block).(version := o.id))
  }

  lemma LiquidateSeizes(db: Db, o: Output, user: nat, si: nat, bi: nat, v: View)
      returns (pledged: real, seized: real, debt: real, loan: real)
    requires si in db.markets && bi in db.markets && Fresh(db, o) && ViewOk(v) && Paid(o)
    requires Quoted(v.sm) && LiquidatePlan(o, user, si, bi, v).c.CreateTx?
    requires v.sm.p.collateralFactor <= 1.0 - v.sm.p.liquidationIncentive
    ensures Seizes(db, o, user, si, bi, v, LiquidatePlan(o, user, si, bi, v), pledged, seized, debt, loan)
    ensures Worth(seized, v.sm) - Mul(loan, v.bm.price) >= -SeizureSlack(o, v)
  {
    var t := SeizeTerms(o.amount, v.Collaterals(), v.Debt(), v.sm, v.bm);
    pledged, seized, debt, loan := v.Collaterals(), -t.ctokens, v.Debt(), -t.repay;
    LiquidateLocks(db, o, user, si, bi, v, t);
    LiquidateRowsAfter(db, o, user, si, bi, v, t);
    SeizureMargin(o, v, t);
  }

  lemma SeizeHealth(db: Db, o: Output, user: nat, si: nat, bi: nat, v: View, live: map<nat, Market>, s: Batch,
                    pledged: real, seized: real, debt: real, loan: real)
    requires Sound(db, o, user, si, bi, v, live, s) && Inv(db)
    requires Seizes(db, o, user, si, bi, v, s, pledged, seized, debt, loan)
    ensures Liquidity(RunAll(db, s), map[], user) >= v.liquidity + Worth(seized, v.sm) - Mul(loan, v.bm.price)
  {
    LiquidateHealth(db, o, user, si, bi, v, live, s, pledged, seized, debt, loan, -loan);
  }

  /** Liquidation helps: if the collateral factor of the seized market leaves room for the discount,
      the stored account's liquidity after an accepted liquidation is at least the liquidity it was
      judged by, less the explicit rounding slack, whichever cap applied. It holds within one
      market too, where the market row misses the repayment. */
  lemma LiquidationHelpsTheAccount(db: Db, o: Output, user: nat, si: nat, bi: nat)
    requires Inv(db) && Fresh(db, o) && Legal(db, o) && si in db.markets && bi in db.markets
    requires o.asset == Underlying(bi) && o.action == DoLiquidate(user, CToken(si)) && Slots(db, o).c.CreateTx?
    requires Live(db, bi, o.block).exchangeRate > 0.0
    requires db.markets[si].p.collateralFactor <= 1.0 - db.markets[si].p.liquidationIncentive
    ensures var v := Look(db, o, user, si, bi);
      SeizedPrice(v.sm) > 0.0 && Liquidity(Step(db, o), map[], user) >= v.liquidity - SeizureSlack(o, v)
  {
    var v := Look(db, o, user, si, bi);
    LiquidateShaped(o, user, si, bi, v);
    var live := StepSound(db, o, user, si, bi, v, LiquidatePlan(o, user, si, bi, v));
    var pledged, seized, debt, loan := LiquidateSeizes(db, o, user, si, bi, v);
    SeizeHealth(db, o, user, si, bi, v, live, Slots(db, o), pledged, seized, debt, loan);
  }
}
