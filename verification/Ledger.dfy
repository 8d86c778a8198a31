/** The well-formedness invariant of the ledger, the reserve bound included, over every run. */
module Ledger {
  import opened Decimal
  import opened Core
  import opened Rates
  import opened Liquidation
  import opened Handlers
  import opened Books
  import opened Replay
  import opened Refunds

  predicate SupplyOk(s: Supply) { s.collaterals >= 0.0 && Grid8(s.collaterals) }

  predicate BorrowOk(b: Borrow) { b.principal >= 0.0 && Grid16(b.principal) && b.interestIndex > 0.0 }

  /** Every market is well formed and keeps the reserve bound; no account holds a negative
      collateral or debt; rows belong to markets. */
  predicate Inv(db: Db)
  {
    && (forall m :: m in db.markets ==> MarketOk(db.markets[m]))
    && (forall k :: k in db.supplies ==> k.market in db.markets && SupplyOk(db.supplies[k]))
    && (forall k :: k in db.borrows ==> k.market in db.markets && BorrowOk(db.borrows[k]))
  }

  // ---- Writes that keep the invariant -------------------------------------------------------

  predicate RowGood(x: Write)
  {
    match x
    case PutMarket(_, row) => MarketOk(row)
    case PutSupply(_, row) => SupplyOk(row)
    case PutBorrow(_, row) => BorrowOk(row)
    case _ => true
  }

  predicate HeadGood(s: Batch) { RowGood(s.a) && RowGood(s.b) && RowGood(s.c) && RowGood(s.d) && RowGood(s.e) }

  predicate TailGood(s: Batch) { RowGood(s.f) && RowGood(s.g) && RowGood(s.h) && RowGood(s.i) }

  predicate RowsGood(s: Batch) { HeadGood(s) && TailGood(s) }

  predicate Placed(db: Db, x: Write)
  {
    match x
    case PutMarket(m, _) => m in db.markets
    case PutSupply(k, _) => k.market in db.markets
    case PutBorrow(k, _) => k.market in db.markets
    case CreateSupply(k) => k.market in db.markets
    case CreateBorrow(k) => k.market in db.markets
    case _ => true
  }

  lemma EmptyRowsOk()
    ensures SupplyOk(EMPTY_SUPPLY) && BorrowOk(EMPTY_BORROW)
  {
    Grid16Zero();
    FromUnits8(0.0, 0);
  }

  lemma ApplyKeepsInv(db: Db, x: Write)
    requires Inv(db) && RowGood(x) && Placed(db, x)
    ensures Inv(Apply(db, x)) && Apply(db, x).markets.Keys == db.markets.Keys
  {
    EmptyRowsOk();
  }

  predicate PlacedAll(db: Db, s: Batch)
  {
    && Placed(db, s.a) && Placed(db, s.b) && Placed(db, s.c) && Placed(db, s.d) && Placed(db, s.e)
    && Placed(db, s.f) && Placed(db, s.g) && Placed(db, s.h) && Placed(db, s.i)
  }

  lemma GoodAt(db: Db, s: Batch, n: nat)
    requires RowsGood(s) && PlacedAll(db, s) && n < 9
    ensures RowGood(s.At(n)) && Placed(db, s.At(n))
  {
  }

  lemma {:induction false} RunKeepsInv(db: Db, s: Batch, n: nat)
    requires Inv(db) && RowsGood(s) && PlacedAll(db, s) && n <= 9
    ensures Inv(RunTo(db, s, n)) && RunTo(db, s, n).markets.Keys == db.markets.Keys
  {
    if n > 0 {
      RunKeepsInv(db, s, n - 1);
      GoodAt(db, s, n - 1);
      assert Placed(RunTo(db, s, n - 1), s.At(n - 1));
      ApplyKeepsInv(RunTo(db, s, n - 1), s.At(n - 1));
    }
  }

  // ---- Each handler writes good rows -----------------------------------------------------------

  /** A view read from a well-formed database before the output has a transaction row. */
  predicate ViewOk(v: View)
  {
    && v.tx.None? && MarketOk(v.sm) && MarketOk(v.bm)
    && (v.supply.Some? ==> SupplyOk(v.supply.value))
    && (v.borrow.Some? ==> BorrowOk(v.borrow.value))
  }

  predicate Paid(o: Output) { o.amount > 0.0 && Grid8(o.amount) }

  lemma ViewRows(v: View)
    requires ViewOk(v)
    ensures v.Collaterals() >= 0.0 && Grid8(v.Collaterals()) && Grid16(v.Collaterals())
    ensures v.Debt() >= 0.0 && Grid16(v.Debt())
  {
    EmptyRowsOk();
    Grid8Is16(v.Collaterals());
    BalanceBounds(if v.borrow.Some? then v.borrow.value else EMPTY_BORROW, v.bm);
  }

  lemma MintedTokens(amount: real, m: Market)
    requires MarketOk(m)
    ensures Grid8(Trunc8(Div(amount, CurExchangeRate(m)))) && Grid16(Trunc8(Div(amount, CurExchangeRate(m))))
  {
    Trunc8Grid(Div(amount, CurExchangeRate(m)));
  }

  lemma SupplyGood(o: Output, m: nat, v: View)
    requires ViewOk(v) && Paid(o)
    ensures RowsGood(SupplyPlan(o, m, v))
  {
    var c := Trunc8(Div(o.amount, CurExchangeRate(v.sm)));
    MintedTokens(o.amount, v.sm);
    Grid8Is16(o.amount);
    if c > 0.0 { MintedOk(v.sm, c, o.amount); }
  }

  lemma RedeemGood(o: Output, m: nat, v: View)
    requires ViewOk(v) && Paid(o) && (RedeemPlan(o, m, v).c.CreateTx? ==> v.sm.exchangeRate > 0.0)
    ensures RowsGood(RedeemPlan(o, m, v))
  {
    Grid8Is16(o.amount);
    assert Mul(CurExchangeRate(v.sm), o.amount) == Mul(o.amount, CurExchangeRate(v.sm));
    if RedeemPlan(o, m, v).c.CreateTx? {
      RedeemCovered(v.sm, o.amount);
      BurnedOk(v.sm, o.amount, Trunc8(Mul(o.amount, CurExchangeRate(v.sm))));
    }
  }

  lemma PledgeGood(o: Output, m: nat, v: View)
    requires ViewOk(v) && Paid(o)
    ensures RowsGood(PledgePlan(o, m, v))
  {
    ViewRows(v);
    Grid8Add(v.Collaterals(), o.amount);
  }

  lemma TakenCollateral(v: View, amount: real)
    requires ViewOk(v) && Grid8(amount) && amount <= v.Collaterals()
    ensures Trunc16(v.Collaterals() - amount) == v.Collaterals() - amount >= 0.0 && Grid8(v.Collaterals() - amount)
  {
    ViewRows(v);
    Grid8Add(v.Collaterals(), amount);
    Grid8Is16(v.Collaterals() - amount);
    Trunc16Bounds(v.Collaterals() - amount);
  }

  lemma AddedCollateral(v: View, amount: real)
    requires ViewOk(v) && Grid8(amount) && amount >= 0.0
    ensures Trunc16(v.Collaterals() + amount) == v.Collaterals() + amount >= 0.0 && Grid8(v.Collaterals() + amount)
  {
    ViewRows(v);
    Grid8Add(v.Collaterals(), amount);
    Grid8Is16(v.Collaterals() + amount);
    Trunc16Bounds(v.Collaterals() + amount);
  }

  lemma UnpledgeGood(o: Output, m: nat, v: View, amount: real)
    requires ViewOk(v) && Grid8(amount)
    ensures RowsGood(UnpledgePlan(o, m, v, amount))
  {
    if amount <= v.Collaterals() { TakenCollateral(v, amount); }
  }

  /** A loan: the debt row and the market row it writes. */
  lemma LoanRows(o: Output, m: nat, k: Key, v: View, amount: real)
    requires ViewOk(v) && Grid8(amount) && BorrowAllowed(v.bm, amount)
    ensures RowGood(PutMarketAt(o, m, Accrue(Lent(v.bm, amount), o.block)))
    ensures RowGood(PutBorrowAt(o, k, v.Debt() + amount, v.bm.borrowIndex))
    ensures Trunc16(v.Debt() + amount) == v.Debt() + amount
  {
    ViewRows(v);
    Grid8Is16(amount);
    Grid16Add(v.Debt(), amount);
    Trunc16Bounds(v.Debt() + amount);
    LentOk(v.bm, amount);
    AccrueOk(Lent(v.bm, amount), o.block);
  }

  /** A repayment: the debt row and the market row it writes. */
  lemma RepaymentRows(o: Output, m: nat, k: Key, v: View, repay: real)
    requires ViewOk(v) && Grid16(repay) && 0.0 <= repay <= v.Debt()
    ensures RowGood(PutMarketAt(o, m, Accrue(Returned(v.bm, repay), o.block)))
    ensures RowGood(PutBorrowAt(o, k, v.Debt() - repay, v.bm.borrowIndex))
    ensures Trunc16(v.Debt() - repay) == v.Debt() - repay
  {
    ViewRows(v);
    Grid16Add(v.Debt(), repay);
    Trunc16Bounds(v.Debt() - repay);
    ReturnedOk(v.bm, repay);
    AccrueOk(Returned(v.bm, repay), o.block);
  }

  lemma BorrowGood(o: Output, m: nat, v: View, amount: real)
    requires ViewOk(v) && Grid8(amount)
    ensures RowsGood(BorrowPlan(o, m, v, amount))
  {
    if BorrowAllowed(v.bm, amount) { LoanRows(o, m, Key(o.sender, m), v, amount); }
  }

  lemma RepayGood(o: Output, m: nat, v: View)
    requires ViewOk(v) && Paid(o)
    ensures RowsGood(RepayPlan(o, m, v))
  {
    ViewRows(v);
    Grid8Is16(o.amount);
    RepaymentRows(o, m, Key(o.sender, m), v, Min(o.amount, v.Debt()));
  }

  lemma QuickPledgeGood(o: Output, m: nat, v: View)
    requires ViewOk(v) && Paid(o)
    ensures RowsGood(QuickPledgePlan(o, m, v))
  {
    var c := Trunc8(Div(o.amount, CurExchangeRate(v.sm)));
    MintedTokens(o.amount, v.sm);
    Grid8Is16(o.amount);
    if c > 0.0 {
      MintedOk(v.sm, c, o.amount);
      AddedCollateral(v, c);
    }
  }

  lemma QuickRedeemGood(o: Output, m: nat, v: View, tokens: real)
    requires ViewOk(v) && Grid8(tokens) && tokens > 0.0
    requires QuickRedeemPlan(o, m, v, tokens).c.CreateTx? ==> v.sm.exchangeRate > 0.0
    ensures RowsGood(QuickRedeemPlan(o, m, v, tokens))
  {
    Grid8Is16(tokens);
    if tokens <= v.Collaterals() { TakenCollateral(v, tokens); }
    if QuickRedeemPlan(o, m, v, tokens).c.CreateTx? {
      RedeemCovered(v.sm, tokens);
      BurnedOk(v.sm, tokens, Trunc8(Mul(tokens, CurExchangeRate(v.sm))));
    }
  }

  lemma DepositRows(o: Output, s: nat, k: Key, v: View, c: real)
    requires ViewOk(v) && Paid(o) && Grid8(c) && c > 0.0
    ensures RowGood(PutMarketAt(o, s, Accrue(if o.asset.CToken? then v.sm else Minted(v.sm, c, o.amount), o.block)))
    ensures RowGood(PutSupplyAt(o, k, v.Collaterals() + c))
  {
    AddedCollateral(v, c);
    Grid8Is16(o.amount);
    Grid8Is16(c);
    MintedOk(v.sm, c, o.amount);
    AccrueOk(v.sm, o.block);
    AccrueOk(Minted(v.sm, c, o.amount), o.block);
  }

  lemma QuickBorrowRowsGood(o: Output, s: nat, b: nat, v: View, amount: real)
    requires ViewOk(v) && Paid(o) && Grid8(amount) && QuickBorrowVerdict(o, v, amount).Accept?
    ensures var c := CTokensOf(QuickBorrowVerdict(o, v, amount).extra);
      && RowGood(PutSupplyAt(o, Key(o.sender, s), v.Collaterals() + c))
      && RowGood(PutBorrowAt(o, Key(o.sender, b), Trunc16(v.Debt() + amount), v.bm.borrowIndex))
      && RowGood(PutMarketAt(o, s, Accrue(if o.asset.CToken? then v.sm else Minted(v.sm, c, o.amount), o.block)))
      && RowGood(PutMarketAt(o, b, Accrue(Lent(v.bm, amount), o.block)))
  {
    MintedTokens(o.amount, v.sm);
    DepositRows(o, s, Key(o.sender, s), v, CTokensOf(QuickBorrowVerdict(o, v, amount).extra));
    LoanRows(o, b, Key(o.sender, b), v, amount);
  }

  lemma QuickBorrowHeadGood(o: Output, s: nat, b: nat, v: View, amount: real)
    requires ViewOk(v) && Paid(o) && Grid8(amount)
    ensures HeadGood(QuickBorrowPlan(o, s, b, v, amount))
  {
    if QuickBorrowVerdict(o, v, amount).Accept? { QuickBorrowRowsGood(o, s, b, v, amount); }
  }

  lemma QuickBorrowTailGood(o: Output, s: nat, b: nat, v: View, amount: real)
    requires ViewOk(v) && Paid(o) && Grid8(amount)
    ensures TailGood(QuickBorrowPlan(o, s, b, v, amount))
  {
    if QuickBorrowVerdict(o, v, amount).Accept? { QuickBorrowRowsGood(o, s, b, v, amount); }
  }

  lemma QuickBorrowGood(o: Output, s: nat, b: nat, v: View, amount: real)
    requires ViewOk(v) && Paid(o) && Grid8(amount)
    ensures RowsGood(QuickBorrowPlan(o, s, b, v, amount))
  {
    QuickBorrowHeadGood(o, s, b, v, amount);
    QuickBorrowTailGood(o, s, b, v, amount);
  }

  lemma SeizureRows(o: Output, s: nat, k: Key, v: View, c: real)
    requires ViewOk(v) && Grid8(c) && c <= v.Collaterals()
    ensures RowGood(PutMarketAt(o, s, Accrue(v.sm, o.block)))
    ensures RowGood(PutSupplyAt(o, k, Trunc16(v.Collaterals() - c)))
  {
    TakenCollateral(v, c);
    AccrueOk(v.sm, o.block);
  }

  /** The seized market has a price and an exchange rate to divide by. */
  predicate Quoted(m: Market) { SeizedPrice(m) > 0.0 && m.exchangeRate >= SAT }

  lemma LiquidateTermsGood(o: Output, user: nat, s: nat, b: nat, v: View)
    requires ViewOk(v) && Paid(o) && Quoted(v.sm)
    ensures var t := SeizeTerms(o.amount, v.Collaterals(), v.Debt(), v.sm, v.bm);
      && RowGood(PutSupplyAt(o, Key(user, s), Trunc16(v.Collaterals() - t.ctokens)))
      && RowGood(PutBorrowAt(o, Key(user, b), Trunc16(v.Debt() - t.repay), v.bm.borrowIndex))
      && RowGood(PutMarketAt(o, s, Accrue(v.sm, o.block)))
      && RowGood(PutMarketAt(o, b, Accrue(Returned(v.bm, t.repay), o.block)))
  {
    ViewRows(v);
    Grid8Is16(o.amount);
    var t := SeizeTerms(o.amount, v.Collaterals(), v.Debt(), v.sm, v.bm);
    LiquidationBounded(o.amount, v.Collaterals(), v.Debt(), v.sm, v.bm);
    SeizureRows(o, s, Key(user, s), v, t.ctokens);
    RepaymentRows(o, b, Key(user, b), v, t.repay);
  }

  lemma LiquidateHeadGood(o: Output, user: nat, s: nat, b: nat, v: View)
    requires ViewOk(v) && Paid(o) && (LiquidatePlan(o, user, s, b, v).c.CreateTx? ==> Quoted(v.sm))
    ensures HeadGood(LiquidatePlan(o, user, s, b, v))
  {
    if LiquidatePlan(o, user, s, b, v).c.CreateTx? { LiquidateTermsGood(o, user, s, b, v); }
  }

  lemma LiquidateTailGood(o: Output, user: nat, s: nat, b: nat, v: View)
    requires ViewOk(v) && Paid(o) && (LiquidatePlan(o, user, s, b, v).c.CreateTx? ==> Quoted(v.sm))
    ensures TailGood(LiquidatePlan(o, user, s, b, v))
  {
    if LiquidatePlan(o, user, s, b, v).c.CreateTx? { LiquidateTermsGood(o, user, s, b, v); }
  }

  lemma LiquidateGood(o: Output, user: nat, s: nat, b: nat, v: View)
    requires ViewOk(v) && Paid(o) && (LiquidatePlan(o, user, s, b, v).c.CreateTx? ==> Quoted(v.sm))
    ensures RowsGood(LiquidatePlan(o, user, s, b, v))
  {
    LiquidateHeadGood(o, user, s, b, v);
    LiquidateTailGood(o, user, s, b, v);
  }

  lemma PriceGood(o: Output, m: nat, row: Market, price: real, time: int)
    requires MarketOk(row) && price > 0.0
    ensures RowsGood(PricePlan(o, m, row, price, time))
  {
    AccrueOk(AfterFind(row).(price := price, priceUpdatedAt := time), o.block);
  }

  lemma WithdrawGood(o: Output, proposal: nat, m: nat, row: Market, amount: real, opponent: nat)
    requires MarketOk(row) && Grid16(amount)
    ensures RowsGood(WithdrawPlan(o, proposal, m, row, amount, opponent))
  {
    if amount <= row.reserves {
      WithdrawnOk(AfterFind(row), amount);
      AccrueOk(Withdrawn(AfterFind(row), amount), o.block);
    }
  }

  // ---- Legal outputs -----------------------------------------------------------------------------

  /** The output gets past all checks and is recorded. */
  ghost predicate Accepted(db: Db, o: Output) { Slots(db, o).c.CreateTx? }

  /** What the source relies on but does not test: positive amounts and prices, and where a redemption
      or liquidation is accepted, positive exchange rates. */
  ghost predicate Legal(db: Db, o: Output)
  {
    && Paid(o)
    && match o.action
       case DoRedeem =>
         IsCToken(db, o.asset) && Accepted(db, o) ==> Live(db, o.asset.market, o.block).exchangeRate > 0.0
       case DoUnpledge(_, memo) => Trunc8(memo) > 0.0
       case DoQuickRedeem(a, memo) =>
         Trunc8(memo) > 0.0 && (IsCToken(db, a) && Accepted(db, o) ==> Live(db, a.market, o.block).exchangeRate > 0.0)
       case DoLiquidate(_, a) =>
         IsCToken(db, a) && Accepted(db, o) ==> Quoted(Live(db, a.market, o.block))
       case DoPrice(_, price, _) => price > 0.0
       case DoWithdraw(_, _, memo, _) => Trunc8(memo) > 0.0
       case _ => true
  }

  lemma LookOk(db: Db, o: Output, user: nat, s: nat, b: nat)
    requires Inv(db) && o.trace !in db.txs && s in db.markets && b in db.markets
    ensures ViewOk(Look(db, o, user, s, b))
  {
    LiveOk(db.markets[s], o.block);
    LiveOk(db.markets[b], o.block);
  }

  lemma ShapedPlaced(db: Db, o: Output, user: nat, s: nat, b: nat, x: Batch)
    requires Shaped(o, user, s, b, x) && s in db.markets && b in db.markets
    ensures PlacedAll(db, x)
  {
  }

  lemma SlotsPlaced(db: Db, o: Output)
    ensures PlacedAll(db, Slots(db, o))
  {
    if OnAccount(o) && Slots(db, o) != IDLE {
      var user, si, bi := SlotsShaped(db, o);
      ShapedPlaced(db, o, user, si, bi, Slots(db, o));
    }
  }

  lemma SlotsGood(db: Db, o: Output)
    requires Inv(db) && o.trace !in db.txs && Legal(db, o)
    ensures RowsGood(Slots(db, o))
  {
    var me, own, s := o.sender, o.asset, Slots(db, o);
    if s == IDLE { return; }
    match o.action
    case DoSupply =>
      LookOk(db, o, me, own.market, own.market);
      SupplyGood(o, own.market, Look(db, o, me, own.market, own.market));
    case DoRedeem =>
      LookOk(db, o, me, own.market, own.market);
      RedeemGood(o, own.market, Look(db, o, me, own.market, own.market));
    case DoPledge =>
      LookOk(db, o, me, own.market, own.market);
      PledgeGood(o, own.market, Look(db, o, me, own.market, own.market));
    case DoUnpledge(a, memo) =>
      LookOk(db, o, me, a.market, a.market);
      Trunc8Grid(memo);
      UnpledgeGood(o, a.market, Look(db, o, me, a.market, a.market), Trunc8(memo));
    case DoBorrow(a, memo) =>
      LookOk(db, o, me, a.market, a.market);
      Trunc8Grid(memo);
      BorrowGood(o, a.market, Look(db, o, me, a.market, a.market), Trunc8(memo));
    case DoRepay =>
      LookOk(db, o, me, own.market, own.market);
      RepayGood(o, own.market, Look(db, o, me, own.market, own.market));
    case DoQuickPledge =>
      LookOk(db, o, me, own.market, own.market);
      QuickPledgeGood(o, own.market, Look(db, o, me, own.market, own.market));
    case DoQuickBorrow(a, memo) =>
      LookOk(db, o, me, own.market, a.market);
      Trunc8Grid(memo);
      QuickBorrowGood(o, own.market, a.market, Look(db, o, me, own.market, a.market), Trunc8(memo));
    case DoQuickRedeem(a, memo) =>
      LookOk(db, o, me, a.market, a.market);
      Trunc8Grid(memo);
      QuickRedeemGood(o, a.market, Look(db, o, me, a.market, a.market), Trunc8(memo));
    case DoLiquidate(user, a) =>
      LookOk(db, o, user, a.market, own.market);
      LiquidateGood(o, user, a.market, own.market, Look(db, o, user, a.market, own.market));
    case DoPrice(a, price, time) => PriceGood(o, a.market, db.markets[a.market], price, time);
    case DoWithdraw(p, a, memo, opponent) =>
      Trunc8Grid(memo);
      WithdrawGood(o, p, a.market, db.markets[a.market], Trunc8(memo), opponent);
    case Unreadable =>
    case Unknown =>
  }
}
