/** Debt covers the book: the debts of the accounts, taken together, are at least what the market
    believes it has lent, up to half a unit per debt written. */
module Debts {
  import opened Decimal
  import opened Totals
  import opened Core
  import opened Rates
  import opened Liquidation
  import opened Handlers
  import opened Books
  import opened Crash
  import opened Replay
  import opened Refunds
  import opened Ledger
  import opened Flows
  import opened Conservation

  /** What a market has lent, at index one. */
  function Book(m: Market): real
    requires m.borrowIndex > 0.0
  {
    m.borrows / m.borrowIndex
  }

  /** The index rounds up and total interest truncates, so accrual never raises the book. */
  lemma GrowLowersBook(m: Market, block: int, t: real)
    requires MarketOk(m) && t >= 0.0
    ensures var n := Grow(m, block, t); n.borrowIndex > 0.0 && Book(n) <= Book(m)
  {
    GrowBounds(m, block, t);
    var n := Grow(m, block, t);
    var b, i := m.borrows, m.borrowIndex;
    assert (b + b * t) * i == b * (i + t * i);
    MulMonotone(n.borrows, b + b * t, i);
    MulMonotone(i + t * i, n.borrowIndex, b);
    DivOrder(n.borrows, n.borrowIndex, b, i);
  }

  lemma AccrueLowersBook(m: Market, block: int)
    requires MarketOk(m)
    ensures var n := Accrue(AfterFind(m), block); n.borrowIndex >= 1.0 && Book(n) <= Book(m)
  {
    LiveOk(m, block);
    var l := AfterFind(m);
    if block > l.blockNumber {
      CurBorrowRateNonNegative(l);
      MulNonNegative(CurBorrowRate(l), (block - l.blockNumber) as real);
      GrowLowersBook(l, block, Mul(CurBorrowRate(l), (block - l.blockNumber) as real));
    }
  }

  /** A debt row rewritten at the market's index gains or loses at most half a unit to rounding. */
  lemma RebaseShare(b: Borrow, m: Market, change: real)
    requires BorrowOk(b) && m.borrowIndex >= 1.0
    ensures var d := BorrowBalance(b, m);
      Share(b) + change / m.borrowIndex - HALF <= (d + change) / m.borrowIndex
        <= Share(b) + change / m.borrowIndex + HALF
  {
    BalanceBounds(b, m);
    var i := m.borrowIndex;
    var d, q := BorrowBalance(b, m), Mul(b.principal, i) / b.interestIndex;
    assert q == b.principal / b.interestIndex * i;
    assert q / i == b.principal / b.interestIndex;
    DivOrder(q - HALF, i, d, i) by { MulMonotone(q - HALF, d, i); }
    DivOrder(d, i, q + HALF, i) by { MulMonotone(d, q + HALF, i); }
    DivOrder(HALF, i, HALF, 1.0) by { MulMonotone(1.0, i, HALF); }
    DivAdd(q, -HALF, i);
    DivAdd(q, HALF, i);
    DivAdd(d, change, i);
  }

  function DebtWrites(s: Batch, m: nat): nat
  {
    (if s.d.PutBorrow? && s.d.key.market == m then 1 else 0) + (if s.e.PutBorrow? && s.e.key.market == m then 1 else 0)
  }

  /** The debt ledger of one step. */
  predicate DebtFlows(db: Db, s: Batch, m: nat)
    requires m in db.markets && db.markets[m].borrowIndex > 0.0
  {
    var row := RowAfter(db, s, m);
    && row.borrowIndex > 0.0
    && (row.borrows == 0.0
        || Book(row) <= Book(db.markets[m]) + SharedBy(db, s.d, m) + SharedBy(db, s.e, m)
          + HALF * DebtWrites(s, m) as real)
  }

  /** What the view knows of the books it was read from. */
  predicate Booked(db: Db, user: nat, si: nat, bi: nat, v: View, block: int)
  {
    && si in db.markets && bi in db.markets && MarketOk(db.markets[si]) && MarketOk(db.markets[bi])
    && v.sm.borrowIndex >= 1.0 && Book(v.sm) <= Book(db.markets[si]) && v.sm.blockNumber >= block
    && v.bm.borrowIndex >= 1.0 && Book(v.bm) <= Book(db.markets[bi]) && v.bm.blockNumber >= block
    && v.borrow == Find(db.borrows, Key(user, bi))
  }

  lemma LookBooked(db: Db, o: Output, user: nat, s: nat, b: nat)
    requires Inv(db) && s in db.markets && b in db.markets
    ensures Booked(db, user, s, b, Look(db, o, user, s, b), o.block)
  {
    AccrueLowersBook(db.markets[s], o.block);
    AccrueLowersBook(db.markets[b], o.block);
    AccruedBlock(AfterFind(db.markets[s]), o.block);
    AccruedBlock(AfterFind(db.markets[b]), o.block);
  }

  /** A second accrual in the block leaves the book alone. */
  lemma SameBlockBook(m: Market, block: int)
    requires m.borrowIndex > 0.0 && m.blockNumber >= block
    ensures Accrue(m, block).borrowIndex == m.borrowIndex && Accrue(m, block).borrows == m.borrows
  {
    AccrueAgain(m, block);
  }

  lemma DivAdd(a: real, b: real, i: real)
    requires i > 0.0
    ensures (a + b) / i == a / i + b / i
  {
  }

  /** What rewriting the account's debt by a change does to the shares of its market. */
  lemma ShareMoves(db: Db, user: nat, si: nat, bi: nat, v: View, o: Output, change: real)
    requires ViewOk(v) && Booked(db, user, si, bi, v, o.block)
    ensures SharedBy(db, PutBorrowAt(o, Key(user, bi), v.Debt() + change, v.bm.borrowIndex), bi)
         >= change / v.bm.borrowIndex - HALF
  {
    EmptyRowsOk();
    assert Share(EMPTY_BORROW) == 0.0;
    RebaseShare(if v.borrow.Some? then v.borrow.value else EMPTY_BORROW, v.bm, change);
  }

  /** A loan of the book's market raises the book by what it adds to the shares. */
  lemma LoanBook(m: Market, amount: real, block: int)
    requires MarketOk(m) && Grid8(amount) && BorrowAllowed(m, amount) && m.blockNumber >= block
    ensures var row := Accrue(Lent(m, amount), block);
      row.borrowIndex == m.borrowIndex && Book(row) == Book(m) + amount / m.borrowIndex
  {
    Grid8Is16(amount);
    LentOk(m, amount);
    SameBlockBook(Lent(m, amount), block);
    DivAdd(m.borrows, amount, m.borrowIndex);
  }

  /** A repayment lowers the book by no less than it takes from the shares, or clears it. */
  lemma RepaymentBook(m: Market, repay: real, block: int)
    requires MarketOk(m) && Grid16(repay) && repay >= 0.0 && m.blockNumber >= block
    ensures var row := Accrue(Returned(m, repay), block);
      && row.borrowIndex == m.borrowIndex
      && (row.borrows == 0.0 || Book(row) == Book(m) + (-repay) / m.borrowIndex)
  {
    ReturnedOk(m, repay);
    SameBlockBook(Returned(m, repay), block);
    DivAdd(m.borrows, -repay, m.borrowIndex);
  }

  // ---- Each handler ----------------------------------------------------------------------------------

  /** Handlers that write no debt row only let interest accrue. */
  predicate NoDebt(s: Batch) { !s.d.PutBorrow? && !s.e.PutBorrow? }

  /** A market row that has only accrued. */
  predicate Aged(db: Db, x: Write, m: nat)
    requires m in db.markets && db.markets[m].borrowIndex > 0.0
  {
    x.PutMarket? && x.market == m ==> x.row.borrowIndex >= 1.0 && Book(x.row) <= Book(db.markets[m])
  }

  lemma AgedFlows(db: Db, s: Batch, m: nat)
    requires m in db.markets && db.markets[m].borrowIndex > 0.0 && NoDebt(s)
    requires Aged(db, s.d, m) && Aged(db, s.e, m) && Aged(db, s.f, m) && Aged(db, s.g, m) && Aged(db, s.h, m)
    requires Aged(db, s.i, m)
    ensures DebtFlows(db, s, m)
  {
  }

  lemma SupplyDebts(db: Db, o: Output, k: nat, v: View, m: nat)
    requires Inv(db) && Booked(db, o.sender, k, k, v, o.block) && m in db.markets
    ensures DebtFlows(db, SupplyPlan(o, k, v), m)
  {
    AgedFlows(db, SupplyPlan(o, k, v), m);
  }

  lemma RedeemDebts(db: Db, o: Output, k: nat, v: View, m: nat)
    requires Inv(db) && Booked(db, o.sender, k, k, v, o.block) && m in db.markets
    ensures DebtFlows(db, RedeemPlan(o, k, v), m)
  {
    AgedFlows(db, RedeemPlan(o, k, v), m);
  }

  lemma PledgeDebts(db: Db, o: Output, k: nat, v: View, m: nat)
    requires Inv(db) && Booked(db, o.sender, k, k, v, o.block) && m in db.markets
    ensures DebtFlows(db, PledgePlan(o, k, v), m)
  {
    AgedFlows(db, PledgePlan(o, k, v), m);
  }

  lemma UnpledgeDebts(db: Db, o: Output, k: nat, v: View, amount: real, m: nat)
    requires Inv(db) && Booked(db, o.sender, k, k, v, o.block) && m in db.markets
    ensures DebtFlows(db, UnpledgePlan(o, k, v, amount), m)
  {
    AgedFlows(db, UnpledgePlan(o, k, v, amount), m);
  }

  lemma QuickPledgeDebts(db: Db, o: Output, k: nat, v: View, m: nat)
    requires Inv(db) && Booked(db, o.sender, k, k, v, o.block) && m in db.markets
    ensures DebtFlows(db, QuickPledgePlan(o, k, v), m)
  {
    AgedFlows(db, QuickPledgePlan(o, k, v), m);
  }

  lemma QuickRedeemDebts(db: Db, o: Output, k: nat, v: View, tokens: real, m: nat)
    requires Inv(db) && Booked(db, o.sender, k, k, v, o.block) && m in db.markets
    ensures DebtFlows(db, QuickRedeemPlan(o, k, v, tokens), m)
  {
    AgedFlows(db, QuickRedeemPlan(o, k, v, tokens), m);
  }

  lemma BorrowDebts(db: Db, o: Output, k: nat, v: View, amount: real, m: nat)
    requires Inv(db) && ViewOk(v) && Booked(db, o.sender, k, k, v, o.block) && Grid8(amount) && m in db.markets
    ensures DebtFlows(db, BorrowPlan(o, k, v, amount), m)
  {
    var s := BorrowPlan(o, k, v, amount);
    if s.c.CreateTx? {
      ShareMoves(db, o.sender, k, k, v, o, amount);
      LoanBook(v.bm, amount, o.block);
    } else {
      AgedFlows(db, s, m);
    }
  }

  lemma RepayDebts(db: Db, o: Output, k: nat, v: View, m: nat)
    requires Inv(db) && ViewOk(v) && Booked(db, o.sender, k, k, v, o.block) && Paid(o) && m in db.markets
    ensures DebtFlows(db, RepayPlan(o, k, v), m)
  {
    var s := RepayPlan(o, k, v);
    if s.c.CreateTx? {
      ViewRows(v);
      Grid8Is16(o.amount);
      var repay := Min(o.amount, v.Debt());
      ShareMoves(db, o.sender, k, k, v, o, -repay);
      RepaymentBook(v.bm, repay, o.block);
    } else {
      AgedFlows(db, s, m);
    }
  }

  lemma QuickBorrowDebts(db: Db, o: Output, si: nat, bi: nat, v: View, amount: real, m: nat)
    requires Inv(db) && ViewOk(v) && Booked(db, o.sender, si, bi, v, o.block) && Paid(o) && Grid8(amount)
    requires m in db.markets
    ensures DebtFlows(db, QuickBorrowPlan(o, si, bi, v, amount), m)
  {
    var s := QuickBorrowPlan(o, si, bi, v, amount);
    if s.c.CreateTx? {
      var c := CTokensOf(QuickBorrowVerdict(o, v, amount).extra);
      SameBlockBook(if o.asset.CToken? then v.sm else Minted(v.sm, c, o.amount), o.block);
      LoanRows(o, bi, Key(o.sender, bi), v, amount);
      ShareMoves(db, o.sender, si, bi, v, o, amount);
      LoanBook(v.bm, amount, o.block);
    } else {
      AgedFlows(db, s, m);
    }
  }

  /** The rows a liquidation over two markets leaves. */
  lemma LiquidateLeaves(db: Db, o: Output, user: nat, si: nat, bi: nat, v: View) returns (repay: real)
    requires ViewOk(v) && Paid(o) && si in db.markets && bi in db.markets
    requires Quoted(v.sm) && si != bi
    requires LiquidatePlan(o, user, si, bi, v).c.CreateTx?
    ensures var s := LiquidatePlan(o, user, si, bi, v);
      && !s.d.PutBorrow? && s.e == PutBorrowAt(o, Key(user, bi), v.Debt() - repay, v.bm.borrowIndex)
      && RowAfter(db, s, si) == Accrue(v.sm, o.block).(version := o.id)
      && RowAfter(db, s, bi) == Accrue(Returned(v.bm, repay), o.block).(version := o.id)
      && (forall m :: m in db.markets && m != si && m != bi ==> RowAfter(db, s, m) == db.markets[m])
    ensures repay >= 0.0 && Grid16(repay)
  {
    ViewRows(v);
    Grid8Is16(o.amount);
    LiquidationBounded(o.amount, v.Collaterals(), v.Debt(), v.sm, v.bm);
    repay := SeizeTerms(o.amount, v.Collaterals(), v.Debt(), v.sm, v.bm).repay;
    RepaymentRows(o, bi, Key(user, bi), v, repay);
  }

  lemma RepaymentFlows(db: Db, o: Output, user: nat, si: nat, bi: nat, v: View, s: Batch, repay: real, m: nat)
    requires Inv(db) && ViewOk(v) && Booked(db, user, si, bi, v, o.block) && si != bi && m in db.markets
    requires !s.d.PutBorrow? && s.e == PutBorrowAt(o, Key(user, bi), v.Debt() - repay, v.bm.borrowIndex)
    requires RowAfter(db, s, si) == Accrue(v.sm, o.block).(version := o.id)
    requires RowAfter(db, s, bi) == Accrue(Returned(v.bm, repay), o.block).(version := o.id)
    requires m != si && m != bi ==> RowAfter(db, s, m) == db.markets[m]
    requires repay >= 0.0 && Grid16(repay)
    ensures DebtFlows(db, s, m)
  {
    SameBlockBook(v.sm, o.block);
    ShareMoves(db, user, si, bi, v, o, -repay);
    RepaymentBook(v.bm, repay, o.block);
  }

  lemma LiquidateDebts(db: Db, o: Output, user: nat, si: nat, bi: nat, v: View, m: nat)
    requires Inv(db) && ViewOk(v) && Booked(db, user, si, bi, v, o.block) && Paid(o) && m in db.markets
    requires (LiquidatePlan(o, user, si, bi, v).c.CreateTx? ==> Quoted(v.sm)) && si != bi
    ensures DebtFlows(db, LiquidatePlan(o, user, si, bi, v), m)
  {
    var s := LiquidatePlan(o, user, si, bi, v);
    if s.c.CreateTx? {
      var repay := LiquidateLeaves(db, o, user, si, bi, v);
      RepaymentFlows(db, o, user, si, bi, v, s, repay, m);
    } else {
      AgedFlows(db, s, m);
    }
  }

  lemma PriceDebts(db: Db, o: Output, k: nat, price: real, time: int, m: nat)
    requires Inv(db) && k in db.markets && m in db.markets && price > 0.0
    ensures DebtFlows(db, PricePlan(o, k, db.markets[k], price, time), m)
  {
    var row := db.markets[k].(price := price, priceUpdatedAt := time);
    AccrueLowersBook(row, o.block);
    assert Accrue(AfterFind(row), o.block) == Accrue(AfterFind(db.markets[k]).(price := price, priceUpdatedAt := time),
      o.block);
    AgedFlows(db, PricePlan(o, k, db.markets[k], price, time), m);
  }

  lemma WithdrawDebts(db: Db, o: Output, p: nat, k: nat, amount: real, opponent: nat, m: nat)
    requires Inv(db) && k in db.markets && m in db.markets && Grid16(amount)
    ensures DebtFlows(db, WithdrawPlan(o, p, k, db.markets[k], amount, opponent), m)
  {
    if amount <= db.markets[k].reserves {
      WithdrawnOk(db.markets[k], amount);
      var row := Withdrawn(db.markets[k], amount);
      AccrueLowersBook(row, o.block);
      assert AfterFind(row) == Withdrawn(AfterFind(db.markets[k]), amount);
    }
    AgedFlows(db, WithdrawPlan(o, p, k, db.markets[k], amount, opponent), m);
  }

  /** A liquidation that seizes and repays in one market. */
  predicate SelfLiquidation(o: Output)
  {
    o.action.DoLiquidate? && !o.asset.Foreign? && !o.action.asset.Foreign? && o.asset.market == o.action.asset.market
  }

  /** The actions on the market of the asset that was sent. */
  predicate OnOwnMarket(o: Output)
  {
    o.action.DoSupply? || o.action.DoRedeem? || o.action.DoPledge? || o.action.DoRepay? || o.action.DoQuickPledge?
  }

  /** The actions on a market the memo names. */
  predicate OnNamedMarket(o: Output) { o.action.DoUnpledge? || o.action.DoBorrow? || o.action.DoQuickRedeem? }

  predicate OnTwoMarkets(o: Output) { o.action.DoQuickBorrow? || o.action.DoLiquidate? }

  lemma OwnSlotsDebts(db: Db, o: Output, m: nat)
    requires Inv(db) && o.trace !in db.txs && Legal(db, o) && OnOwnMarket(o) && Slots(db, o) != IDLE && m in db.markets
    ensures DebtFlows(db, Slots(db, o), m)
  {
    var me, own := o.sender, MarketOf(o.asset);
    match o.action
    case DoSupply =>
      LookBooked(db, o, me, own, own);
      SupplyDebts(db, o, own, Look(db, o, me, own, own), m);
    case DoRedeem =>
      LookBooked(db, o, me, own, own);
      RedeemDebts(db, o, own, Look(db, o, me, own, own), m);
    case DoPledge =>
      LookBooked(db, o, me, own, own);
      PledgeDebts(db, o, own, Look(db, o, me, own, own), m);
    case DoRepay =>
      LookOk(db, o, me, own, own);
      LookBooked(db, o, me, own, own);
      RepayDebts(db, o, own, Look(db, o, me, own, own), m);
    case DoQuickPledge =>
      LookBooked(db, o, me, own, own);
      QuickPledgeDebts(db, o, own, Look(db, o, me, own, own), m);
  }

  lemma NamedSlotsDebts(db: Db, o: Output, m: nat)
    requires Inv(db) && o.trace !in db.txs && Legal(db, o) && OnNamedMarket(o) && Slots(db, o) != IDLE
    requires m in db.markets
    ensures DebtFlows(db, Slots(db, o), m)
  {
    var me := o.sender;
    match o.action
    case DoUnpledge(a, memo) =>
      LookBooked(db, o, me, a.market, a.market);
      UnpledgeDebts(db, o, a.market, Look(db, o, me, a.market, a.market), Trunc8(memo), m);
    case DoBorrow(a, memo) =>
      LookOk(db, o, me, a.market, a.market);
      LookBooked(db, o, me, a.market, a.market);
      Trunc8Grid(memo);
      BorrowDebts(db, o, a.market, Look(db, o, me, a.market, a.market), Trunc8(memo), m);
    case DoQuickRedeem(a, memo) =>
      LookBooked(db, o, me, a.market, a.market);
      QuickRedeemDebts(db, o, a.market, Look(db, o, me, a.market, a.market), Trunc8(memo), m);
  }

  lemma PairSlotsDebts(db: Db, o: Output, m: nat)
    requires Inv(db) && o.trace !in db.txs && Legal(db, o) && OnTwoMarkets(o) && !SelfLiquidation(o)
    requires Slots(db, o) != IDLE && m in db.markets
    ensures DebtFlows(db, Slots(db, o), m)
  {
    var me, own := o.sender, MarketOf(o.asset);
    match o.action
    case DoQuickBorrow(a, memo) =>
      LookOk(db, o, me, own, a.market);
      LookBooked(db, o, me, own, a.market);
      Trunc8Grid(memo);
      QuickBorrowDebts(db, o, own, a.market, Look(db, o, me, own, a.market), Trunc8(memo), m);
    case DoLiquidate(user, a) =>
      LookOk(db, o, user, a.market, own);
      LookBooked(db, o, user, a.market, own);
      LiquidateDebts(db, o, user, a.market, own, Look(db, o, user, a.market, own), m);
  }

  lemma OtherSlotsDebts(db: Db, o: Output, m: nat)
    requires Inv(db) && o.trace !in db.txs && Legal(db, o) && (o.action.DoPrice? || o.action.DoWithdraw?)
    requires Slots(db, o) != IDLE && m in db.markets
    ensures DebtFlows(db, Slots(db, o), m)
  {
    match o.action
    case DoPrice(a, price, time) => PriceDebts(db, o, a.market, price, time, m);
    case DoWithdraw(p, a, memo, opponent) =>
      Trunc8Grid(memo);
      WithdrawDebts(db, o, p, a.market, Trunc8(memo), opponent, m);
  }

  lemma SlotsDebts(db: Db, o: Output, m: nat)
    requires Inv(db) && o.trace !in db.txs && Legal(db, o) && !SelfLiquidation(o) && m in db.markets
    ensures DebtFlows(db, Slots(db, o), m)
  {
    if Slots(db, o) == IDLE || o.action.Unknown? {
      AgedFlows(db, Slots(db, o), m);
    } else if OnOwnMarket(o) {
      OwnSlotsDebts(db, o, m);
    } else if OnNamedMarket(o) {
      NamedSlotsDebts(db, o, m);
    } else if OnTwoMarkets(o) {
      PairSlotsDebts(db, o, m);
    } else {
      OtherSlotsDebts(db, o, m);
    }
  }

  // ---- Liquidations within one market --------------------------------------------------------------------

  lemma SelfLiquidationLeaves(db: Db, o: Output, user: nat, m: nat, v: View) returns (repay: real)
    requires ViewOk(v) && Paid(o) && m in db.markets
    requires Quoted(v.sm) && LiquidatePlan(o, user, m, m, v).c.CreateTx?
    ensures var s := LiquidatePlan(o, user, m, m, v);
      && !s.d.PutBorrow? && s.e == PutBorrowAt(o, Key(user, m), v.Debt() - repay, v.bm.borrowIndex) && v.borrow.Some?
      && RowAfter(db, s, m) == Accrue(v.sm, o.block).(version := o.id) && repay == RepayOf(s.c.extra)
  {
    ViewRows(v);
    Grid8Is16(o.amount);
    LiquidationBounded(o.amount, v.Collaterals(), v.Debt(), v.sm, v.bm);
    repay := SeizeTerms(o.amount, v.Collaterals(), v.Debt(), v.sm, v.bm).repay;
    RepaymentRows(o, m, Key(user, m), v, repay);
  }

  /** What an accepted liquidation within one market takes from the debts, at index one, without the
      market's book seeing it. */
  ghost function Lost(db: Db, o: Output, m: nat): real
  {
    var live := Live(db, m, o.block);
    if SelfLiquidation(o) && o.asset.market == m && Slots(db, o).c.CreateTx? && live.borrowIndex > 0.0
    then RepayOf(Slots(db, o).c.extra) / live.borrowIndex else 0.0
  }

  /** The debt ledger of one step, up to what is lost. */
  predicate DebtFlowsBut(db: Db, s: Batch, m: nat, lost: real)
    requires m in db.markets && db.markets[m].borrowIndex > 0.0
  {
    var row := RowAfter(db, s, m);
    && row.borrowIndex > 0.0
    && (row.borrows == 0.0
        || Book(row) <= Book(db.markets[m]) + SharedBy(db, s.d, m) + SharedBy(db, s.e, m)
          + HALF * DebtWrites(s, m) as real + lost)
  }

  lemma SelfRepaymentFlows(db: Db, o: Output, user: nat, k: nat, v: View, s: Batch, repay: real, m: nat)
    requires Inv(db) && ViewOk(v) && Booked(db, user, k, k, v, o.block) && v.sm == v.bm && m in db.markets
    requires !s.d.PutBorrow? && s.e == PutBorrowAt(o, Key(user, k), v.Debt() - repay, v.bm.borrowIndex)
    requires RowAfter(db, s, k) == Accrue(v.sm, o.block).(version := o.id)
    requires (m != k ==> RowAfter(db, s, m) == db.markets[m])
    ensures DebtFlowsBut(db, s, m, if m == k then repay / v.bm.borrowIndex else 0.0)
  {
    SameBlockBook(v.sm, o.block);
    ShareMoves(db, user, k, k, v, o, -repay);
    if m == k { SelfBook(db, s, k, v.sm, repay); }
  }

  /** The market's book as it was, against debts that fell by the repayment. */
  lemma SelfBook(db: Db, s: Batch, k: nat, live: Market, repay: real)
    requires k in db.markets && db.markets[k].borrowIndex > 0.0 && live.borrowIndex > 0.0
    requires Book(live) <= Book(db.markets[k]) && RowAfter(db, s, k).borrowIndex == live.borrowIndex
    requires RowAfter(db, s, k).borrows == live.borrows && DebtWrites(s, k) == 1
    requires SharedBy(db, s.d, k) + SharedBy(db, s.e, k) >= (-repay) / live.borrowIndex - HALF
    ensures DebtFlowsBut(db, s, k, repay / live.borrowIndex)
  {
    DivAdd(repay, -repay, live.borrowIndex);
  }

  lemma SelfLiquidationDebts(db: Db, o: Output, user: nat, k: nat, v: View, m: nat)
    requires Inv(db) && ViewOk(v) && Booked(db, user, k, k, v, o.block) && v.sm == v.bm && Paid(o) && m in db.markets
    requires LiquidatePlan(o, user, k, k, v).c.CreateTx? ==> Quoted(v.sm)
    ensures var s := LiquidatePlan(o, user, k, k, v);
      DebtFlowsBut(db, s, m, if m == k && s.c.CreateTx? then RepayOf(s.c.extra) / v.bm.borrowIndex else 0.0)
  {
    var s := LiquidatePlan(o, user, k, k, v);
    if s.c.CreateTx? {
      var repay := SelfLiquidationLeaves(db, o, user, k, v);
      SelfLiquidationOther(db, o, user, k, v, m);
      SelfRepaymentFlows(db, o, user, k, v, s, repay, m);
    } else {
      AgedFlows(db, s, m);
    }
  }

  lemma SelfLiquidationOther(db: Db, o: Output, user: nat, k: nat, v: View, m: nat)
    requires m in db.markets
    ensures m != k ==> RowAfter(db, LiquidatePlan(o, user, k, k, v), m) == db.markets[m]
  {
  }

  /** Every output of a legal run: the book rises by no more than the debts do and what is lost. */
  lemma SlotsFlow(db: Db, o: Output, m: nat)
    requires Inv(db) && o.trace !in db.txs && Legal(db, o) && m in db.markets
    ensures DebtFlowsBut(db, Slots(db, o), m, Lost(db, o, m))
  {
    if !SelfLiquidation(o) {
      SlotsDebts(db, o, m);
    } else if Slots(db, o) == IDLE {
      AgedFlows(db, IDLE, m);
    } else {
      var user, k := o.action.user, o.asset.market;
      LookOk(db, o, user, k, k);
      LookBooked(db, o, user, k, k);
      SelfLiquidationDebts(db, o, user, k, Look(db, o, user, k, k), m);
    }
  }

  // ---- Whole runs ------------------------------------------------------------------------------------

  /** The debts cover the book up to half a unit for each of n debt rows written and what was lost. */
  ghost predicate CoveredBut(db: Db, m: nat, n: nat, lost: real)
    requires m in db.markets && db.markets[m].borrowIndex > 0.0
  {
    Book(db.markets[m]) <= Shares(db, m) + HALF * n as real + lost
  }

  ghost predicate Covered(db: Db, m: nat, n: nat)
    requires m in db.markets && db.markets[m].borrowIndex > 0.0
  {
    CoveredBut(db, m, n, 0.0)
  }

  lemma SharesNonNegative(db: Db, m: nat)
    requires Inv(db)
    ensures Shares(db, m) >= 0.0
  {
    forall k | k in ShareTable(db, m)
      ensures ShareTable(db, m)[k] >= 0.0
    {
      var b := db.borrows[k];
      assert BorrowOk(b);
      assert b.principal / b.interestIndex >= 0.0;
    }
    TotalNonNegative(ShareTable(db, m));
  }

  lemma BatchCovered(db: Db, o: Output, s: Batch, m: nat, n: nat, lost: real, more: real)
    requires Clean(db, o, s) && m in db.markets && db.markets[m].borrowIndex > 0.0 && lost + more >= 0.0
    requires DebtFlowsBut(db, s, m, more) && Inv(RunAll(db, s)) && CoveredBut(db, m, n, lost)
    ensures var e := RunAll(db, s);
      m in e.markets && e.markets[m].borrowIndex > 0.0 && CoveredBut(e, m, n + DebtWrites(s, m), lost + more)
  {
    RunMarket(db, o, s, m);
    RunShares(db, o, s, m);
    SharesNonNegative(RunAll(db, s), m);
  }

  /** A repayment is never negative, so nothing is ever won back. */
  lemma LostNonNegative(db: Db, o: Output, m: nat)
    requires Inv(db) && o.trace !in db.txs && Legal(db, o) && m in db.markets
    ensures Lost(db, o, m) >= 0.0
  {
    if SelfLiquidation(o) && o.asset.market == m && Slots(db, o).c.CreateTx? {
      var user := o.action.user;
      LookOk(db, o, user, m, m);
      LiquidateSlots(db, o);
      RepayNonNegative(o, user, m, Look(db, o, user, m, m));
      QuotientNonNegative(RepayOf(Slots(db, o).c.extra), Live(db, m, o.block).borrowIndex);
    }
  }

  lemma QuotientNonNegative(a: real, b: real)
    requires a >= 0.0
    ensures b > 0.0 ==> a / b >= 0.0
  {
  }

  lemma RepayNonNegative(o: Output, user: nat, m: nat, v: View)
    requires ViewOk(v) && Paid(o) && Quoted(v.sm)
    requires LiquidatePlan(o, user, m, m, v).c.CreateTx?
    ensures RepayOf(LiquidatePlan(o, user, m, m, v).c.extra) >= 0.0
  {
    ViewRows(v);
    Grid8Is16(o.amount);
    LiquidationBounded(o.amount, v.Collaterals(), v.Debt(), v.sm, v.bm);
  }

  lemma StepCovered(db: Db, queue: seq<Output>, m: nat, n: nat, lost: real)
    requires GoodRun(db, queue) && queue != [] && m in db.markets && CoveredBut(db, m, n, lost) && lost >= 0.0
    ensures var e, more := Step(db, queue[0]), Lost(db, queue[0], m);
      && m in e.markets && e.markets[m].borrowIndex > 0.0 && more >= 0.0
      && CoveredBut(e, m, n + DebtWrites(Slots(db, queue[0]), m), lost + more)
  {
    var o := queue[0];
    SlotsFlow(db, o, m);
    LostNonNegative(db, o, m);
    SlotsOwned(db, o);
    GoodStep(db, queue);
    BatchCovered(db, o, Slots(db, o), m, n, lost, Lost(db, o, m));
  }

  ghost function DebtWritesAll(db: Db, queue: seq<Output>, m: nat): nat
    decreases |queue|
  {
    if queue == [] then 0 else DebtWrites(Slots(db, queue[0]), m) + DebtWritesAll(Step(db, queue[0]), queue[1..], m)
  }

  ghost function LostAll(db: Db, queue: seq<Output>, m: nat): real
    decreases |queue|
  {
    if queue == [] then 0.0 else Lost(db, queue[0], m) + LostAll(Step(db, queue[0]), queue[1..], m)
  }

  /** Debt covers the book: in every run the debts of the accounts at index one are at least the
      market's total borrows over its index, less half a unit for every debt row written so far, and
      less the repayments of accepted liquidations within the market, which its book never saw. */
  lemma {:induction false} DebtCoversTheBook(db: Db, queue: seq<Output>, m: nat, n: nat, lost: real)
    requires GoodRun(db, queue) && m in db.markets && CoveredBut(db, m, n, lost) && lost >= 0.0
    ensures var e := Run(db, queue);
      && m in e.markets && e.markets[m].borrowIndex > 0.0
      && CoveredBut(e, m, n + DebtWritesAll(db, queue, m), lost + LostAll(db, queue, m))
    decreases |queue|
  {
    if queue != [] {
      StepCovered(db, queue, m, n, lost);
      GoodStep(db, queue);
      DebtCoversTheBook(Step(db, queue[0]), queue[1..], m, n + DebtWrites(Slots(db, queue[0]), m),
                        lost + Lost(db, queue[0], m));
    }
  }

  /** No liquidation of the run that is accepted seizes and repays in the market. */
  ghost predicate NoneWithin(db: Db, queue: seq<Output>, m: nat)
    decreases |queue|
  {
    queue == [] || (&& !(SelfLiquidation(queue[0]) && queue[0].asset.market == m && Slots(db, queue[0]).c.CreateTx?)
                    && NoneWithin(Step(db, queue[0]), queue[1..], m))
  }

  lemma {:induction false} NothingLost(db: Db, queue: seq<Output>, m: nat)
    requires NoneWithin(db, queue, m)
    ensures LostAll(db, queue, m) == 0.0
    decreases |queue|
  {
    if queue != [] { NothingLost(Step(db, queue[0]), queue[1..], m); }
  }

  /** Without such a liquidation, half a unit per debt row written is all that can be missing. */
  lemma DebtCoversTheBookButRounding(db: Db, queue: seq<Output>, m: nat, n: nat)
    requires GoodRun(db, queue) && m in db.markets && Covered(db, m, n) && NoneWithin(db, queue, m)
    ensures var e := Run(db, queue);
      m in e.markets && e.markets[m].borrowIndex > 0.0 && Covered(e, m, n + DebtWritesAll(db, queue, m))
  {
    NothingLost(db, queue, m);
    DebtCoversTheBook(db, queue, m, n, 0.0);
  }

  lemma SelfLiquidationShares(db: Db, o: Output, user: nat, m: nat, v: View, repay: real)
    requires ViewOk(v) && Booked(db, user, m, m, v, o.block) && v.borrow.Some?
    ensures SharedBy(db, PutBorrowAt(o, Key(user, m), v.Debt() - repay, v.bm.borrowIndex), m)
         <= (-repay) / v.bm.borrowIndex + HALF
  {
    RebaseShare(v.borrow.value, v.bm, -repay);
  }

  lemma BatchGap(db: Db, o: Output, s: Batch, m: nat, live: Market, repay: real)
    requires Clean(db, o, s) && m in db.markets && live.borrowIndex > 0.0
    requires RowAfter(db, s, m).borrows == live.borrows && RowAfter(db, s, m).cash == live.cash
    requires RowAfter(db, s, m).borrowIndex == live.borrowIndex
    requires SharedBy(db, s.d, m) + SharedBy(db, s.e, m) <= -repay / live.borrowIndex + HALF
    ensures var e := RunAll(db, s);
      && m in e.markets && e.markets[m].borrows == live.borrows && e.markets[m].cash == live.cash
      && e.markets[m].borrowIndex == live.borrowIndex
      && Shares(e, m) <= Shares(db, m) - repay / live.borrowIndex + HALF
  {
    RunMarket(db, o, s, m);
    RunShares(db, o, s, m);
  }

  lemma SelfGap(db: Db, o: Output, s: Batch, user: nat, m: nat, v: View, repay: real)
    requires ViewOk(v) && Booked(db, user, m, m, v, o.block) && v.sm == v.bm && v.borrow.Some?
    requires !s.d.PutBorrow? && s.e == PutBorrowAt(o, Key(user, m), v.Debt() - repay, v.bm.borrowIndex)
    requires RowAfter(db, s, m) == Accrue(v.sm, o.block).(version := o.id)
    ensures RowAfter(db, s, m).borrows == v.bm.borrows && RowAfter(db, s, m).cash == v.bm.cash
    ensures RowAfter(db, s, m).borrowIndex == v.bm.borrowIndex
    ensures SharedBy(db, s.d, m) + SharedBy(db, s.e, m) <= -repay / v.bm.borrowIndex + HALF
  {
    SameBlockBook(v.sm, o.block);
    SelfLiquidationShares(db, o, user, m, v, repay);
  }

  /** Why a run must not liquidate within one market: the account's debt falls by the repayment,
      but the market keeps the borrows and the cash it had, so the gap between the book and the
      debts widens by the whole repayment. */
  lemma SelfLiquidationLosesTheRepayment(db: Db, o: Output, user: nat, m: nat)
    requires Inv(db) && Fresh(db, o) && Legal(db, o) && m in db.markets
    requires o.asset == Underlying(m) && o.action == DoLiquidate(user, CToken(m)) && Slots(db, o).c.CreateTx?
    ensures var e, live, repay := Step(db, o), Live(db, m, o.block), RepayOf(Slots(db, o).c.extra);
      && m in e.markets && live.borrowIndex > 0.0
      && e.markets[m].borrows == live.borrows && e.markets[m].cash == live.cash
      && e.markets[m].borrowIndex == live.borrowIndex
      && Shares(e, m) <= Shares(db, m) - repay / live.borrowIndex + HALF
  {
    var v := Look(db, o, user, m, m);
    LookOk(db, o, user, m, m);
    LookBooked(db, o, user, m, m);
    var repay := SelfLiquidationLeaves(db, o, user, m, v);
    SlotsOwned(db, o);
    SelfGap(db, o, Slots(db, o), user, m, v, repay);
    BatchGap(db, o, Slots(db, o), m, v.bm, repay);
  }

  /** From a state where the debts cover the book too tightly to bear the loss, they no longer do
      after the liquidation. */
  lemma TightBookIsUncovered(db: Db, o: Output, user: nat, m: nat, n: nat)
    requires Inv(db) && Fresh(db, o) && Legal(db, o) && m in db.markets
    requires o.asset == Underlying(m) && o.action == DoLiquidate(user, CToken(m)) && Slots(db, o).c.CreateTx?
    requires Live(db, m, o.block).borrowIndex > 0.0
    requires Book(Live(db, m, o.block)) > Shares(db, m) - Lost(db, o, m) + HALF * (n + 2) as real
    ensures var e := Step(db, o); m in e.markets && e.markets[m].borrowIndex > 0.0 && !Covered(e, m, n + 1)
  {
    SelfLiquidationLosesTheRepayment(db, o, user, m);
  }
}
