/** What pledges, loans and repayments leave behind: worker/payee/supply_pledge.go, supply_unpledge.go,
    borrow.go and borrow_repay.go. */
module Loans {
  import opened Decimal
  import opened Totals
  import opened Core
  import opened Rates
  import opened Account
  import opened Handlers
  import opened Books
  import opened Replay
  import opened Refunds
  import opened Ledger
  import opened Flows
  import opened Health
  import opened Margins
  import opened Outcomes

  // ---- Pledge ---------------------------------------------------------------------------------------

  /** A pledge locks cTokens the market has issued, if they count as collateral, up to the pledge limit. */
  function PledgeLeft(db: Db, o: Output, m: nat, live: Market, pledged: real): Db
  {
    var k := Key(o.sender, m);
    if live.closed then RefundedFor(db, o, MarketClosed)
    else if o.amount > live.ctokens || live.p.collateralFactor <= 0.0
    then RefundedFor(WithSupply(db, k), o, PledgeDenied)
    else if live.p.maxPledge > 0.0 && pledged + o.amount > live.p.maxPledge
    then RefundedFor(WithSupply(db, k), o, MaxPledgeExceeded)
    else Locking(Leaves(db, o, NoExtra, m, live), o, k, Stored(db, k) + o.amount)
  }

  lemma PledgeCases(db: Db, o: Output, m: nat, v: View, s: Batch)
    requires Reads(db, o, m, v, s) && s == PledgePlan(o, m, v) && Paid(o)
    ensures RunAll(db, s) == PledgeLeft(db, o, m, v.sm, v.pledged)
  {
    if s.c.CreateTx? {
      BatchLeaves(db, o, s);
      SupplyRowWritten(db, o, Key(o.sender, m), Supply(v.Collaterals() + o.amount, o.id));
    } else {
      RefusalLeaves(db, o, s, s.c.id.reason);
    }
  }

  lemma PledgeOutcome(db: Db, o: Output, m: nat)
    requires Inv(db) && Fresh(db, o) && Legal(db, o) && m in db.markets && o.action == DoPledge && o.asset == CToken(m)
    ensures Step(db, o) == PledgeLeft(db, o, m, Live(db, m, o.block), Pledged(db, m))
  {
    var v := OneView(db, o, m);
    PledgeCases(db, o, m, v, Slots(db, o));
  }

  // ---- Unpledge -------------------------------------------------------------------------------------

  /** Collateral is given back if the account has pledged it and its liquidity can spare its worth. */
  function UnpledgeLeft(db: Db, o: Output, m: nat, live: Market, liquidity: real, tokens: real): Db
  {
    var k := Key(o.sender, m);
    if live.closed then RefundedFor(db, o, MarketClosed)
    else if k !in db.supplies then Missing(db, o, SupplyNotFound)
    else if tokens > Stored(db, k) then RefundedFor(db, o, InsufficientCollaterals)
    else if Mul(Mul(Mul(tokens, live.exchangeRate), live.p.collateralFactor), live.price) > liquidity
    then RefundedFor(db, o, InsufficientBorrowBalance)
    else Paying(Locking(Leaves(db, o, NoExtra, m, live), o, k, Stored(db, k) - tokens),
                o, UnpledgeTransfer, CToken(m), tokens)
  }

  lemma UnpledgeAccepted(db: Db, o: Output, m: nat, v: View, s: Batch, tokens: real)
    requires Reads(db, o, m, v, s) && s == UnpledgePlan(o, m, v, tokens) && s.c.CreateTx? && Grid8(tokens)
    ensures RunAll(db, s) == UnpledgeLeft(db, o, m, v.sm, v.liquidity, tokens)
  {
    TakenCollateral(v, tokens);
    BatchLeaves(db, o, s);
    FreshTransfer(db, o, s.e);
    SupplyRowWritten(db, o, Key(o.sender, m), Supply(v.Collaterals() - tokens, o.id));
  }

  lemma UnpledgeCases(db: Db, o: Output, m: nat, v: View, s: Batch, tokens: real)
    requires Reads(db, o, m, v, s) && s == UnpledgePlan(o, m, v, tokens) && Grid8(tokens)
    ensures RunAll(db, s) == UnpledgeLeft(db, o, m, v.sm, v.liquidity, tokens)
  {
    if s == IDLE {
      IdleLeaves(db);
    } else if s.c.CreateTx? {
      UnpledgeAccepted(db, o, m, v, s, tokens);
    } else {
      RefusalLeaves(db, o, s, s.c.id.reason);
    }
  }

  lemma UnpledgeOutcome(db: Db, o: Output, m: nat, memo: real)
    requires Inv(db) && Fresh(db, o) && Legal(db, o) && m in db.markets && o.action == DoUnpledge(CToken(m), memo)
    ensures var live := Live(db, m, o.block);
      Step(db, o) == UnpledgeLeft(db, o, m, live, Liquidity(db, map[m := live], o.sender), Trunc8(memo))
  {
    var v := OneView(db, o, m);
    Trunc8Grid(memo);
    UnpledgeCases(db, o, m, v, Slots(db, o), Trunc8(memo));
  }

  // ---- Borrow ---------------------------------------------------------------------------------------

  /** A positive loan is made up to the cash above the reserves and the borrow cap, to an account whose
      liquidity covers it; the borrower is paid exactly the loan and owes it on top of the debt before. */
  function LoanLeft(db: Db, o: Output, m: nat, live: Market, liquidity: real, loan: real): Db
  {
    var k := Key(o.sender, m);
    if live.closed then RefundedFor(db, o, MarketClosed)
    else if loan <= 0.0 || loan > live.cash - live.reserves - live.p.borrowCap || Mul(loan, live.price) > liquidity
    then RefundedFor(WithBorrow(db, k), o, BorrowDenied)
    else Paying(Owing(Leaves(db, o, NoExtra, m, LentRow(live, loan)), o, k, DebtAt(db, k, live) + loan,
                      live.borrowIndex),
                o, BorrowTransfer, Underlying(m), loan)
  }

  /** Lending moves cash into borrows and leaves the rate as it was. */
  lemma LentLeaves(m: Market, amount: real, block: int)
    requires MarketOk(m) && Refreshed(m) && Grid8(amount) && BorrowAllowed(m, amount) && m.blockNumber >= block
    ensures Accrue(Lent(m, amount), block) == LentRow(m, amount)
  {
    Grid8Is16(amount);
    LentOk(m, amount);
    AccrueAgain(Lent(m, amount), block);
    LentKeepsRate(m, amount, block);
  }

  lemma LoanAccepted(db: Db, o: Output, m: nat, v: View, s: Batch, loan: real)
    requires Reads(db, o, m, v, s) && s == BorrowPlan(o, m, v, loan) && s.c.CreateTx? && Grid8(loan)
    requires Refreshed(v.sm) && v.sm.blockNumber >= o.block
    ensures RunAll(db, s) == LoanLeft(db, o, m, v.sm, v.liquidity, loan)
  {
    LentLeaves(v.sm, loan, o.block);
    DebtRead(db, o, m, v, s);
    LoanTables(db, o, s, Key(o.sender, m), v.sm, v.Debt(), loan);
  }

  lemma LoanTables(db: Db, o: Output, s: Batch, k: Key, live: Market, debt: real, loan: real)
    requires Clean(db, o, s) && k.market in db.markets
    requires s == Batch(Nop, CreateBorrow(k), CreateTx(o.trace, NoExtra),
                        PutBorrow(k, Borrow(debt + loan, live.borrowIndex, o.id)),
                        Pay(o, BorrowTransfer, Underlying(k.market), loan),
                        PutMarket(k.market, LentRow(live, loan).(version := o.id)),
                        Nop, Nop, Nop)
    ensures RunAll(db, s)
         == Paying(Owing(Leaves(db, o, NoExtra, k.market, LentRow(live, loan)), o, k, debt + loan, live.borrowIndex),
                   o, BorrowTransfer, Underlying(k.market), loan)
  {
    BatchLeaves(db, o, s);
    FreshTransfer(db, o, s.e);
    DebtRowWritten(db, o, k, s.d.borrow);
  }

  lemma LoanCases(db: Db, o: Output, m: nat, v: View, s: Batch, loan: real)
    requires Reads(db, o, m, v, s) && s == BorrowPlan(o, m, v, loan) && Grid8(loan)
    requires Refreshed(v.sm) && v.sm.blockNumber >= o.block
    ensures RunAll(db, s) == LoanLeft(db, o, m, v.sm, v.liquidity, loan)
  {
    if s.c.CreateTx? {
      LoanAccepted(db, o, m, v, s, loan);
    } else {
      RefusalLeaves(db, o, s, s.c.id.reason);
    }
  }

  lemma LoanOutcome(db: Db, o: Output, m: nat, memo: real)
    requires Inv(db) && Fresh(db, o) && Legal(db, o) && m in db.markets && o.action == DoBorrow(Underlying(m), memo)
    ensures var live := Live(db, m, o.block);
      Step(db, o) == LoanLeft(db, o, m, live, Liquidity(db, map[m := live], o.sender), Trunc8(memo))
  {
    var v := OneView(db, o, m);
    LiveRefreshed(db.markets[m], o.block);
    AccruedBlock(AfterFind(db.markets[m]), o.block);
    Trunc8Grid(memo);
    LoanCases(db, o, m, v, Slots(db, o), Trunc8(memo));
  }

  // ---- Repay ----------------------------------------------------------------------------------------

  /** A repayment takes the lesser of the payment and the debt off the debt and the market's borrows, which
      stop at zero, into its cash; the truncated rest goes back if it is a unit of the 8-digit grid. */
  function RepaymentLeft(db: Db, o: Output, m: nat, live: Market): Db
  {
    var k := Key(o.sender, m);
    if k !in db.borrows then Missing(db, o, BorrowNotFound)
    else
      var debt := DebtAt(db, k, live);
      var repay := if o.amount <= debt then o.amount else debt;
      var left := Owing(Leaves(db, o, Repaid(repay), m, RepaidRow(live, repay)), o, k, debt - repay, live.borrowIndex);
      if o.amount - repay < SAT then left else Paying(left, o, RepayRefund, Underlying(m), Trunc8(o.amount - repay))
  }

  lemma ReturnedLeaves(m: Market, repay: real, block: int)
    requires MarketOk(m) && m.blockNumber >= block && Grid16(repay) && repay >= 0.0
    ensures Accrue(Returned(m, repay), block) == RepaidRow(m, repay)
  {
    ReturnedOk(m, repay);
    AccrueAgain(Returned(m, repay), block);
  }

  /** What is not on the 8-digit grid above zero is truncated to nothing. */
  lemma RestRefunded(rest: real)
    requires rest >= 0.0
    ensures Trunc8(rest) > 0.0 <==> rest >= SAT
  {
    FromUnits8(0.0, 0);
    Trunc8Above(rest, 0.0);
  }

  lemma RepaymentAccepted(db: Db, o: Output, m: nat, v: View, s: Batch, repay: real, row: Market)
    requires Reads(db, o, m, v, s) && s == RepayPlan(o, m, v) && Paid(o) && v.borrow.Some?
    requires repay == Min(o.amount, v.Debt()) && row == Accrue(Returned(v.sm, repay), o.block)
    requires Trunc8(o.amount - repay) > 0.0 <==> o.amount - repay >= SAT
    ensures var k := Key(o.sender, m);
      var left := Owing(Leaves(db, o, Repaid(repay), m, row), o, k, v.Debt() - repay, v.sm.borrowIndex);
      RunAll(db, s) == if o.amount - repay < SAT then left
                       else Paying(left, o, RepayRefund, Underlying(m), Trunc8(o.amount - repay))
  {
    BatchLeaves(db, o, s);
    FreshTransfer(db, o, s.d);
    DebtRowWritten(db, o, Key(o.sender, m), Borrow(v.Debt() - repay, v.bm.borrowIndex, o.id));
  }

  lemma RepaymentCases(db: Db, o: Output, m: nat, v: View, s: Batch)
    requires Reads(db, o, m, v, s) && s == RepayPlan(o, m, v) && Paid(o) && v.sm.blockNumber >= o.block
    ensures RunAll(db, s) == RepaymentLeft(db, o, m, v.sm)
  {
    if s == IDLE {
      IdleLeaves(db);
    } else if v.borrow.None? {
      RefusalLeaves(db, o, s, BorrowNotFound);
    } else {
      RepaymentTaken(db, o, m, v, s);
    }
  }

  lemma RepaymentTaken(db: Db, o: Output, m: nat, v: View, s: Batch)
    requires Reads(db, o, m, v, s) && s == RepayPlan(o, m, v) && Paid(o) && v.sm.blockNumber >= o.block
    requires v.borrow.Some?
    ensures RunAll(db, s) == RepaymentLeft(db, o, m, v.sm)
  {
    var repay := Min(o.amount, v.Debt());
    ViewRows(v);
    Grid8Is16(o.amount);
    ReturnedLeaves(v.sm, repay, o.block);
    RestRefunded(o.amount - repay);
    DebtRead(db, o, m, v, s);
    RepaymentAccepted(db, o, m, v, s, repay, Accrue(Returned(v.sm, repay), o.block));
  }

  lemma RepaymentOutcome(db: Db, o: Output, m: nat)
    requires Inv(db) && Fresh(db, o) && Legal(db, o) && m in db.markets
    requires o.action == DoRepay && o.asset == Underlying(m)
    ensures Step(db, o) == RepaymentLeft(db, o, m, Live(db, m, o.block))
  {
    var v := OneView(db, o, m);
    AccruedBlock(AfterFind(db.markets[m]), o.block);
    RepaymentCases(db, o, m, v, Slots(db, o));
  }

  // ---- What a repayment does for the payer -----------------------------------------------------------

  /** Unless total borrows are clamped, a repayment moves borrows into cash and leaves the rate as it was. */
  lemma RepaymentKeepsRate(m: Market, repay: real, block: int)
    requires MarketOk(m) && Refreshed(m) && m.blockNumber >= block && Grid16(repay) && 0.0 <= repay <= m.borrows
    ensures Accrue(Returned(m, repay), block).exchangeRate == m.exchangeRate
  {
    ReturnedOk(m, repay);
    var n := Returned(m, repay);
    AccrueAgain(n, block);
    assert n.cash + n.borrows - n.reserves == m.cash + m.borrows - m.reserves;
    assert GetExchangeRate(n.cash, n.borrows, n.reserves, n.ctokens, n.p.initExchangeRate)
        == GetExchangeRate(m.cash, m.borrows, m.reserves, m.ctokens, m.p.initExchangeRate);
  }

  /** The stored account after the batch, at the row of the market it leaves. */
  lemma RepayQuoted(db: Db, mid: Db, o: Output, m: nat, v: View, live: map<nat, Market>, s: Batch, n: Market)
    requires Sound(db, o, o.sender, m, m, v, live, s) && n == RowAfter(db, s, m)
    requires mid == db.(supplies := SuppliesAfter(db, s), borrows := BorrowsAfter(db, s))
    requires SameQuotes(v.bm, n.(exchangeRate := v.bm.exchangeRate)) && n.exchangeRate >= v.bm.exchangeRate
    ensures Liquidity(RunAll(db, s), map[], o.sender)
         == Liquidity(mid, live, o.sender) + StoredPledge(mid, Key(o.sender, m), n)
            - StoredPledge(mid, Key(o.sender, m), v.bm)
  {
    var moved := live[m := n];
    TwoQuotes(db, o, s, o.sender, m, m, moved);
    MovedValue(db, mid, o, s, o.sender, live, moved, Key(o.sender, m), n);
  }

  lemma RepayHealth(db: Db, o: Output, m: nat, v: View, live: map<nat, Market>, s: Batch, debt: real, loan: real,
                    n: Market)
    requires Sound(db, o, o.sender, m, m, v, live, s) && Inv(db) && v.sm == v.bm && loan <= 0.0 && Grid16(-loan)
    requires SuppliesAfter(db, s) == db.supplies && Owes(db, o, s, o.sender, m, v, debt, loan)
    requires n == RowAfter(db, s, m) == Accrue(Returned(v.bm, -loan), o.block).(version := o.id)
    ensures Liquidity(RunAll(db, s), map[], o.sender) >= v.liquidity - Mul(loan, v.bm.price)
    ensures n.exchangeRate == v.bm.exchangeRate
      ==> Liquidity(RunAll(db, s), map[], o.sender) == v.liquidity - Mul(loan, v.bm.price)
  {
    var mid := db.(supplies := SuppliesAfter(db, s), borrows := BorrowsAfter(db, s));
    RepaymentRaisesRate(v.bm, -loan, o.block);
    RepayQuoted(db, mid, o, m, v, live, s, n);
    PledgeRises(mid, Key(o.sender, m), v.bm, n);
    LoanMoved(db, o.sender, m, v, live, debt, loan, o.id);
  }

  lemma RepayWritten(db: Db, o: Output, m: nat, v: View, repay: real)
    requires m in db.markets && Fresh(db, o) && ViewOk(v) && Paid(o) && RepayPlan(o, m, v).c.CreateTx?
    requires repay == Min(o.amount, v.Debt())
    ensures var s := RepayPlan(o, m, v);
      && SuppliesAfter(db, s) == db.supplies && Owes(db, o, s, o.sender, m, v, v.Debt(), -repay)
      && RowAfter(db, s, m) == Accrue(Returned(v.bm, repay), o.block).(version := o.id)
      && repay >= 0.0 && Grid16(repay)
  {
    DebtRowWritten(db, o, Key(o.sender, m), Borrow(v.Debt() - repay, v.bm.borrowIndex, o.id));
    ViewRows(v);
    Grid8Is16(o.amount);
    Grid16Add(v.Debt(), repay);
  }

  lemma NegatedValue(a: real, price: real)
    ensures -Mul(-a, price) == Mul(a, price)
  {
  }

  /** What an accepted repayment reads and writes. */
  ghost predicate Repays(db: Db, o: Output, m: nat, v: View, live: map<nat, Market>, s: Batch, repay: real)
  {
    && Sound(db, o, o.sender, m, m, v, live, s) && Inv(db) && v.sm == v.bm && repay >= 0.0 && Grid16(repay)
    && SuppliesAfter(db, s) == db.supplies && Owes(db, o, s, o.sender, m, v, v.Debt(), -repay)
    && RowAfter(db, s, m) == Accrue(Returned(v.bm, repay), o.block).(version := o.id)
  }

  lemma RepaySound(db: Db, o: Output, m: nat) returns (v: View, live: map<nat, Market>, repay: real)
    requires Inv(db) && Fresh(db, o) && Legal(db, o) && m in db.markets
    requires o.action == DoRepay && o.asset == Underlying(m)
    requires Key(o.sender, m) in db.borrows && Live(db, m, o.block).exchangeRate > 0.0
    ensures Repays(db, o, m, v, live, Slots(db, o), repay) && v.sm == Live(db, m, o.block)
    ensures v.liquidity == Liquidity(db, map[m := Live(db, m, o.block)], o.sender)
    ensures repay == Min(o.amount, BorrowBalance(db.borrows[Key(o.sender, m)], Live(db, m, o.block)))
  {
    v := OneView(db, o, m);
    RepayShaped(o, m, v);
    live := StepSound(db, o, o.sender, m, m, v, RepayPlan(o, m, v));
    repay := Min(o.amount, v.Debt());
    RepayWritten(db, o, m, v, repay);
  }

  lemma RepaysHealth(db: Db, o: Output, m: nat, v: View, live: map<nat, Market>, s: Batch, repay: real)
    requires Repays(db, o, m, v, live, s, repay)
    ensures Liquidity(RunAll(db, s), map[], o.sender) >= v.liquidity + Mul(repay, v.sm.price)
    ensures repay <= v.sm.borrows ==> Liquidity(RunAll(db, s), map[], o.sender) == v.liquidity + Mul(repay, v.sm.price)
  {
    NegatedValue(repay, v.bm.price);
    if repay <= v.bm.borrows { RepaymentKeepsRate(v.bm, repay, o.block); }
    RepayHealth(db, o, m, v, live, s, v.Debt(), -repay, RowAfter(db, s, m));
  }

  /** A repayment raises the liquidity of the payer by the value of what it repays: exactly, or more if
      total borrows are clamped at zero and the rate rises. */
  lemma RepaymentHelpsThePayer(db: Db, o: Output, m: nat)
    requires Inv(db) && Fresh(db, o) && Legal(db, o) && m in db.markets
    requires o.action == DoRepay && o.asset == Underlying(m)
    requires Key(o.sender, m) in db.borrows && Live(db, m, o.block).exchangeRate > 0.0
    ensures var live := Live(db, m, o.block);
      var debt := BorrowBalance(db.borrows[Key(o.sender, m)], live);
      var repay := if o.amount <= debt then o.amount else debt;
      var before, after := Liquidity(db, map[m := live], o.sender), Liquidity(Step(db, o), map[], o.sender);
      && after >= before + Mul(repay, live.price)
      && (repay <= live.borrows ==> after == before + Mul(repay, live.price))
  {
    var v, live, repay := RepaySound(db, o, m);
    RepaysHealth(db, o, m, v, live, Slots(db, o), repay);
  }
}
