/** What quick loans, liquidations and withdrawals leave behind, and which outputs are passed over:
    worker/payee/quick_borrow.go, liquidation.go, proposal_withdraw.go and payee.go. */
module Seizures {
  import opened Decimal
  import opened Core
  import opened Rates
  import opened Account
  import opened Liquidation
  import opened Handlers
  import opened Books
  import opened Replay
  import opened Refunds
  import opened Ledger
  import opened Flows
  import opened Health
  import opened Outcomes
  import opened Loans

  /** What the plans of two markets take from the view. */
  predicate ReadsTwo(db: Db, o: Output, user: nat, si: nat, bi: nat, v: View, s: Batch)
  {
    && Clean(db, o, s) && ViewOk(v) && si in db.markets && bi in db.markets && (si == bi ==> v.sm == v.bm)
    && v.sm.version < o.id && v.bm.version < o.id && v.sysversion == db.sysversion
    && v.supply == Find(db.supplies, Key(user, si)) && v.borrow == Find(db.borrows, Key(user, bi))
    && Refreshed(v.sm) && v.sm.blockNumber >= o.block && Refreshed(v.bm) && v.bm.blockNumber >= o.block
  }

  lemma TwoView(db: Db, o: Output, user: nat, si: nat, bi: nat) returns (v: View)
    requires Inv(db) && Fresh(db, o) && si in db.markets && bi in db.markets
    ensures v == Look(db, o, user, si, bi) && ReadsTwo(db, o, user, si, bi, v, Slots(db, o))
  {
    v := Look(db, o, user, si, bi);
    LookOk(db, o, user, si, bi);
    SlotsOwned(db, o);
    LiveRefreshed(db.markets[si], o.block);
    LiveRefreshed(db.markets[bi], o.block);
    AccruedBlock(AfterFind(db.markets[si]), o.block);
    AccruedBlock(AfterFind(db.markets[bi]), o.block);
  }

  /** A market accrued to its own block is left as it is. */
  lemma AccruedStays(m: Market, block: int)
    requires MarketOk(m) && Refreshed(m) && m.blockNumber >= block
    ensures Accrue(m, block) == m
  {
    AccrueAgain(m, block);
  }

  function PutRow(t: map<nat, Market>, x: Write): map<nat, Market> { if x.PutMarket? then t[x.market := x.row] else t }

  function Order(t: Transfers, x: Write): Transfers { if x.PutTransfer? then t[x.id := x.transfer] else t }

  /** Two writes that are not updates of one market, nor one transfer. */
  predicate Distinct(x: Write, y: Write)
  {
    (x.PutMarket? && y.PutMarket? ==> x.market != y.market) && (x.PutTransfer? && y.PutTransfer? ==> x.id != y.id)
  }

  /** Every write of a batch that updates one supply row and one debt row. */
  function AccountAfter(db: Db, s: Batch): Db
    requires s.c.CreateTx? && s.d.PutSupply? && s.e.PutBorrow?
  {
    Db(PutRow(PutRow(PutRow(db.markets, s.g), s.h), s.i), db.supplies[s.d.key := s.d.supply],
       db.borrows[s.e.key := s.e.borrow], db.txs[s.c.trace := s.c.extra], Order(Order(db.transfers, s.f), s.g),
       db.sysversion)
  }

  /** A batch that updates one supply row and one debt row: every write takes effect. */
  lemma AccountLeaves(db: Db, o: Output, s: Batch)
    requires Clean(db, o, s) && s.c.CreateTx? && s.d.PutSupply? && s.e.PutBorrow? && !s.f.PutMarket?
    requires (s.a == Nop || s.a == CreateSupply(s.d.key)) && (s.b == Nop || s.b == CreateBorrow(s.e.key))
    requires Distinct(s.f, s.g) && Distinct(s.g, s.h) && Distinct(s.g, s.i) && Distinct(s.h, s.i)
    ensures RunAll(db, s) == AccountAfter(db, s)
  {
    BatchLeaves(db, o, s);
    SupplyRowWritten(db, o, s.d.key, s.d.supply);
    DebtRowWritten(db, o, s.e.key, s.e.borrow);
    AccountPays(db, o, s);
    AccountMarkets(db, o, s);
  }

  lemma AccountPays(db: Db, o: Output, s: Batch)
    requires Clean(db, o, s) && s.c.CreateTx? && s.d.PutSupply? && s.e.PutBorrow? && Distinct(s.f, s.g)
    ensures TransfersAfter(db, s) == Order(Order(db.transfers, s.f), s.g)
  {
    FreshTransfer(db, o, s.f);
    FreshTransfer(db, o, s.g);
  }

  lemma AccountMarkets(db: Db, o: Output, s: Batch)
    requires Clean(db, o, s) && s.d.PutSupply? && s.e.PutBorrow? && !s.f.PutMarket?
    requires Distinct(s.g, s.h) && Distinct(s.g, s.i) && Distinct(s.h, s.i)
    ensures MarketsAfter(db, s) == PutRow(PutRow(PutRow(db.markets, s.g), s.h), s.i)
  {
  }

  /** A second market that an accepted output changes. */
  function AlsoLeaves(db: Db, o: Output, m: nat, row: Market): Db
  {
    db.(markets := db.markets[m := row.(version := o.id)])
  }

  // ---- Liquidation ----------------------------------------------------------------------------------

  /** The account holds a row, of either kind, in a market that is closed. */
  predicate InClosedMarket(db: Db, user: nat)
  {
    exists k :: k in db.supplies.Keys + db.borrows.Keys && Closed(db, user, k)
  }

  predicate Closed(db: Db, user: nat, k: Key)
  {
    k.user == user && k.market in db.markets && db.markets[k.market].closed
  }

  lemma ClosedMarkets(db: Db, user: nat)
    ensures HasClosedMarkets(db, user) <==> InClosedMarket(db, user)
  {
    forall k | k in db.supplies.Keys + db.borrows.Keys && Closed(db, user, k)
      ensures HasClosedMarkets(db, user)
    {
      assert k in db.supplies || k in db.borrows;
    }
    forall k | (k in db.supplies || k in db.borrows) && Closed(db, user, k)
      ensures InClosedMarket(db, user)
    {
      assert k in db.supplies.Keys + db.borrows.Keys;
    }
  }

  /** What a liquidation on the given terms leaves. Within one market, the market does not see the
      repayment. */
  function SeizureLeft(db: Db, o: Output, k: Key, j: Key, sm: Market, bm: Market, t: Terms): Db
  {
    var recorded := Leaves(db, o, Seized(t.ctokens, t.repay), k.market, sm);
    var taken := Paying(Locking(recorded, o, k, Stored(db, k) - t.ctokens), o, LiquidateTransfer, CToken(k.market),
                        t.ctokens);
    var repaid := Owing(taken, o, j, DebtAt(db, j, bm) - t.repay, bm.borrowIndex);
    var rest := o.amount - t.repay;
    var left := if rest > 0.0 then Paying(repaid, o, LiquidateRefund, Underlying(j.market), rest) else repaid;
    if k.market == j.market then left
    else AlsoLeaves(left, o, j.market, RepaidRow(bm, t.repay))
  }

  /** An account is liquidated if it has both rows, none in a closed market, and less than no liquidity;
      else the payment is refunded in full, or passed over if a row is missing before version 5. */
  function Liquidated(db: Db, o: Output, user: nat, si: nat, bi: nat, sm: Market, bm: Market, liquidity: real): Db
  {
    var k, j := Key(user, si), Key(user, bi);
    if k !in db.supplies then Missing(db, o, SupplyNotFound)
    else if j !in db.borrows then Missing(db, o, BorrowNotFound)
    else if InClosedMarket(db, user) then RefundedFor(db, o, MarketClosed)
    else if liquidity >= 0.0 then RefundedFor(db, o, SeizeDenied)
    else SeizureLeft(db, o, k, j, sm, bm, SeizeTerms(o.amount, Stored(db, k), DebtAt(db, j, bm), sm, bm))
  }

  /** The plan of a liquidation on the given terms, with the rows it leaves written out. */
  lemma SeizurePlanned(o: Output, user: nat, si: nat, bi: nat, v: View, t: Terms)
    requires ViewOk(v) && Paid(o) && Quoted(v.sm) && LiquidatePlan(o, user, si, bi, v).c.CreateTx?
    requires Refreshed(v.sm) && v.sm.blockNumber >= o.block && v.bm.blockNumber >= o.block
    requires t == SeizeTerms(o.amount, v.Collaterals(), v.Debt(), v.sm, v.bm)
    ensures LiquidatePlan(o, user, si, bi, v)
        == Batch(Nop, Nop, CreateTx(o.trace, Seized(t.ctokens, t.repay)),
                 PutSupply(Key(user, si), Supply(v.Collaterals() - t.ctokens, o.id)),
                 PutBorrow(Key(user, bi), Borrow(v.Debt() - t.repay, v.bm.borrowIndex, o.id)),
                 Pay(o, LiquidateTransfer, CToken(si), t.ctokens),
                 if o.amount - t.repay > 0.0 then Pay(o, LiquidateRefund, Underlying(bi), o.amount - t.repay) else Nop,
                 PutMarket(si, v.sm.(version := o.id)),
                 if si == bi then Nop
                 else PutMarket(bi, RepaidRow(v.bm, t.repay).(version := o.id)))
  {
    ViewRows(v);
    Grid8Is16(o.amount);
    LiquidationBounded(o.amount, v.Collaterals(), v.Debt(), v.sm, v.bm);
    TakenCollateral(v, t.ctokens);
    RepaymentRows(o, bi, Key(user, bi), v, t.repay);
    AccruedStays(v.sm, o.block);
    ReturnedLeaves(v.bm, t.repay, o.block);
  }

  /** The tables after such a batch. */
  lemma SeizureTables(db: Db, o: Output, s: Batch, k: Key, j: Key, sm: Market, bm: Market, t: Terms)
    requires s == Batch(Nop, Nop, CreateTx(o.trace, Seized(t.ctokens, t.repay)),
                        PutSupply(k, Supply(Stored(db, k) - t.ctokens, o.id)),
                        PutBorrow(j, Borrow(DebtAt(db, j, bm) - t.repay, bm.borrowIndex, o.id)),
                        Pay(o, LiquidateTransfer, CToken(k.market), t.ctokens),
                        if o.amount - t.repay > 0.0
                        then Pay(o, LiquidateRefund, Underlying(j.market), o.amount - t.repay) else Nop,
                        PutMarket(k.market, sm.(version := o.id)),
                        if k.market == j.market then Nop
                        else PutMarket(j.market, RepaidRow(bm, t.repay).(version := o.id)))
    ensures AccountAfter(db, s) == SeizureLeft(db, o, k, j, sm, bm, t)
  {
  }

  lemma LiquidateAccepted(db: Db, o: Output, user: nat, si: nat, bi: nat, v: View, s: Batch, t: Terms)
    requires ReadsTwo(db, o, user, si, bi, v, s) && s == LiquidatePlan(o, user, si, bi, v) && Paid(o)
    requires s.c.CreateTx? && Quoted(v.sm) && t == SeizeTerms(o.amount, v.Collaterals(), v.Debt(), v.sm, v.bm)
    ensures RunAll(db, s) == SeizureLeft(db, o, Key(user, si), Key(user, bi), v.sm, v.bm, t)
  {
    SeizurePlanned(o, user, si, bi, v, t);
    AccountLeaves(db, o, s);
    SeizureTables(db, o, s, Key(user, si), Key(user, bi), v.sm, v.bm, t);
  }

  lemma LiquidateCases(db: Db, o: Output, user: nat, si: nat, bi: nat, v: View, s: Batch)
    requires ReadsTwo(db, o, user, si, bi, v, s) && s == LiquidatePlan(o, user, si, bi, v) && Paid(o)
    requires v.closed == InClosedMarket(db, user) && (s.c.CreateTx? ==> Quoted(v.sm))
    ensures RunAll(db, s) == Liquidated(db, o, user, si, bi, v.sm, v.bm, v.liquidity)
  {
    if s == IDLE {
      IdleLeaves(db);
    } else if s.c.CreateTx? {
      LiquidateAccepted(db, o, user, si, bi, v, s, SeizeTerms(o.amount, v.Collaterals(), v.Debt(), v.sm, v.bm));
    } else {
      RefusalLeaves(db, o, s, s.c.id.reason);
    }
  }

  lemma LiquidateOutcome(db: Db, o: Output, user: nat, si: nat, bi: nat)
    requires Inv(db) && Fresh(db, o) && Legal(db, o) && si in db.markets && bi in db.markets
    requires o.action == DoLiquidate(user, CToken(si)) && o.asset == Underlying(bi)
    ensures var sm, bm := Live(db, si, o.block), Live(db, bi, o.block);
      Step(db, o) == Liquidated(db, o, user, si, bi, sm, bm, Liquidity(db, map[si := sm, bi := bm], user))
  {
    var v := TwoView(db, o, user, si, bi);
    ClosedMarkets(db, user);
    LiquidateCases(db, o, user, si, bi, v, Slots(db, o));
  }

  /** Only accounts under water are liquidated: an output is accepted exactly if the account has both rows,
      none in a closed market, and less than no liquidity. Otherwise it changes no account and no market,
      and what it paid is refunded in full or passed over. */
  lemma LiquidatedExactlyIfUnderwater(db: Db, o: Output, user: nat, si: nat, bi: nat)
    requires Inv(db) && Fresh(db, o) && Legal(db, o) && si in db.markets && bi in db.markets
    requires o.action == DoLiquidate(user, CToken(si)) && o.asset == Underlying(bi)
    ensures var e := Step(db, o); var live := map[si := Live(db, si, o.block), bi := Live(db, bi, o.block)];
      && (o.trace in e.txs <==>
            && Key(user, si) in db.supplies && Key(user, bi) in db.borrows && !InClosedMarket(db, user)
            && Liquidity(db, live, user) < 0.0)
      && (o.trace !in e.txs ==>
            e == db || exists reason :: e == RefundedFor(db, o, reason))
  {
    LiquidateOutcome(db, o, user, si, bi);
    var sm, bm := Live(db, si, o.block), Live(db, bi, o.block);
    OnlyUnderwater(db, o, user, si, bi, sm, bm, Liquidity(db, map[si := sm, bi := bm], user));
  }

  lemma OnlyUnderwater(db: Db, o: Output, user: nat, si: nat, bi: nat, sm: Market, bm: Market, liquidity: real)
    requires o.trace !in db.txs
    ensures var e := Liquidated(db, o, user, si, bi, sm, bm, liquidity);
      && (o.trace in e.txs <==>
            && Key(user, si) in db.supplies && Key(user, bi) in db.borrows && !InClosedMarket(db, user)
            && liquidity < 0.0)
      && (o.trace !in e.txs ==> e == db || exists reason :: e == RefundedFor(db, o, reason))
  {
    var e := Liquidated(db, o, user, si, bi, sm, bm, liquidity);
    if o.trace !in e.txs && e != db {
      assert e == RefundedFor(db, o, SupplyNotFound) || e == RefundedFor(db, o, BorrowNotFound)
          || e == RefundedFor(db, o, MarketClosed) || e == RefundedFor(db, o, SeizeDenied);
    }
  }

  // ---- Quick borrow ---------------------------------------------------------------------------------

  /** The liquidity a deposit is credited with: that of its cTokens, or of the amount itself. */
  function DepositWorth(o: Output, m: Market): real
  {
    if o.asset.CToken? then Mul(Mul(Mul(o.amount, m.exchangeRate), m.p.collateralFactor), m.price)
    else Mul(Mul(o.amount, m.p.collateralFactor), m.price)
  }

  /** What an accepted quick loan leaves: the cTokens locked, the loan owed and paid out, both markets. */
  function QuickLoanLeft(db: Db, o: Output, k: Key, j: Key, sm: Market, bm: Market, tokens: real, loan: real): Db
  {
    var row := if o.asset.CToken? then sm else DepositRow(sm, o.amount, tokens);
    var left := AlsoLeaves(Leaves(db, o, Core.Pledging(tokens), k.market, row), o, j.market, LentRow(bm, loan));
    Paying(Owing(Locking(left, o, k, Stored(db, k) + tokens), o, j, DebtAt(db, j, bm) + loan, bm.borrowIndex),
           o, QuickBorrowTransfer, Underlying(j.market), loan)
  }

  /** A quick loan needs two open markets, a deposit that counts as collateral and mints something within
      the pledge limit, and a loan that the market's cash and the account's liquidity with the deposit cover. */
  function QuickLent(db: Db, o: Output, si: nat, bi: nat, sm: Market, bm: Market, liquidity: real, pledged: real,
                     loan: real): Db
  {
    var k, j := Key(o.sender, si), Key(o.sender, bi);
    var tokens := if o.asset.CToken? then o.amount else Trunc8(Div(o.amount, Rate(sm)));
    var rows := WithBorrow(WithSupply(db, k), j);
    if si == bi then RefundedFor(db, o, SameAsset)
    else if sm.closed || bm.closed then RefundedFor(db, o, MarketClosed)
    else if sm.p.collateralFactor <= 0.0 then RefundedFor(db, o, PledgeDisallowed)
    else if loan <= 0.0 || loan > bm.cash - bm.reserves - bm.p.borrowCap
            || Mul(loan, bm.price) > liquidity + DepositWorth(o, sm)
    then RefundedFor(rows, o, BorrowDenied)
    else if tokens <= 0.0 then RefundedFor(rows, o, AmountTooSmall)
    else if sm.p.maxPledge > 0.0 && pledged + tokens > sm.p.maxPledge then RefundedFor(rows, o, MaxPledgeExceeded)
    else QuickLoanLeft(db, o, k, j, sm, bm, tokens, loan)
  }

  /** The writes of an accepted quick loan, with the rows it leaves written out. */
  function QuickLoanWrites(o: Output, k: Key, j: Key, sm: Market, bm: Market, pledged: real, debt: real, tokens: real,
                           loan: real): Batch
  {
    var row := if o.asset.CToken? then sm else DepositRow(sm, o.amount, tokens);
    Batch(CreateSupply(k), CreateBorrow(j), CreateTx(o.trace, Core.Pledging(tokens)),
          PutSupply(k, Supply(pledged + tokens, o.id)), PutBorrow(j, Borrow(debt + loan, bm.borrowIndex, o.id)),
          Pay(o, QuickBorrowTransfer, Underlying(j.market), loan), PutMarket(k.market, row.(version := o.id)),
          PutMarket(j.market, LentRow(bm, loan).(version := o.id)), Nop)
  }

  lemma QuickLoanPlanned(o: Output, si: nat, bi: nat, v: View, tokens: real, loan: real)
    requires ViewOk(v) && Paid(o) && Grid8(loan) && QuickBorrowPlan(o, si, bi, v, loan).c.CreateTx?
    requires Refreshed(v.sm) && v.sm.blockNumber >= o.block && Refreshed(v.bm) && v.bm.blockNumber >= o.block
    requires tokens == if o.asset.CToken? then o.amount else Trunc8(Div(o.amount, CurExchangeRate(v.sm)))
    ensures si != bi && QuickBorrowPlan(o, si, bi, v, loan)
      == QuickLoanWrites(o, Key(o.sender, si), Key(o.sender, bi), v.sm, v.bm, v.Collaterals(), v.Debt(), tokens, loan)
  {
    QuickBorrowChecked(o, si, bi, v, loan);
    LoanRows(o, bi, Key(o.sender, bi), v, loan);
    LentLeaves(v.bm, loan, o.block);
    AccruedStays(v.sm, o.block);
    if !o.asset.CToken? { MintedLeaves(v.sm, tokens, o.amount, o.block); }
  }

  lemma MintedLeaves(m: Market, tokens: real, amount: real, block: int)
    requires MarketOk(m) && m.blockNumber >= block && amount > 0.0 && Grid8(amount)
    requires tokens == Trunc8(Div(amount, CurExchangeRate(m))) > 0.0
    ensures Accrue(Minted(m, tokens, amount), block) == DepositRow(m, amount, tokens)
  {
    MintedTokens(amount, m);
    Grid8Is16(amount);
    MintedOk(m, tokens, amount);
    AccrueAgain(Minted(m, tokens, amount), block);
  }

  lemma QuickLoanTables(db: Db, o: Output, s: Batch, k: Key, j: Key, sm: Market, bm: Market, tokens: real, loan: real)
    requires s == QuickLoanWrites(o, k, j, sm, bm, Stored(db, k), DebtAt(db, j, bm), tokens, loan)
    ensures AccountAfter(db, s) == QuickLoanLeft(db, o, k, j, sm, bm, tokens, loan)
  {
  }

  lemma QuickLoanApplied(db: Db, o: Output, s: Batch, k: Key, j: Key, sm: Market, bm: Market, tokens: real, loan: real)
    requires Clean(db, o, s) && k.market != j.market
    requires s == QuickLoanWrites(o, k, j, sm, bm, Stored(db, k), DebtAt(db, j, bm), tokens, loan)
    ensures RunAll(db, s) == QuickLoanLeft(db, o, k, j, sm, bm, tokens, loan)
  {
    AccountLeaves(db, o, s);
    QuickLoanTables(db, o, s, k, j, sm, bm, tokens, loan);
  }

  lemma QuickLoanAccepted(db: Db, o: Output, si: nat, bi: nat, v: View, s: Batch, tokens: real, loan: real)
    requires ReadsTwo(db, o, o.sender, si, bi, v, s) && s == QuickBorrowPlan(o, si, bi, v, loan)
    requires Paid(o) && Grid8(loan) && s.c.CreateTx?
    requires tokens == if o.asset.CToken? then o.amount else Trunc8(Div(o.amount, CurExchangeRate(v.sm)))
    ensures RunAll(db, s) == QuickLoanLeft(db, o, Key(o.sender, si), Key(o.sender, bi), v.sm, v.bm, tokens, loan)
  {
    QuickLoanPlanned(o, si, bi, v, tokens, loan);
    EmptyBorrowWorthless(v.bm);
    QuickLoanApplied(db, o, s, Key(o.sender, si), Key(o.sender, bi), v.sm, v.bm, tokens, loan);
  }

  /** A refusal that has created the two rows. */
  lemma RowsRefused(db: Db, o: Output, s: Batch, k: Key, j: Key, reason: Reason)
    requires Clean(db, o, s)
    requires s == Batch(CreateSupply(k), CreateBorrow(j), Settle(o, Refuse(reason)), Nop, Nop, Nop, Nop, Nop, Nop)
    ensures RunAll(db, s) == RefundedFor(WithBorrow(WithSupply(db, k), j), o, reason)
  {
    RefusalLeaves(db, o, s, reason);
  }

  lemma QuickLoanRefused(db: Db, o: Output, si: nat, bi: nat, v: View, s: Batch, loan: real)
    requires ReadsTwo(db, o, o.sender, si, bi, v, s) && s == QuickBorrowPlan(o, si, bi, v, loan) && !s.c.CreateTx?
    ensures RunAll(db, s) == QuickLent(db, o, si, bi, v.sm, v.bm, v.liquidity, v.pledged, loan)
  {
    if s.a == Nop {
      RefusalLeaves(db, o, s, s.c.id.reason);
    } else {
      RowsRefused(db, o, s, Key(o.sender, si), Key(o.sender, bi), s.c.id.reason);
    }
  }

  lemma QuickLoanCases(db: Db, o: Output, si: nat, bi: nat, v: View, s: Batch, loan: real)
    requires ReadsTwo(db, o, o.sender, si, bi, v, s) && s == QuickBorrowPlan(o, si, bi, v, loan)
    requires Paid(o) && Grid8(loan)
    ensures RunAll(db, s) == QuickLent(db, o, si, bi, v.sm, v.bm, v.liquidity, v.pledged, loan)
  {
    if s.c.CreateTx? {
      var tokens := if o.asset.CToken? then o.amount else Trunc8(Div(o.amount, CurExchangeRate(v.sm)));
      QuickLoanAccepted(db, o, si, bi, v, s, tokens, loan);
    } else {
      QuickLoanRefused(db, o, si, bi, v, s, loan);
    }
  }

  lemma QuickLoanOutcome(db: Db, o: Output, si: nat, bi: nat, memo: real)
    requires Inv(db) && Fresh(db, o) && Legal(db, o) && si in db.markets && bi in db.markets
    requires o.action == DoQuickBorrow(Underlying(bi), memo) && (o.asset == Underlying(si) || o.asset == CToken(si))
    ensures var sm, bm := Live(db, si, o.block), Live(db, bi, o.block);
      Step(db, o) == QuickLent(db, o, si, bi, sm, bm, Liquidity(db, map[si := sm, bi := bm], o.sender), Pledged(db, si),
                               Trunc8(memo))
  {
    var v := TwoView(db, o, o.sender, si, bi);
    Trunc8Grid(memo);
    QuickLoanCases(db, o, si, bi, v, Slots(db, o), Trunc8(memo));
  }

  // ---- Withdrawal -----------------------------------------------------------------------------------

  /** A withdrawal within the reserves pays its opponent and takes the amount off cash and reserves; one
      beyond them is passed over. */
  function WithdrawalLeft(db: Db, o: Output, p: nat, m: nat, row: Market, amount: real, opponent: nat): Db
  {
    if amount > row.reserves then db
    else
      var left := row.(cash := row.cash - amount, reserves := row.reserves - amount);
      db.(transfers := db.transfers[Withdrawal(p) := Transfer(Underlying(m), amount, opponent)],
          markets := db.markets[m := Accrue(left, o.block).(version := o.id)])
  }

  lemma WithdrawalCases(db: Db, o: Output, s: Batch, p: nat, m: nat, row: Market, amount: real, opponent: nat)
    requires Clean(db, o, s) && s == WithdrawPlan(o, p, m, row, amount, opponent) && m in db.markets
    requires row.borrowIndex >= 1.0
    ensures RunAll(db, s) == WithdrawalLeft(db, o, p, m, row, amount, opponent)
  {
    if s == IDLE {
      IdleLeaves(db);
    } else {
      BatchLeaves(db, o, s);
      FreshTransfer(db, o, s.d);
    }
  }

  lemma WithdrawalOutcome(db: Db, o: Output, p: nat, m: nat, memo: real, opponent: nat)
    requires Inv(db) && Fresh(db, o) && Legal(db, o) && m in db.markets
    requires o.action == DoWithdraw(p, Underlying(m), memo, opponent)
    ensures Step(db, o) == WithdrawalLeft(db, o, p, m, db.markets[m], Trunc8(memo), opponent)
  {
    SlotsOwned(db, o);
    WithdrawalCases(db, o, Slots(db, o), p, m, db.markets[m], Trunc8(memo), opponent);
  }

  // ---- Passed over ----------------------------------------------------------------------------------

  /** Whether the assets an action needs are listed. */
  predicate Listed(db: Db, o: Output)
  {
    match o.action
    case DoSupply => IsMarket(db, o.asset)
    case DoRedeem => IsCToken(db, o.asset)
    case DoPledge => IsCToken(db, o.asset)
    case DoUnpledge(a, _) => IsCToken(db, a)
    case DoBorrow(a, _) => IsMarket(db, a)
    case DoRepay => IsMarket(db, o.asset)
    case DoQuickPledge => IsMarket(db, o.asset)
    case DoQuickBorrow(a, _) => IsMarket(db, a) && (IsMarket(db, o.asset) || IsCToken(db, o.asset))
    case DoQuickRedeem(a, _) => IsCToken(db, a)
    case DoLiquidate(_, a) => IsCToken(db, a) && IsMarket(db, o.asset)
    case DoPrice(a, _, _) => IsMarket(db, a)
    case DoWithdraw(_, a, _, _) => IsMarket(db, a)
    case Unreadable => false
    case Unknown => true
  }

  /** An output without a readable action or with an asset that is not listed is passed over; one with an
      unknown action is refunded in full. */
  lemma OthersArePassedOver(db: Db, o: Output)
    requires Fresh(db, o) && (!Listed(db, o) || o.action.Unknown?)
    ensures Step(db, o) == if o.action.Unknown? then RefundedBefore(db, o) else db
  {
    if o.action.Unknown? {
      SlotsOwned(db, o);
      OldRefusalLeaves(db, o, Slots(db, o));
    } else {
      IdleLeaves(db);
    }
  }
}
