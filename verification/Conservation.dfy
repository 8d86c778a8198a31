/** Conservation: cTokens are neither created nor lost, and cash is always backed. */
module Conservation {
  import opened Decimal
  import opened Core
  import opened Rates
  import opened Account
  import opened Liquidation
  import opened Handlers
  import opened Books
  import opened Replay
  import opened Crash
  import opened Refunds
  import opened Ledger
  import opened Flows

  function Received(o: Output, a: Asset): real { if o.asset == a then o.amount else 0.0 }

  /** The actions that consume the cTokens sent with them. */
  predicate Consumes(o: Output) { o.action.DoRedeem? || o.action.DoPledge? || o.action.DoQuickBorrow? }

  /** cTokens sent with an output that neither consumes nor refunds them stay in the wallet. */
  function Kept(o: Output, s: Batch, m: nat): real
  {
    if o.asset == CToken(m) && !IsRefund(s.c) && !(s.c.CreateTx? && Consumes(o)) then o.amount else 0.0
  }

  /** The cToken ledger of one step: what is minted less what is burned is what is pledged plus
      what is sent out less what came in. */
  predicate TokensBalance(db: Db, o: Output, s: Batch, m: nat)
    requires m in db.markets
  {
    RowAfter(db, s, m).ctokens - db.markets[m].ctokens
      == PledgedBy(db, s, m) + PaidOut(s, CToken(m)) - Received(o, CToken(m)) + Kept(o, s, m)
  }

  /** The actions that take the underlying asset sent with them into a market, or give the rest back. */
  predicate Banks(o: Output)
  {
    || o.action.DoSupply? || o.action.DoRepay? || o.action.DoQuickPledge? || o.action.DoQuickBorrow?
    || o.action.DoLiquidate?
  }

  /** Underlying assets that stay in the wallet: those an output neither banks nor refunds, what a
      repayment cannot refund because it is less than a unit of the 8-digit grid, and what a liquidation
      inside one market repays without the market seeing it. */
  function CashKept(o: Output, s: Batch, m: nat): real
  {
    if o.asset != Underlying(m) || IsRefund(s.c) then 0.0
    else if !(s.c.CreateTx? && Banks(o)) then o.amount
    else if o.action.DoRepay? then o.amount - RepayOf(s.c.extra) - Trunc8(o.amount - RepayOf(s.c.extra))
    else if o.action.DoLiquidate? && o.action.asset == CToken(m) then RepayOf(s.c.extra)
    else 0.0
  }

  /** The cash ledger of one step: recorded cash grows by what came in less what went out and what is
      kept, which is never negative. */
  predicate CashBalances(db: Db, o: Output, s: Batch, m: nat)
    requires m in db.markets
  {
    && RowAfter(db, s, m).cash - db.markets[m].cash
       == Received(o, Underlying(m)) - PaidOut(s, Underlying(m)) - CashKept(o, s, m)
    && CashKept(o, s, m) >= 0.0
  }

  predicate Balances(db: Db, o: Output, s: Batch, m: nat)
    requires m in db.markets
  {
    TokensBalance(db, o, s, m) && CashBalances(db, o, s, m)
  }

  /** A batch that applies nothing: it is idle, or it refunds the whole output. */
  predicate Unapplied(o: Output, s: Batch)
  {
    && s.d == Nop && s.e == Nop && s.f == Nop && s.g == Nop && s.h == Nop && s.i == Nop
    && (s.c == Nop || (IsRefund(s.c) && s.c.transfer.asset == o.asset && s.c.transfer.amount == o.amount))
  }

  lemma UnappliedBalances(db: Db, o: Output, s: Batch, m: nat)
    requires m in db.markets && Unapplied(o, s) && Paid(o)
    ensures Balances(db, o, s, m)
  {
  }

  /** The view agrees with the rows on everything accrual leaves alone. */
  predicate Faithful(db: Db, user: nat, si: nat, bi: nat, v: View)
  {
    && si in db.markets && bi in db.markets
    && v.sm.ctokens == db.markets[si].ctokens && v.sm.cash == db.markets[si].cash
    && v.bm.ctokens == db.markets[bi].ctokens && v.bm.cash == db.markets[bi].cash
    && v.Collaterals() == Stored(db, Key(user, si))
  }

  lemma SupplyBalances(db: Db, o: Output, k: nat, v: View, m: nat)
    requires ViewOk(v) && Paid(o) && Faithful(db, o.sender, k, k, v) && m in db.markets && o.asset == Underlying(k)
    requires o.action.DoSupply?
    ensures Balances(db, o, SupplyPlan(o, k, v), m)
  {
    var s := SupplyPlan(o, k, v);
    if s.c.CreateTx? {
      MintedTokens(o.amount, v.sm);
      Grid8Is16(o.amount);
      MintedOk(v.sm, Trunc8(Div(o.amount, CurExchangeRate(v.sm))), o.amount);
    } else {
      UnappliedBalances(db, o, s, m);
    }
  }

  lemma RedeemBalances(db: Db, o: Output, k: nat, v: View, m: nat)
    requires ViewOk(v) && Paid(o) && Faithful(db, o.sender, k, k, v) && m in db.markets && o.asset == CToken(k)
    requires (RedeemPlan(o, k, v).c.CreateTx? ==> v.sm.exchangeRate > 0.0) && o.action.DoRedeem?
    ensures Balances(db, o, RedeemPlan(o, k, v), m)
  {
    var s := RedeemPlan(o, k, v);
    if s.c.CreateTx? {
      Grid8Is16(o.amount);
      assert Mul(CurExchangeRate(v.sm), o.amount) == Mul(o.amount, CurExchangeRate(v.sm));
      RedeemCovered(v.sm, o.amount);
      BurnedOk(v.sm, o.amount, Trunc8(Mul(o.amount, CurExchangeRate(v.sm))));
    } else {
      UnappliedBalances(db, o, s, m);
    }
  }

  lemma PledgeBalances(db: Db, o: Output, k: nat, v: View, m: nat)
    requires ViewOk(v) && Paid(o) && Faithful(db, o.sender, k, k, v) && m in db.markets && o.asset == CToken(k)
    requires o.action.DoPledge?
    ensures Balances(db, o, PledgePlan(o, k, v), m)
  {
    var s := PledgePlan(o, k, v);
    if !s.c.CreateTx? { UnappliedBalances(db, o, s, m); }
  }

  lemma UnpledgeBalances(db: Db, o: Output, k: nat, v: View, amount: real, m: nat)
    requires ViewOk(v) && Paid(o) && Faithful(db, o.sender, k, k, v) && m in db.markets && Grid8(amount)
    requires o.action.DoUnpledge?
    ensures Balances(db, o, UnpledgePlan(o, k, v, amount), m)
  {
    var s := UnpledgePlan(o, k, v, amount);
    if s.c.CreateTx? { TakenCollateral(v, amount); } else { UnappliedBalances(db, o, s, m); }
  }

  lemma BorrowBalances(db: Db, o: Output, k: nat, v: View, amount: real, m: nat)
    requires ViewOk(v) && Paid(o) && Faithful(db, o.sender, k, k, v) && m in db.markets && Grid8(amount)
    requires o.action.DoBorrow?
    ensures Balances(db, o, BorrowPlan(o, k, v, amount), m)
  {
    var s := BorrowPlan(o, k, v, amount);
    if s.c.CreateTx? {
      Grid8Is16(amount);
      LentOk(v.bm, amount);
      AccrueOk(Lent(v.bm, amount), o.block);
    } else {
      UnappliedBalances(db, o, s, m);
    }
  }

  /** The part of a repayment that is refunded, truncated to what can be sent, is at most the rest. */
  lemma RepayBalances(db: Db, o: Output, k: nat, v: View, m: nat)
    requires ViewOk(v) && Paid(o) && Faithful(db, o.sender, k, k, v) && m in db.markets && o.asset == Underlying(k)
    requires o.action.DoRepay?
    ensures Balances(db, o, RepayPlan(o, k, v), m)
  {
    var s := RepayPlan(o, k, v);
    if s.c.CreateTx? {
      ViewRows(v);
      Grid8Is16(o.amount);
      var repay := Min(o.amount, v.Debt());
      ReturnedOk(v.bm, repay);
      AccrueOk(Returned(v.bm, repay), o.block);
      Trunc8Bounds(o.amount - repay);
    } else {
      UnappliedBalances(db, o, s, m);
    }
  }

  lemma QuickPledgeBalances(db: Db, o: Output, k: nat, v: View, m: nat)
    requires ViewOk(v) && Paid(o) && Faithful(db, o.sender, k, k, v) && m in db.markets && o.asset == Underlying(k)
    requires o.action.DoQuickPledge?
    ensures Balances(db, o, QuickPledgePlan(o, k, v), m)
  {
    var s := QuickPledgePlan(o, k, v);
    if s.c.CreateTx? {
      var c := Trunc8(Div(o.amount, CurExchangeRate(v.sm)));
      MintedTokens(o.amount, v.sm);
      Grid8Is16(o.amount);
      MintedOk(v.sm, c, o.amount);
      AddedCollateral(v, c);
    } else {
      UnappliedBalances(db, o, s, m);
    }
  }

  lemma QuickRedeemBalances(db: Db, o: Output, k: nat, v: View, tokens: real, m: nat)
    requires ViewOk(v) && Paid(o) && Faithful(db, o.sender, k, k, v) && m in db.markets && Grid8(tokens)
    requires QuickRedeemPlan(o, k, v, tokens).c.CreateTx? ==> v.sm.exchangeRate > 0.0
    requires tokens > 0.0 && o.action.DoQuickRedeem?
    ensures Balances(db, o, QuickRedeemPlan(o, k, v, tokens), m)
  {
    var s := QuickRedeemPlan(o, k, v, tokens);
    if s.c.CreateTx? {
      Grid8Is16(tokens);
      TakenCollateral(v, tokens);
      RedeemCovered(v.sm, tokens);
      BurnedOk(v.sm, tokens, Trunc8(Mul(tokens, CurExchangeRate(v.sm))));
    } else {
      UnappliedBalances(db, o, s, m);
    }
  }

  /** What a quick borrow leaves of the totals of its two markets. */
  lemma QuickBorrowLeaves(db: Db, o: Output, si: nat, bi: nat, v: View, amount: real) returns (c: real)
    requires ViewOk(v) && Paid(o) && si in db.markets && bi in db.markets && Grid8(amount)
    requires QuickBorrowPlan(o, si, bi, v, amount).c.CreateTx?
    ensures var s := QuickBorrowPlan(o, si, bi, v, amount);
      && si != bi && RowAfter(db, s, bi).cash == v.bm.cash - amount && RowAfter(db, s, bi).ctokens == v.bm.ctokens
      && RowAfter(db, s, si).cash == v.sm.cash + (if o.asset.CToken? then 0.0 else o.amount)
      && RowAfter(db, s, si).ctokens == v.sm.ctokens + (if o.asset.CToken? then 0.0 else c)
      && s.d == PutSupplyAt(o, Key(o.sender, si), v.Collaterals() + c) && s.e.PutBorrow?
      && s.f == Pay(o, QuickBorrowTransfer, Underlying(bi), amount) && s.g.PutMarket?
      && (o.asset.CToken? ==> c == o.amount)
  {
    c := QuickBorrowVerdict(o, v, amount).extra.ctokens;
    MintedTokens(o.amount, v.sm);
    DepositTotals(o, v.sm, c);
    LoanTotals(o, v.bm, amount);
  }

  lemma DepositTotals(o: Output, m: Market, c: real)
    requires MarketOk(m) && Paid(o) && Grid8(c) && c > 0.0
    ensures var row := Accrue(if o.asset.CToken? then m else Minted(m, c, o.amount), o.block);
      && row.cash == m.cash + (if o.asset.CToken? then 0.0 else o.amount)
      && row.ctokens == m.ctokens + (if o.asset.CToken? then 0.0 else c)
  {
    Grid8Is16(o.amount);
    Grid8Is16(c);
    MintedOk(m, c, o.amount);
    AccrueOk(m, o.block);
    AccrueOk(Minted(m, c, o.amount), o.block);
  }

  lemma LoanTotals(o: Output, m: Market, amount: real)
    requires MarketOk(m) && Grid8(amount) && BorrowAllowed(m, amount)
    ensures var row := Accrue(Lent(m, amount), o.block); row.cash == m.cash - amount && row.ctokens == m.ctokens
  {
    Grid8Is16(amount);
    LentOk(m, amount);
    AccrueOk(Lent(m, amount), o.block);
  }

  lemma QuickBorrowOther(db: Db, o: Output, si: nat, bi: nat, v: View, amount: real, m: nat)
    requires m in db.markets && m != si && m != bi
    ensures RowAfter(db, QuickBorrowPlan(o, si, bi, v, amount), m) == db.markets[m]
  {
  }

  lemma QuickBorrowBalances(db: Db, o: Output, si: nat, bi: nat, v: View, amount: real, m: nat)
    requires ViewOk(v) && Paid(o) && Faithful(db, o.sender, si, bi, v) && m in db.markets && Grid8(amount)
    requires o.asset == Underlying(si) || o.asset == CToken(si)
    requires o.action.DoQuickBorrow?
    ensures Balances(db, o, QuickBorrowPlan(o, si, bi, v, amount), m)
  {
    var s := QuickBorrowPlan(o, si, bi, v, amount);
    if s.c.CreateTx? {
      var c := QuickBorrowLeaves(db, o, si, bi, v, amount);
      if m != si && m != bi { QuickBorrowOther(db, o, si, bi, v, amount, m); }
    } else {
      UnappliedBalances(db, o, s, m);
    }
  }

  /** What a liquidation leaves of the totals of its markets. */
  lemma LiquidateLeaves(db: Db, o: Output, user: nat, si: nat, bi: nat, v: View) returns (c: real, repay: real)
    requires ViewOk(v) && Paid(o) && si in db.markets && bi in db.markets
    requires Quoted(v.sm) && LiquidatePlan(o, user, si, bi, v).c.CreateTx?
    ensures var s := LiquidatePlan(o, user, si, bi, v);
      && RowAfter(db, s, si).cash == v.sm.cash && RowAfter(db, s, si).ctokens == v.sm.ctokens
      && (si != bi ==> RowAfter(db, s, bi).cash == v.bm.cash + repay && RowAfter(db, s, bi).ctokens == v.bm.ctokens)
    ensures 0.0 <= repay <= o.amount
    ensures LiquidateMoves(o, user, si, bi, v, c, repay)
  {
    ViewRows(v);
    Grid8Is16(o.amount);
    var t := SeizeTerms(o.amount, v.Collaterals(), v.Debt(), v.sm, v.bm);
    c, repay := t.ctokens, t.repay;
    LiquidationBounded(o.amount, v.Collaterals(), v.Debt(), v.sm, v.bm);
    TakenCollateral(v, c);
    AccrueOk(v.sm, o.block);
    ReturnedOk(v.bm, repay);
    AccrueOk(Returned(v.bm, repay), o.block);
  }

  /** What it pledges away and sends out. */
  predicate LiquidateMoves(o: Output, user: nat, si: nat, bi: nat, v: View, c: real, repay: real)
  {
    var s := LiquidatePlan(o, user, si, bi, v);
    && s.c == CreateTx(o.trace, Seized(c, repay))
    && s.d == PutSupplyAt(o, Key(user, si), v.Collaterals() - c) && s.e.PutBorrow?
    && s.f == Pay(o, LiquidateTransfer, CToken(si), c)
    && s.g == (if o.amount - repay > 0.0 then Pay(o, LiquidateRefund, Underlying(bi), o.amount - repay) else Nop)
  }

  lemma LiquidateOther(db: Db, o: Output, user: nat, si: nat, bi: nat, v: View, m: nat)
    requires m in db.markets && m != si && m != bi
    ensures RowAfter(db, LiquidatePlan(o, user, si, bi, v), m) == db.markets[m]
  {
  }

  lemma SeizureBalances(db: Db, o: Output, s: Batch, user: nat, si: nat, bi: nat, v: View, c: real, repay: real, m: nat)
    requires Faithful(db, user, si, bi, v) && m in db.markets && o.asset == Underlying(bi) && o.action.DoLiquidate?
    requires o.action.asset == CToken(si) && s.c.CreateTx? && RepayOf(s.c.extra) == repay
    requires s.d == PutSupplyAt(o, Key(user, si), v.Collaterals() - c) && s.e.PutBorrow?
    requires s.f == Pay(o, LiquidateTransfer, CToken(si), c) && 0.0 <= repay <= o.amount
    requires s.g == (if o.amount - repay > 0.0 then Pay(o, LiquidateRefund, Underlying(bi), o.amount - repay) else Nop)
    requires RowAfter(db, s, si).cash == v.sm.cash && RowAfter(db, s, si).ctokens == v.sm.ctokens
    requires si != bi ==> RowAfter(db, s, bi).cash == v.bm.cash + repay && RowAfter(db, s, bi).ctokens == v.bm.ctokens
    requires m != si && m != bi ==> RowAfter(db, s, m) == db.markets[m]
    ensures Balances(db, o, s, m)
  {
  }

  lemma LiquidateBalances(db: Db, o: Output, user: nat, si: nat, bi: nat, v: View, m: nat)
    requires ViewOk(v) && Paid(o) && Faithful(db, user, si, bi, v) && m in db.markets && o.asset == Underlying(bi)
    requires (LiquidatePlan(o, user, si, bi, v).c.CreateTx? ==> Quoted(v.sm)) && o.action.DoLiquidate?
    requires o.action.asset == CToken(si)
    ensures Balances(db, o, LiquidatePlan(o, user, si, bi, v), m)
  {
    var s := LiquidatePlan(o, user, si, bi, v);
    if s.c.CreateTx? {
      var c, repay := LiquidateLeaves(db, o, user, si, bi, v);
      if m != si && m != bi { LiquidateOther(db, o, user, si, bi, v, m); }
      SeizureBalances(db, o, s, user, si, bi, v, c, repay, m);
    } else {
      UnappliedBalances(db, o, s, m);
    }
  }

  lemma PriceBalances(db: Db, o: Output, k: nat, price: real, time: int, m: nat)
    requires k in db.markets && MarketOk(db.markets[k]) && m in db.markets && Paid(o) && price > 0.0
    requires o.action.DoPrice?
    ensures Balances(db, o, PricePlan(o, k, db.markets[k], price, time), m)
  {
    AccrueOk(AfterFind(db.markets[k]).(price := price, priceUpdatedAt := time), o.block);
  }

  lemma WithdrawBalances(db: Db, o: Output, p: nat, k: nat, amount: real, opponent: nat, m: nat)
    requires k in db.markets && MarketOk(db.markets[k]) && m in db.markets && Paid(o) && Grid16(amount)
    requires o.action.DoWithdraw?
    ensures Balances(db, o, WithdrawPlan(o, p, k, db.markets[k], amount, opponent), m)
  {
    if amount <= db.markets[k].reserves {
      WithdrawnOk(AfterFind(db.markets[k]), amount);
      AccrueOk(Withdrawn(AfterFind(db.markets[k]), amount), o.block);
    }
  }

  lemma LookFaithful(db: Db, o: Output, user: nat, s: nat, b: nat)
    requires Inv(db) && s in db.markets && b in db.markets
    ensures Faithful(db, user, s, b, Look(db, o, user, s, b))
  {
    LiveOk(db.markets[s], o.block);
    LiveOk(db.markets[b], o.block);
  }

  lemma SlotsBalance(db: Db, o: Output, m: nat)
    requires Inv(db) && o.trace !in db.txs && Legal(db, o) && m in db.markets
    ensures Balances(db, o, Slots(db, o), m)
  {
    var me, own, s := o.sender, MarketOf(o.asset), Slots(db, o);
    if s == IDLE {
      UnappliedBalances(db, o, s, m);
      return;
    }
    match o.action
    case DoSupply =>
      LookOk(db, o, me, own, own);
      LookFaithful(db, o, me, own, own);
      SupplyBalances(db, o, own, Look(db, o, me, own, own), m);
    case DoRedeem =>
      LookOk(db, o, me, own, own);
      LookFaithful(db, o, me, own, own);
      RedeemBalances(db, o, own, Look(db, o, me, own, own), m);
    case DoPledge =>
      LookOk(db, o, me, own, own);
      LookFaithful(db, o, me, own, own);
      PledgeBalances(db, o, own, Look(db, o, me, own, own), m);
    case DoUnpledge(a, memo) =>
      LookOk(db, o, me, a.market, a.market);
      LookFaithful(db, o, me, a.market, a.market);
      Trunc8Grid(memo);
      UnpledgeBalances(db, o, a.market, Look(db, o, me, a.market, a.market), Trunc8(memo), m);
    case DoBorrow(a, memo) =>
      LookOk(db, o, me, a.market, a.market);
      LookFaithful(db, o, me, a.market, a.market);
      Trunc8Grid(memo);
      BorrowBalances(db, o, a.market, Look(db, o, me, a.market, a.market), Trunc8(memo), m);
    case DoRepay =>
      LookOk(db, o, me, own, own);
      LookFaithful(db, o, me, own, own);
      RepayBalances(db, o, own, Look(db, o, me, own, own), m);
    case DoQuickPledge =>
      LookOk(db, o, me, own, own);
      LookFaithful(db, o, me, own, own);
      QuickPledgeBalances(db, o, own, Look(db, o, me, own, own), m);
    case DoQuickBorrow(a, memo) =>
      LookOk(db, o, me, own, a.market);
      LookFaithful(db, o, me, own, a.market);
      Trunc8Grid(memo);
      QuickBorrowBalances(db, o, own, a.market, Look(db, o, me, own, a.market), Trunc8(memo), m);
    case DoQuickRedeem(a, memo) =>
      LookOk(db, o, me, a.market, a.market);
      LookFaithful(db, o, me, a.market, a.market);
      Trunc8Grid(memo);
      QuickRedeemBalances(db, o, a.market, Look(db, o, me, a.market, a.market), Trunc8(memo), m);
    case DoLiquidate(user, a) =>
      LookOk(db, o, user, a.market, own);
      LookFaithful(db, o, user, a.market, own);
      LiquidateBalances(db, o, user, a.market, own, Look(db, o, user, a.market, own), m);
    case DoPrice(a, price, time) => PriceBalances(db, o, a.market, price, time, m);
    case DoWithdraw(p, a, memo, opponent) =>
      Trunc8Grid(memo);
      WithdrawBalances(db, o, p, a.market, Trunc8(memo), opponent, m);
    case Unreadable =>
    case Unknown => UnappliedBalances(db, o, s, m);
  }

  // ---- Whole runs --------------------------------------------------------------------------------

  /** Every output is legal in the database it meets. */
  ghost predicate LegalRun(db: Db, queue: seq<Output>)
    decreases |queue|
  {
    queue == [] || (Legal(db, queue[0]) && LegalRun(Step(db, queue[0]), queue[1..]))
  }

  ghost predicate GoodRun(db: Db, queue: seq<Output>) { Inv(db) && Queued(db, queue) && LegalRun(db, queue) }

  /** A step keeps everything a run relies on: well-formed rows, the reserve bound, fresh ids. */
  lemma GoodStep(db: Db, queue: seq<Output>)
    requires GoodRun(db, queue) && queue != []
    ensures GoodRun(Step(db, queue[0]), queue[1..])
    ensures Step(db, queue[0]).markets.Keys == db.markets.Keys
  {
    SlotsGood(db, queue[0]);
    SlotsPlaced(db, queue[0]);
    RunKeepsInv(db, Slots(db, queue[0]), 9);
    StepKeepsQueue(db, queue);
  }

  /** The invariant, and with it the reserve bound, holds in every state of every run with
      crashes: after any prefix of the queue and any prefix of the writes of the next output. */
  lemma {:induction false} EveryStateIsWellFormed(db: Db, queue: seq<Output>, done: nat, part: nat)
    requires GoodRun(db, queue) && done <= |queue| && part <= 9
    ensures var mid := Run(db, queue[..done]);
      Inv(mid) && (done < |queue| ==> Inv(RunTo(mid, Slots(mid, queue[done]), part)))
    decreases done
  {
    if done == 0 {
      if queue != [] {
        SlotsGood(db, queue[0]);
        SlotsPlaced(db, queue[0]);
        RunKeepsInv(db, Slots(db, queue[0]), part);
      }
    } else {
      GoodStep(db, queue);
      assert queue[..done][1..] == queue[1..][..done - 1];
      EveryStateIsWellFormed(Step(db, queue[0]), queue[1..], done - 1, part);
    }
  }

  ghost function ReceivedAll(queue: seq<Output>, a: Asset): real
  {
    if queue == [] then 0.0 else Received(queue[0], a) + ReceivedAll(queue[1..], a)
  }

  ghost function KeptAll(db: Db, queue: seq<Output>, m: nat): real
    decreases |queue|
  {
    if queue == [] then 0.0
    else Kept(queue[0], Slots(db, queue[0]), m) + KeptAll(Step(db, queue[0]), queue[1..], m)
  }

  lemma StepFlows(db: Db, o: Output, m: nat)
    requires Inv(db) && Fresh(db, o) && Legal(db, o) && m in db.markets
    ensures var e := Step(db, o);
      && m in e.markets
      && e.markets[m].ctokens - Pledged(e, m) - Sent(e.transfers, CToken(m))
         == db.markets[m].ctokens - Pledged(db, m) - Sent(db.transfers, CToken(m))
            - Received(o, CToken(m)) + Kept(o, Slots(db, o), m)
      && e.markets[m].cash + Sent(e.transfers, Underlying(m))
         == db.markets[m].cash + Sent(db.transfers, Underlying(m)) + Received(o, Underlying(m))
            - CashKept(o, Slots(db, o), m)
      && CashKept(o, Slots(db, o), m) >= 0.0
  {
    var s := Slots(db, o);
    SlotsOwned(db, o);
    SlotsBalance(db, o, m);
    RunMarket(db, o, s, m);
    RunPledged(db, o, s, m);
    RunSent(db, o, s, CToken(m));
    RunSent(db, o, s, Underlying(m));
  }

  /** cToken conservation: over every run, what a market has issued is what is pledged, plus what
      was sent out less what came back, plus what the wallet was given and kept. */
  lemma {:induction false} CTokensConserved(db: Db, queue: seq<Output>, m: nat)
    requires GoodRun(db, queue) && m in db.markets
    requires db.markets[m].ctokens == Pledged(db, m) + Sent(db.transfers, CToken(m))
    ensures var e := Run(db, queue);
      && m in e.markets
      && e.markets[m].ctokens
         == Pledged(e, m) + Sent(e.transfers, CToken(m)) - ReceivedAll(queue, CToken(m)) + KeptAll(db, queue, m)
  {
    CTokensDrift(db, queue, m);
  }

  lemma {:induction false} CTokensDrift(db: Db, queue: seq<Output>, m: nat)
    requires GoodRun(db, queue) && m in db.markets
    ensures var e := Run(db, queue);
      && m in e.markets
      && e.markets[m].ctokens - Pledged(e, m) - Sent(e.transfers, CToken(m))
         == db.markets[m].ctokens - Pledged(db, m) - Sent(db.transfers, CToken(m))
            - ReceivedAll(queue, CToken(m)) + KeptAll(db, queue, m)
    decreases |queue|
  {
    if queue != [] {
      StepFlows(db, queue[0], m);
      GoodStep(db, queue);
      CTokensDrift(Step(db, queue[0]), queue[1..], m);
    }
  }

  ghost function CashKeptAll(db: Db, queue: seq<Output>, m: nat): real
    decreases |queue|
  {
    if queue == [] then 0.0
    else CashKept(queue[0], Slots(db, queue[0]), m) + CashKeptAll(Step(db, queue[0]), queue[1..], m)
  }

  /** Cash conservation: over every run, recorded cash changes by exactly what came in less what was
      ordered out, withdrawals and refunds included, less what the wallet was given and kept. */
  lemma {:induction false} CashConserved(db: Db, queue: seq<Output>, m: nat)
    requires GoodRun(db, queue) && m in db.markets
    ensures var e := Run(db, queue);
      && m in e.markets
      && e.markets[m].cash - db.markets[m].cash
         == ReceivedAll(queue, Underlying(m)) - (Sent(e.transfers, Underlying(m)) - Sent(db.transfers, Underlying(m)))
            - CashKeptAll(db, queue, m)
      && CashKeptAll(db, queue, m) >= 0.0
    decreases |queue|
  {
    if queue != [] {
      StepFlows(db, queue[0], m);
      GoodStep(db, queue);
      CashConserved(Step(db, queue[0]), queue[1..], m);
    }
  }

  /** Hence what came in less what was ordered out always covers the recorded cash. */
  lemma CashBacked(db: Db, queue: seq<Output>, m: nat)
    requires GoodRun(db, queue) && m in db.markets
    ensures var e := Run(db, queue);
      && m in e.markets
      && e.markets[m].cash - db.markets[m].cash
         <= ReceivedAll(queue, Underlying(m)) - (Sent(e.transfers, Underlying(m)) - Sent(db.transfers, Underlying(m)))
  {
    CashConserved(db, queue, m);
  }

  /** The reserve bound in its useful form, in every state a crashing worker can be found in: what
      a market holds beyond its reserves is at least the suppliers' part of what it has lent. */
  lemma ReservesStayCovered(w: Worker, fuses: seq<nat>, m: nat)
    requires GoodRun(w.db, w.queue) && m in Attempts(w, fuses).db.markets
    ensures var row := Attempts(w, fuses).db.markets[m];
      && row.reserves <= row.cash + Mul(row.p.reserveFactor, row.borrows)
      && row.cash + row.borrows - row.reserves >= Mul(1.0 - row.p.reserveFactor, row.borrows) >= 0.0
  {
    ReachableIsWellFormed(w, fuses);
    NetAssets(Attempts(w, fuses).db.markets[m]);
  }

  lemma ReachableIsWellFormed(w: Worker, fuses: seq<nat>)
    requires GoodRun(w.db, w.queue)
    ensures Inv(Attempts(w, fuses).db)
  {
    assert w.queue[0..] == w.queue && w.queue[..0] == [];
    if w.queue != [] { assert RunTo(w.db, Slots(w.db, w.queue[0]), 0) == w.db; }
    var done, part := ReachableStates(w, w, 0, 0, fuses);
    EveryStateIsWellFormed(w.db, w.queue, done, part);
  }

  lemma NetAssets(row: Market)
    requires MarketOk(row)
    ensures row.reserves <= row.cash + Mul(row.p.reserveFactor, row.borrows)
    ensures row.cash + row.borrows - row.reserves >= Mul(1.0 - row.p.reserveFactor, row.borrows) >= 0.0
  {
    assert Mul(1.0 - row.p.reserveFactor, row.borrows) == row.borrows - Mul(row.p.reserveFactor, row.borrows);
    MulNonNegative(1.0 - row.p.reserveFactor, row.borrows);
  }
}
