/** Account health: what an accepted output leaves of the account's liquidity. */
module Health {
  import opened Decimal
  import opened Totals
  import opened Core
  import opened Rates
  import opened Account
  import opened Handlers
  import opened Books
  import opened Replay
  import opened Refunds
  import opened Ledger
  import opened Flows

  /** Two market rows that value every account the same. */
  predicate SameQuotes(m: Market, n: Market)
  {
    m.exchangeRate == n.exchangeRate && m.p.collateralFactor == n.p.collateralFactor
    && m.price == n.price && m.borrowIndex == n.borrowIndex
  }

  lemma Revalue(db: Db, live: map<nat, Market>, e: Db, user: nat)
    requires db.markets.Keys == e.markets.Keys && e.supplies == db.supplies && e.borrows == db.borrows
    requires forall m :: m in db.markets ==> SameQuotes(MarketAt(db, live, m), MarketAt(e, map[], m))
    ensures Liquidity(e, map[], user) == Liquidity(db, live, user)
  {
    RevalueSupplies(db, live, e, user);
    RevalueDebts(db, live, e, user);
  }

  lemma RevalueSupplies(db: Db, live: map<nat, Market>, e: Db, user: nat)
    requires db.markets.Keys == e.markets.Keys && e.supplies == db.supplies
    requires forall m :: m in db.markets ==> SameQuotes(MarketAt(db, live, m), MarketAt(e, map[], m))
    ensures SupplyWorths(e, map[], user) == SupplyWorths(db, live, user)
  {
    forall k | k in db.supplies && k.user == user && k.market in db.markets
      ensures SupplyWorth(db.supplies[k], MarketAt(db, live, k.market))
        == SupplyWorth(db.supplies[k], MarketAt(e, map[], k.market))
    {
      assert SameQuotes(MarketAt(db, live, k.market), MarketAt(e, map[], k.market));
    }
  }

  lemma RevalueDebts(db: Db, live: map<nat, Market>, e: Db, user: nat)
    requires db.markets.Keys == e.markets.Keys && e.borrows == db.borrows
    requires forall m :: m in db.markets ==> SameQuotes(MarketAt(db, live, m), MarketAt(e, map[], m))
    ensures DebtWorths(e, map[], user) == DebtWorths(db, live, user)
  {
    forall k | k in db.borrows && k.user == user && k.market in db.markets
      ensures DebtWorth(db.borrows[k], MarketAt(db, live, k.market))
        == DebtWorth(db.borrows[k], MarketAt(e, map[], k.market))
    {
      assert SameQuotes(MarketAt(db, live, k.market), MarketAt(e, map[], k.market));
    }
  }

  /** A row that has just been accrued prices its cTokens by its own totals. */
  predicate Refreshed(m: Market) { m.exchangeRate == Refresh(m).exchangeRate }

  lemma LiveRefreshed(m: Market, block: int)
    ensures Refreshed(Accrue(AfterFind(m), block))
  {
  }

  /** Lending moves cash into borrows, which the exchange rate does not see. */
  lemma LentKeepsRate(m: Market, amount: real, block: int)
    requires MarketOk(m) && Refreshed(m) && Grid8(amount) && BorrowAllowed(m, amount) && m.blockNumber >= block
    ensures SameQuotes(m, Accrue(Lent(m, amount), block))
  {
    Grid8Is16(amount);
    LentOk(m, amount);
    AccrueAgain(Lent(m, amount), block);
    var n := Lent(m, amount);
    assert n.cash + n.borrows - n.reserves == m.cash + m.borrows - m.reserves;
    assert GetExchangeRate(n.cash, n.borrows, n.reserves, n.ctokens, n.p.initExchangeRate)
        == GetExchangeRate(m.cash, m.borrows, m.reserves, m.ctokens, m.p.initExchangeRate);
  }

  lemma MulSum(a: real, b: real, c: real)
    ensures Mul(a + b, c) == Mul(a, c) + Mul(b, c) && Mul(a - b, c) == Mul(a, c) - Mul(b, c)
  {
  }

  /** The two markets an output reads, as the liquidity check sees them. */
  predicate Checked(live: map<nat, Market>, v: View, si: nat, bi: nat)
  {
    live.Keys == {si, bi} && live[si] == v.sm && live[bi] == v.bm
  }

  /** A written debt row replaces the row of its account, created or not. */
  lemma DebtRowWritten(db: Db, o: Output, k: Key, b: Borrow)
    requires Fresh(db, o) && b.version == o.id
    ensures AddBorrow(AddBorrow(db.borrows, CreateBorrow(k)), PutBorrow(k, b)) == db.borrows[k := b]
    ensures AddBorrow(db.borrows, PutBorrow(k, b)) == db.borrows[k := b]
  {
  }

  lemma SupplyRowWritten(db: Db, o: Output, k: Key, x: Supply)
    requires Fresh(db, o) && x.version == o.id
    ensures AddSupply(AddSupply(db.supplies, CreateSupply(k)), PutSupply(k, x)) == db.supplies[k := x]
    ensures AddSupply(db.supplies, PutSupply(k, x)) == db.supplies[k := x]
  {
  }

  /** What a view records of the rows and the standing it was read from. */
  ghost predicate ReadFrom(db: Db, o: Output, user: nat, si: nat, bi: nat, v: View, live: map<nat, Market>)
  {
    && si in db.markets && bi in db.markets && Checked(live, v, si, bi)
    && v.liquidity == Liquidity(db, live, user)
    && v.supply == Find(db.supplies, Key(user, si)) && v.borrow == Find(db.borrows, Key(user, bi))
    && Refreshed(v.sm) && v.sm.blockNumber >= o.block && Refreshed(v.bm) && v.bm.blockNumber >= o.block
  }

  lemma LookReads(db: Db, o: Output, user: nat, si: nat, bi: nat) returns (live: map<nat, Market>)
    requires si in db.markets && bi in db.markets
    ensures ReadFrom(db, o, user, si, bi, Look(db, o, user, si, bi), live)
  {
    live := map[si := Live(db, si, o.block), bi := Live(db, bi, o.block)];
    LiveRefreshed(db.markets[si], o.block);
    LiveRefreshed(db.markets[bi], o.block);
    AccruedBlock(AfterFind(db.markets[si]), o.block);
    AccruedBlock(AfterFind(db.markets[bi]), o.block);
  }

  // ---- The account's own rows ----------------------------------------------------------------------

  /** What the account owed in the market before, valued as the check values it. */
  lemma OldDebt(db: Db, user: nat, bi: nat, v: View)
    requires v.borrow == Find(db.borrows, Key(user, bi))
    ensures StoredDebt(db, Key(user, bi), v.bm) == Mul(v.Debt(), v.bm.price)
  {
    EmptyBorrowWorthless(v.bm);
  }

  /** What a row of the account is worth, if it has one. */
  function StoredDebt(db: Db, k: Key, m: Market): real { if k in db.borrows then DebtWorth(db.borrows[k], m) else 0.0 }

  function StoredPledge(db: Db, k: Key, m: Market): real
  {
    if k in db.supplies then SupplyWorth(db.supplies[k], m) else 0.0
  }

  /** An account that owes more or less: its liquidity moves by exactly the value of the change. */
  lemma DebtMoved(db: Db, live: map<nat, Market>, k: Key, m: Market, debt: real, change: real, version: int)
    requires k.market in db.markets && k.market in live && live[k.market] == m && m.borrowIndex > 0.0
    requires Grid16(debt + change)
    requires StoredDebt(db, k, m) == Mul(debt, m.price)
    ensures Liquidity(db.(borrows := db.borrows[k := Borrow(debt + change, m.borrowIndex, version)]), live, k.user)
         == Liquidity(db, live, k.user) - Mul(change, m.price)
  {
    var b := Borrow(debt + change, m.borrowIndex, version);
    SupplyWorthsFrame(db, db.(borrows := db.borrows[k := b]), live, k.user);
    PutBorrowRow(db, live, k, b);
    BalanceAtIndex(b, m);
    MulSum(debt, change, m.price);
  }

  /** What the account had pledged in the market before, valued as the check values it. */
  lemma OldPledge(db: Db, user: nat, si: nat, v: View)
    requires v.supply == Find(db.supplies, Key(user, si))
    ensures StoredPledge(db, Key(user, si), v.sm) == Worth(v.Collaterals(), v.sm)
  {
    EmptySupplyWorthless(v.sm);
  }

  /** The value of an amount of collateral. */
  function Worth(c: real, m: Market): real { SupplyWorth(Supply(c, 0), m) }

  lemma WorthSum(a: real, b: real, m: Market)
    ensures Worth(a + b, m) == Worth(a, m) + Worth(b, m)
  {
    MulSum(a, b, m.exchangeRate);
    MulSum(Mul(a, m.exchangeRate), Mul(b, m.exchangeRate), m.p.collateralFactor);
    MulSum(Mul(Mul(a, m.exchangeRate), m.p.collateralFactor), Mul(Mul(b, m.exchangeRate), m.p.collateralFactor),
           m.price);
  }

  lemma WorthNegated(b: real, m: Market)
    ensures Worth(-b, m) == -Worth(b, m)
  {
    EmptySupplyWorthless(m);
    WorthSum(b, -b, m);
  }

  /** An account whose collateral changes, valued at the checked quotes. */
  lemma CollateralMoved(db: Db, live: map<nat, Market>, k: Key, m: Market, old': real, change: real, version: int)
    requires k.market in db.markets && k.market in live && live[k.market] == m
    requires StoredPledge(db, k, m) == Worth(old', m)
    ensures Liquidity(db.(supplies := db.supplies[k := Supply(old' + change, version)]), live, k.user)
         == Liquidity(db, live, k.user) + Worth(change, m)
  {
    var x := Supply(old' + change, version);
    DebtWorthsFrame(db, db.(supplies := db.supplies[k := x]), live, k.user);
    PutSupplyRow(db, live, k, x);
    WorthSum(old', change, m);
  }

  lemma PledgeMoved(db: Db, user: nat, si: nat, v: View, live: map<nat, Market>, pledged: real, change: real,
                    version: int)
    requires si in db.markets && si in live && live[si] == v.sm
    requires v.supply == Find(db.supplies, Key(user, si)) && pledged == v.Collaterals()
    ensures Liquidity(db.(supplies := db.supplies[Key(user, si) := Supply(pledged + change, version)]), live, user)
         == Liquidity(db, live, user) + Worth(change, v.sm)
  {
    OldPledge(db, user, si, v);
    CollateralMoved(db, live, Key(user, si), v.sm, pledged, change, version);
  }

  lemma LoanMoved(db: Db, user: nat, bi: nat, v: View, live: map<nat, Market>, debt: real, change: real, version: int)
    requires bi in db.markets && bi in live && live[bi] == v.bm
    requires v.borrow == Find(db.borrows, Key(user, bi)) && debt == v.Debt()
    requires v.bm.borrowIndex > 0.0 && Grid16(debt + change)
    ensures Liquidity(db.(borrows := db.borrows[Key(user, bi) := Borrow(debt + change, v.bm.borrowIndex, version)]),
      live, user)
         == Liquidity(db, live, user) - Mul(change, v.bm.price)
  {
    OldDebt(db, user, bi, v);
    DebtMoved(db, live, Key(user, bi), v.bm, debt, change, version);
  }

  // ---- Quotes after a batch ---------------------------------------------------------------------------

  /** Every market is quoted after the batch as the given live rows quote it. */
  ghost predicate Priced(db: Db, o: Output, s: Batch, live: map<nat, Market>)
  {
    && Clean(db, o, s) && RunAll(db, s).markets.Keys == db.markets.Keys
    && (forall n :: n in db.markets ==> SameQuotes(MarketAt(db, live, n), AfterFind(RowAfter(db, s, n))))
  }

  /** The supplies and borrows a batch leaves behind. */
  function SuppliesAfter(db: Db, s: Batch): map<Key, Supply> { AddSupply(AddSupply(db.supplies, s.a), s.d) }

  function BorrowsAfter(db: Db, s: Batch): map<Key, Borrow>
  {
    AddBorrow(AddBorrow(AddBorrow(db.borrows, s.b), s.d), s.e)
  }

  /** After a batch that leaves every quote as the check saw it, the account is worth what its new
      rows are worth at the checked quotes. */
  lemma BatchValue(db: Db, o: Output, s: Batch, live: map<nat, Market>, user: nat)
    requires Priced(db, o, s, live)
    ensures Liquidity(RunAll(db, s), map[], user)
         == Liquidity(db.(supplies := SuppliesAfter(db, s), borrows := BorrowsAfter(db, s)), live, user)
  {
    var e := RunAll(db, s);
    var mid := db.(supplies := e.supplies, borrows := e.borrows);
    RunSupplies(db, s);
    RunBorrows(db, s);
    forall m | m in db.markets
      ensures SameQuotes(MarketAt(mid, live, m), MarketAt(e, map[], m))
    {
      RunMarket(db, o, s, m);
      assert MarketAt(mid, live, m) == MarketAt(db, live, m);
    }
    Revalue(mid, live, e, user);
  }

  lemma OtherRow(db: Db, o: Output, s: Batch, user: nat, si: nat, bi: nat, n: nat)
    requires Shaped(o, user, si, bi, s) && n in db.markets && n != si && n != bi
    ensures RowAfter(db, s, n) == db.markets[n]
  {
  }

  /** Only the two markets of the account need looking at. */
  lemma TwoQuotes(db: Db, o: Output, s: Batch, user: nat, si: nat, bi: nat, live: map<nat, Market>)
    requires Clean(db, o, s) && RunAll(db, s).markets.Keys == db.markets.Keys && Shaped(o, user, si, bi, s)
    requires si in db.markets && bi in db.markets && live.Keys == {si, bi}
    requires SameQuotes(live[si], AfterFind(RowAfter(db, s, si)))
    requires SameQuotes(live[bi], AfterFind(RowAfter(db, s, bi)))
    ensures Priced(db, o, s, live)
  {
    forall n | n in db.markets
      ensures SameQuotes(MarketAt(db, live, n), AfterFind(RowAfter(db, s, n)))
    {
      if n != si && n != bi { OtherRow(db, o, s, user, si, bi, n); }
    }
  }

  /** The premises every step of a legal run meets. */
  ghost predicate Sound(db: Db, o: Output, user: nat, si: nat, bi: nat, v: View, live: map<nat, Market>, s: Batch)
  {
    && ViewOk(v) && ReadFrom(db, o, user, si, bi, v, live) && Clean(db, o, s)
    && RunAll(db, s).markets.Keys == db.markets.Keys && Shaped(o, user, si, bi, s)
    && v.sm.exchangeRate > 0.0 && v.bm.exchangeRate > 0.0
  }

  lemma StepSound(db: Db, o: Output, user: nat, si: nat, bi: nat, v: View, s: Batch) returns (live: map<nat, Market>)
    requires Inv(db) && Fresh(db, o) && Legal(db, o) && si in db.markets && bi in db.markets
    requires v == Look(db, o, user, si, bi) && s == Slots(db, o) && Shaped(o, user, si, bi, s)
    requires v.sm.exchangeRate > 0.0 && v.bm.exchangeRate > 0.0
    ensures Sound(db, o, user, si, bi, v, live, s)
  {
    LookOk(db, o, user, si, bi);
    live := LookReads(db, o, user, si, bi);
    SlotsOwned(db, o);
    SlotsGood(db, o);
    SlotsPlaced(db, o);
    RunKeepsInv(db, s, 9);
  }

  /** A batch whose only debt row adds a change to what the account owes. */
  predicate Owes(db: Db, o: Output, s: Batch, user: nat, bi: nat, v: View, debt: real, loan: real)
  {
    && debt == v.Debt() && Grid16(debt + loan)
    && BorrowsAfter(db, s) == db.borrows[Key(user, bi) := Borrow(debt + loan, v.bm.borrowIndex, o.id)]
  }

  /** A batch whose only supply row adds a change to what the account has pledged. */
  predicate Locks(db: Db, o: Output, s: Batch, user: nat, si: nat, v: View, pledged: real, change: real)
  {
    && pledged == v.Collaterals()
    && SuppliesAfter(db, s) == db.supplies[Key(user, si) := Supply(pledged + change, o.id)]
  }

  /** The liquidity left by a batch that changes only a debt, only a pledge, or both. */
  lemma LoanValue(db: Db, o: Output, s: Batch, user: nat, si: nat, bi: nat, v: View, live: map<nat, Market>, debt: real,
                  loan: real)
    requires Sound(db, o, user, si, bi, v, live, s) && Priced(db, o, s, live)
    requires Owes(db, o, s, user, bi, v, debt, loan) && SuppliesAfter(db, s) == db.supplies
    ensures Liquidity(RunAll(db, s), map[], user) == v.liquidity - Mul(loan, v.bm.price)
  {
    BatchValue(db, o, s, live, user);
    LoanMoved(db, user, bi, v, live, debt, loan, o.id);
  }

  lemma PledgeValue(db: Db, o: Output, s: Batch, user: nat, si: nat, bi: nat, v: View, live: map<nat, Market>,
                    pledged: real, change: real)
    requires Sound(db, o, user, si, bi, v, live, s) && Priced(db, o, s, live)
    requires Locks(db, o, s, user, si, v, pledged, change) && BorrowsAfter(db, s) == db.borrows
    ensures Liquidity(RunAll(db, s), map[], user) == v.liquidity + Worth(change, v.sm)
  {
    BatchValue(db, o, s, live, user);
    PledgeMoved(db, user, si, v, live, pledged, change, o.id);
  }

  lemma RowsValue(db: Db, o: Output, s: Batch, user: nat, si: nat, bi: nat, v: View, live: map<nat, Market>,
                  pledged: real, change: real, debt: real, loan: real)
    requires Sound(db, o, user, si, bi, v, live, s)
    requires Locks(db, o, s, user, si, v, pledged, change) && Owes(db, o, s, user, bi, v, debt, loan)
    ensures Liquidity(db.(supplies := SuppliesAfter(db, s), borrows := BorrowsAfter(db, s)), live, user)
         == v.liquidity + Worth(change, v.sm) - Mul(loan, v.bm.price)
  {
    PledgeMoved(db, user, si, v, live, pledged, change, o.id);
    var mid := db.(supplies := SuppliesAfter(db, s));
    LoanMoved(mid, user, bi, v, live, debt, loan, o.id);
  }

  // ---- Borrow ---------------------------------------------------------------------------------------------

  lemma BorrowWritten(db: Db, o: Output, m: nat, v: View, amount: real)
    requires m in db.markets && Fresh(db, o) && ViewOk(v) && Grid8(amount) && BorrowPlan(o, m, v, amount).c.CreateTx?
    ensures var s := BorrowPlan(o, m, v, amount);
      && SuppliesAfter(db, s) == db.supplies && Owes(db, o, s, o.sender, m, v, v.Debt(), amount)
      && RowAfter(db, s, m) == Accrue(Lent(v.bm, amount), o.block).(version := o.id)
      && Mul(amount, v.bm.price) <= v.liquidity && BorrowAllowed(v.bm, amount)
  {
    DebtRowWritten(db, o, Key(o.sender, m), Borrow(v.Debt() + amount, v.bm.borrowIndex, o.id));
    ViewRows(v);
    Grid8Is16(amount);
    Grid16Add(v.Debt(), amount);
  }

  lemma BorrowHealth(db: Db, o: Output, m: nat, v: View, live: map<nat, Market>, s: Batch, debt: real, amount: real)
    requires Sound(db, o, o.sender, m, m, v, live, s) && Grid8(amount) && BorrowAllowed(v.bm, amount)
    requires SuppliesAfter(db, s) == db.supplies && Owes(db, o, s, o.sender, m, v, debt, amount)
    requires RowAfter(db, s, m) == Accrue(Lent(v.bm, amount), o.block).(version := o.id)
    ensures Liquidity(RunAll(db, s), map[], o.sender) == v.liquidity - Mul(amount, v.bm.price)
  {
    LentKeepsRate(v.bm, amount, o.block);
    TwoQuotes(db, o, s, o.sender, m, m, live);
    LoanValue(db, o, s, o.sender, m, m, v, live, debt, amount);
  }

  /** Account health after a loan: the liquidity of the stored account is exactly the checked
      liquidity less the value of the loan, and that is not negative. */
  lemma BorrowKeepsAccountHealthy(db: Db, o: Output, m: nat, memo: real)
    requires Inv(db) && Fresh(db, o) && Legal(db, o) && m in db.markets && o.action == DoBorrow(Underlying(m), memo)
    requires Live(db, m, o.block).exchangeRate > 0.0 && Slots(db, o).c.CreateTx?
    ensures var v := Look(db, o, o.sender, m, m);
      Liquidity(Step(db, o), map[], o.sender) == v.liquidity - Mul(Trunc8(memo), v.bm.price) >= 0.0
  {
    var v, amount := Look(db, o, o.sender, m, m), Trunc8(memo);
    var s := BorrowPlan(o, m, v, amount);
    BorrowShaped(o, m, v, amount);
    var live := StepSound(db, o, o.sender, m, m, v, s);
    Trunc8Grid(memo);
    BorrowWritten(db, o, m, v, amount);
    BorrowHealth(db, o, m, v, live, s, v.Debt(), amount);
  }

  // ---- Unpledge and quick redeem -----------------------------------------------------------------------

  lemma UnpledgeWritten(db: Db, o: Output, m: nat, v: View, amount: real) returns (pledged: real, change: real)
    requires m in db.markets && Fresh(db, o) && ViewOk(v) && Grid8(amount) && UnpledgePlan(o, m, v, amount).c.CreateTx?
    ensures var s := UnpledgePlan(o, m, v, amount);
      && BorrowsAfter(db, s) == db.borrows && Locks(db, o, s, o.sender, m, v, pledged, change)
      && RowAfter(db, s, m) == v.sm.(version := o.id)
      && Worth(amount, v.sm) <= v.liquidity && Worth(change, v.sm) == -Worth(amount, v.sm)
  {
    pledged, change := v.Collaterals(), -amount;
    WorthNegated(amount, v.sm);
    TakenCollateral(v, amount);
    SupplyRowWritten(db, o, Key(o.sender, m), Supply(v.Collaterals() - amount, o.id));
  }

  lemma QuickRedeemWritten(db: Db, o: Output, m: nat, v: View, tokens: real) returns (pledged: real, change: real)
    requires m in db.markets && Fresh(db, o) && ViewOk(v) && Grid8(tokens)
    requires QuickRedeemPlan(o, m, v, tokens).c.CreateTx?
    requires v.sm.exchangeRate > 0.0
    ensures var s := QuickRedeemPlan(o, m, v, tokens);
      && BorrowsAfter(db, s) == db.borrows && Locks(db, o, s, o.sender, m, v, pledged, change)
      && SameQuotes(v.sm, RowAfter(db, s, m))
      && Worth(tokens, v.sm) <= v.liquidity && Worth(change, v.sm) == -Worth(tokens, v.sm)
  {
    pledged, change := v.Collaterals(), -tokens;
    WorthNegated(tokens, v.sm);
    TakenCollateral(v, tokens);
    SupplyRowWritten(db, o, Key(o.sender, m), Supply(v.Collaterals() - tokens, o.id));
  }

  lemma ReleaseHealth(db: Db, o: Output, m: nat, v: View, live: map<nat, Market>, s: Batch, pledged: real, change: real,
                      value: real)
    requires Sound(db, o, o.sender, m, m, v, live, s) && Worth(change, v.sm) == -value
    requires BorrowsAfter(db, s) == db.borrows && Locks(db, o, s, o.sender, m, v, pledged, change)
    requires SameQuotes(v.sm, RowAfter(db, s, m))
    ensures Liquidity(RunAll(db, s), map[], o.sender) == v.liquidity - value
  {
    TwoQuotes(db, o, s, o.sender, m, m, live);
    PledgeValue(db, o, s, o.sender, m, m, v, live, pledged, change);
  }

  /** Account health after collateral is taken back: exactly the checked liquidity less the value
      taken, and not negative. */
  lemma UnpledgeKeepsAccountHealthy(db: Db, o: Output, m: nat, memo: real)
    requires Inv(db) && Fresh(db, o) && Legal(db, o) && m in db.markets && o.action == DoUnpledge(CToken(m), memo)
    requires Live(db, m, o.block).exchangeRate > 0.0 && Slots(db, o).c.CreateTx?
    ensures var v := Look(db, o, o.sender, m, m);
      Liquidity(Step(db, o), map[], o.sender) == v.liquidity - Worth(Trunc8(memo), v.sm) >= 0.0
  {
    var v, amount := Look(db, o, o.sender, m, m), Trunc8(memo);
    var s := UnpledgePlan(o, m, v, amount);
    UnpledgeShaped(o, m, v, amount);
    var live := StepSound(db, o, o.sender, m, m, v, s);
    Trunc8Grid(memo);
    var pledged, change := UnpledgeWritten(db, o, m, v, amount);
    ReleaseHealth(db, o, m, v, live, s, pledged, change, Worth(amount, v.sm));
  }

  lemma QuickRedeemKeepsAccountHealthy(db: Db, o: Output, m: nat, memo: real)
    requires Inv(db) && Fresh(db, o) && Legal(db, o) && m in db.markets && o.action == DoQuickRedeem(CToken(m), memo)
    requires Slots(db, o).c.CreateTx?
    ensures var v := Look(db, o, o.sender, m, m);
      Liquidity(Step(db, o), map[], o.sender) == v.liquidity - Worth(Trunc8(memo), v.sm) >= 0.0
  {
    var v, amount := Look(db, o, o.sender, m, m), Trunc8(memo);
    var s := QuickRedeemPlan(o, m, v, amount);
    QuickRedeemShaped(o, m, v, amount);
    var live := StepSound(db, o, o.sender, m, m, v, s);
    Trunc8Grid(memo);
    var pledged, change := QuickRedeemWritten(db, o, m, v, amount);
    ReleaseHealth(db, o, m, v, live, s, pledged, change, Worth(amount, v.sm));
  }

  // ---- Quick borrow -------------------------------------------------------------------------------------

  /** Revaluing one market at another exchange rate moves the account by its own pledge there. */
  lemma RateMoved(db: Db, live: map<nat, Market>, k: Key, n: Market)
    requires k.market in db.markets && k.market in live
    requires SameQuotes(live[k.market], n.(exchangeRate := live[k.market].exchangeRate))
    ensures Liquidity(db, live[k.market := n], k.user)
         == Liquidity(db, live, k.user) + StoredPledge(db, k, n) - StoredPledge(db, k, live[k.market])
  {
    var moved := live[k.market := n];
    assert DebtWorths(db, moved, k.user) == DebtWorths(db, live, k.user);
    if k in db.supplies {
      assert SupplyWorths(db, moved, k.user) == SupplyWorths(db, live, k.user)[k := SupplyWorth(db.supplies[k], n)];
      TotalPut(SupplyWorths(db, live, k.user), k, SupplyWorth(db.supplies[k], n));
    } else {
      assert SupplyWorths(db, moved, k.user) == SupplyWorths(db, live, k.user);
    }
  }

  lemma QuickBorrowLocks(db: Db, o: Output, si: nat, bi: nat, v: View, amount: real)
    requires si in db.markets && bi in db.markets && Fresh(db, o) && ViewOk(v) && Grid8(amount)
    requires QuickBorrowPlan(o, si, bi, v, amount).c.CreateTx?
    ensures var s := QuickBorrowPlan(o, si, bi, v, amount);
      && Locks(db, o, s, o.sender, si, v, v.Collaterals(), CTokensOf(s.c.extra))
      && Owes(db, o, s, o.sender, bi, v, v.Debt(), amount)
  {
    var c := CTokensOf(QuickBorrowPlan(o, si, bi, v, amount).c.extra);
    LoanRows(o, bi, Key(o.sender, bi), v, amount);
    DebtRowWritten(db, o, Key(o.sender, bi), Borrow(v.Debt() + amount, v.bm.borrowIndex, o.id));
    SupplyRowWritten(db, o, Key(o.sender, si), Supply(v.Collaterals() + c, o.id));
  }

  lemma QuickBorrowRowsAfter(db: Db, o: Output, si: nat, bi: nat, v: View, amount: real)
    requires si in db.markets && bi in db.markets && ViewOk(v)
    requires QuickBorrowPlan(o, si, bi, v, amount).c.CreateTx?
    ensures var s := QuickBorrowPlan(o, si, bi, v, amount);
      && si != bi && RowAfter(db, s, bi) == Accrue(Lent(v.bm, amount), o.block).(version := o.id)
      && (o.asset.CToken? ==> RowAfter(db, s, si) == Accrue(v.sm, o.block).(version := o.id))
      && (!o.asset.CToken? ==>
            RowAfter(db, s, si) == Accrue(Minted(v.sm, CTokensOf(s.c.extra), o.amount), o.block).(version := o.id))
  {
  }

  lemma QuickBorrowChecked(o: Output, si: nat, bi: nat, v: View, amount: real)
    requires ViewOk(v) && QuickBorrowPlan(o, si, bi, v, amount).c.CreateTx?
    ensures var c := CTokensOf(QuickBorrowPlan(o, si, bi, v, amount).c.extra);
      && BorrowAllowed(v.bm, amount) && Mul(amount, v.bm.price) <= v.liquidity + Credit(o, v.sm) && c > 0.0
      && c == (if o.asset.CToken? then o.amount else Trunc8(Div(o.amount, CurExchangeRate(v.sm))))
  {
  }

  lemma AccruedQuotes(m: Market, block: int)
    requires MarketOk(m) && Refreshed(m) && m.blockNumber >= block
    ensures SameQuotes(m, Accrue(m, block))
  {
    AccrueAgain(m, block);
  }

  /** Pledged cTokens are valued at the checked quotes. */
  lemma TokenQuickBorrowHealth(db: Db, o: Output, si: nat, bi: nat, v: View, live: map<nat, Market>, s: Batch,
                               pledged: real, c: real, debt: real, amount: real)
    requires Sound(db, o, o.sender, si, bi, v, live, s) && Grid8(amount) && BorrowAllowed(v.bm, amount)
    requires Locks(db, o, s, o.sender, si, v, pledged, c) && Owes(db, o, s, o.sender, bi, v, debt, amount)
    requires RowAfter(db, s, si) == Accrue(v.sm, o.block).(version := o.id)
    requires RowAfter(db, s, bi) == Accrue(Lent(v.bm, amount), o.block).(version := o.id)
    ensures Liquidity(RunAll(db, s), map[], o.sender) == v.liquidity + Worth(c, v.sm) - Mul(amount, v.bm.price)
  {
    AccruedQuotes(v.sm, o.block);
    LentKeepsRate(v.bm, amount, o.block);
    TwoQuotes(db, o, s, o.sender, si, bi, live);
    BatchValue(db, o, s, live, o.sender);
    RowsValue(db, o, s, o.sender, si, bi, v, live, pledged, c, debt, amount);
  }

  /** Account health after a cToken quick borrow: exactly the checked liquidity with the deposit
      credited, less the value of the loan, and not negative. */
  lemma TokenQuickBorrowKeepsAccountHealthy(db: Db, o: Output, si: nat, bi: nat, memo: real)
    requires Inv(db) && Fresh(db, o) && Legal(db, o) && si in db.markets && bi in db.markets
    requires o.asset == CToken(si) && o.action == DoQuickBorrow(Underlying(bi), memo)
    requires Live(db, si, o.block).exchangeRate > 0.0 && Live(db, bi, o.block).exchangeRate > 0.0
    requires Slots(db, o).c.CreateTx?
    ensures var v := Look(db, o, o.sender, si, bi);
      Liquidity(Step(db, o), map[], o.sender) == v.liquidity + Credit(o, v.sm) - Mul(Trunc8(memo), v.bm.price) >= 0.0
  {
    var v, amount := Look(db, o, o.sender, si, bi), Trunc8(memo);
    var s := QuickBorrowPlan(o, si, bi, v, amount);
    QuickBorrowShaped(o, si, bi, v, amount);
    var live := StepSound(db, o, o.sender, si, bi, v, s);
    Trunc8Grid(memo);
    QuickBorrowLocks(db, o, si, bi, v, amount);
    QuickBorrowRowsAfter(db, o, si, bi, v, amount);
    QuickBorrowChecked(o, si, bi, v, amount);
    TokenQuickBorrowHealth(db, o, si, bi, v, live, s, v.Collaterals(), CTokensOf(s.c.extra), v.Debt(), amount);
  }
}
