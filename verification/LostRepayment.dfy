/** A liquidation within one market, at given inputs: the debts no longer cover the book. */
module LostRepayment {
  import opened Decimal
  import opened Totals
  import opened Core
  import opened Rates
  import opened Account
  import opened Liquidation
  import opened Handlers
  import opened Books
  import opened Replay
  import opened Refunds
  import opened Ledger
  import opened Flows
  import opened Debts

  /** Half of the collateral counts, half may be seized at once, at a discount of a tenth. */
  const PARAMS := Params(1.0, 0.0, 0.1, 0.0, 0.5, 0.5, 0.0, 0.0, 0.0, 0.0, 0.0)

  /** Ten units u in cash, ten lent out, twenty cTokens. */
  function Lender(u: real): Market { Market(10.0 * u, 10.0 * u, 0.0, 20.0 * u, 1.0, 1.0, 1.0, 0, 0, 0, false, PARAMS) }

  const BORROWER := Key(1, 0)

  /** The borrower has pledged ten cTokens and owes ten units. */
  function Lending(u: real): Db
  {
    Db(map[0 := Lender(u)], map[BORROWER := Supply(10.0 * u, 0)], map[BORROWER := Borrow(10.0 * u, 1.0, 0)],
       map[], map[], 4)
  }

  /** Another account pays five units to liquidate it. */
  function Payment(u: real): Output { Output(1, 7, 2, Underlying(0), 5.0 * u, 0, DoLiquidate(1, CToken(0))) }

  /** A unit to count in. */
  predicate Unit(u: real) { u >= SAT && Grid8(u) }

  lemma Multiples(u: real)
    requires Unit(u)
    ensures Grid8(5.0 * u) && Grid8(10.0 * u) && Grid16(5.0 * u) && Grid16(10.0 * u) && Grid16(20.0 * u)
    ensures Grid16(4.5 * u)
  {
    var k := Units8(u);
    FromUnits8(5.0 * u, 5 * k);
    FromUnits8(10.0 * u, 10 * k);
    Grid8Is16(5.0 * u);
    Grid8Is16(10.0 * u);
    Grid16Add(10.0 * u, 10.0 * u);
    FromUnits16(4.5 * u, 450000000 * k);
  }

  lemma Ones()
    ensures Grid16(0.0) && Grid8(0.0) && Grid16(1.0) && Trunc16(1.0) == 1.0 && Round16(1.0) == 1.0
    ensures Trunc16(0.9) == 0.9
  {
    Exact(0.0, 0);
    Exact(1.0, 100000000);
    Exact(0.9, 90000000);
  }

  lemma ZeroAndOne()
    ensures Grid16(0.0) && Grid16(1.0)
  {
    FromUnits16(0.0, 0);
    FromUnits16(1.0, 10000000000000000);
  }

  /** A market that holds no reserves. */
  lemma NoReservesOk(m: Market)
    requires ParamsOk(m.p) && OnGrid(m) && m.cash >= 0.0 && m.borrows >= 0.0 && m.ctokens >= 0.0
    requires m.reserves == 0.0 && m.borrowIndex >= 1.0 && m.price > 0.0
    ensures MarketOk(m)
  {
    MulNonNegative(m.p.reserveFactor, m.borrows);
  }

  lemma LenderOk(u: real)
    requires Unit(u)
    ensures MarketOk(Lender(u))
  {
    Multiples(u);
    ZeroAndOne();
    NoReservesOk(Lender(u));
  }

  lemma Discounted(m: Market)
    requires m.price == 1.0 && m.p.liquidationIncentive == 0.1
    ensures SeizedPrice(m) == 0.9
  {
    assert Mul(m.price, m.p.liquidationIncentive) == 0.1;
    Ones();
  }

  /** A market with as many cTokens as net assets exchanges one for one. */
  lemma EvenMarket(m: Market, block: int)
    requires m.cash + m.borrows - m.reserves == m.ctokens > 0.0 && m.exchangeRate == 1.0 && m.borrowIndex == 1.0
    requires block <= m.blockNumber
    ensures Accrue(AfterFind(m), block) == m
  {
    AccrueAgain(m, block);
    assert m.ctokens / m.ctokens == 1.0;
    Ones();
  }

  lemma LenderIsLive(u: real)
    requires Unit(u)
    ensures Live(Lending(u), 0, 0) == Lender(u)
  {
    EvenMarket(Lender(u), 0);
  }

  lemma LendingIsWellFormed(u: real)
    requires Unit(u)
    ensures Inv(Lending(u)) && Fresh(Lending(u), Payment(u)) && Legal(Lending(u), Payment(u))
  {
    Multiples(u);
    LenderOk(u);
    LenderIsLive(u);
    Discounted(Lender(u));
  }

  lemma BorrowerOwes(u: real)
    requires Unit(u)
    ensures BorrowBalance(Borrow(10.0 * u, 1.0, 0), Lender(u)) == 10.0 * u
  {
    Multiples(u);
    BalanceAtIndex(Borrow(10.0 * u, 1.0, 0), Lender(u));
  }

  /** The account is under water by five units. */
  lemma BorrowerIsUnderWater(u: real, live: map<nat, Market>)
    requires Unit(u) && live == map[0 := Lender(u)]
    ensures Liquidity(Lending(u), live, 1) == -5.0 * u
  {
    BorrowerOwes(u);
    assert Mul(Mul(Mul(10.0 * u, 1.0), 0.5), 1.0) == 5.0 * u;
    assert Mul(10.0 * u, 1.0) == 10.0 * u;
    assert SupplyWorths(Lending(u), live, 1) == map[BORROWER := 5.0 * u];
    assert DebtWorths(Lending(u), live, 1) == map[BORROWER := 10.0 * u];
    TotalOne(BORROWER, 5.0 * u);
    TotalOne(BORROWER, 10.0 * u);
  }

  /** The close factor caps the value at 4.5 units, which buy five cTokens. */
  lemma TermsOfSeizure(u: real)
    requires Unit(u)
    ensures SeizeTerms(5.0 * u, 10.0 * u, 10.0 * u, Lender(u), Lender(u)) == Terms(5.0 * u, 4.5 * u)
  {
    var m := Lender(u);
    Multiples(u);
    Discounted(m);
    assert PaidValue(5.0 * u, m) == 5.0 * u && PaidValue(10.0 * u, m) == 10.0 * u by {
      assert Mul(5.0 * u, 1.0) == 5.0 * u && Mul(10.0 * u, 1.0) == 10.0 * u;
      Trunc16Bounds(5.0 * u);
      Trunc16Bounds(10.0 * u);
    }
    assert MaxSeizeValue(10.0 * u, m) == 4.5 * u by {
      assert Mul(Mul(Mul(10.0 * u, 1.0), 0.5), 0.9) == 4.5 * u;
      Trunc16Bounds(4.5 * u);
    }
    Quotients(u);
  }

  lemma Quotients(u: real)
    requires Unit(u)
    ensures Div(4.5 * u, 0.9) == 5.0 * u && Trunc8(Div(5.0 * u, 1.0)) == 5.0 * u
    ensures Trunc16(Div(4.5 * u, 1.0)) == 4.5 * u
  {
    Multiples(u);
    assert 4.5 * u / 0.9 == 5.0 * u;
    Round16Bounds(5.0 * u);
    Round16Bounds(4.5 * u);
    Trunc16Bounds(4.5 * u);
    var k := Units8(5.0 * u);
    Trunc8To(5.0 * u, k);
  }

  lemma LookAtBorrower(u: real) returns (v: View)
    requires Unit(u)
    ensures v == Look(Lending(u), Payment(u), 1, 0, 0)
    ensures v.tx.None? && v.supply == Some(Supply(10.0 * u, 0)) && v.borrow == Some(Borrow(10.0 * u, 1.0, 0))
    ensures v.sm == Lender(u) == v.bm && v.liquidity == -5.0 * u && !v.closed
  {
    v := Look(Lending(u), Payment(u), 1, 0, 0);
    LenderIsLive(u);
    var live := map[0 := Lender(u)];
    assert map[0 := Lender(u), 0 := Lender(u)] == live;
    BorrowerIsUnderWater(u, live);
  }

  /** Seen like this, the account is liquidated at these terms. */
  lemma SeenAndAccepted(u: real, v: View)
    requires Unit(u) && v.tx.None? && !v.closed && v.liquidity == -5.0 * u && v.sm == Lender(u) == v.bm
    requires v.supply == Some(Supply(10.0 * u, 0)) && v.borrow == Some(Borrow(10.0 * u, 1.0, 0))
    ensures LiquidateVerdict(Payment(u), v) == Accept(Seized(5.0 * u, 4.5 * u))
  {
    BorrowerOwes(u);
    TermsOfSeizure(u);
    VerdictAccepts(Payment(u), v, Terms(5.0 * u, 4.5 * u));
  }

  lemma PaymentIsAccepted(u: real)
    requires Unit(u)
    ensures Slots(Lending(u), Payment(u)).c == CreateTx(7, Seized(5.0 * u, 4.5 * u))
  {
    var v := LookAtBorrower(u);
    SeenAndAccepted(u, v);
    Settles(Payment(u), 1, 0, v, Seized(5.0 * u, 4.5 * u));
    LiquidateSlots(Lending(u), Payment(u));
  }

  lemma VerdictAccepts(o: Output, v: View, t: Terms)
    requires !v.closed && v.liquidity < 0.0 && t == SeizeTerms(o.amount, v.Collaterals(), v.Debt(), v.sm, v.bm)
    ensures LiquidateVerdict(o, v) == Accept(Seized(t.ctokens, t.repay))
  {
  }

  lemma Settles(o: Output, user: nat, m: nat, v: View, extra: Extra)
    requires v.tx.None? && v.supply.Some? && v.borrow.Some? && v.bm.version < o.id
      && LiquidateVerdict(o, v) == Accept(extra)
    ensures LiquidatePlan(o, user, m, m, v).c == CreateTx(o.trace, extra)
  {
  }

  lemma BorrowerShare(u: real)
    ensures Shares(Lending(u), 0) == 10.0 * u
  {
    assert ShareTable(Lending(u), 0) == map[BORROWER := 10.0 * u];
    TotalOne(BORROWER, 10.0 * u);
  }

  lemma FallsShort(e: Db, before: real, u: real)
    requires 0 in e.markets && e.markets[0].borrowIndex == 1.0 && e.markets[0].borrows == 10.0 * u && u >= SAT
    requires before == 10.0 * u && Shares(e, 0) <= before - 4.5 * u / 1.0 + HALF
    ensures !Covered(e, 0, 1) && Book(e.markets[0]) == 10.0 * u && Shares(e, 0) <= 5.5 * u + HALF
  {
  }

  /** Before the payment the debts cover the book exactly. After it, with one debt row written, they
      fall short of it by almost half: with one as the unit, 5.5 of debts stand against a book of 10. */
  lemma LiquidationUncoversTheBook(u: real)
    requires Unit(u)
    ensures Inv(Lending(u)) && Fresh(Lending(u), Payment(u)) && Legal(Lending(u), Payment(u))
    ensures Covered(Lending(u), 0, 0)
    ensures var e := Step(Lending(u), Payment(u));
      && 0 in e.markets && e.markets[0].borrowIndex > 0.0 && !Covered(e, 0, 1)
      && Book(e.markets[0]) == 10.0 * u && Shares(e, 0) <= 5.5 * u + HALF
  {
    LendingIsWellFormed(u);
    LenderIsLive(u);
    PaymentIsAccepted(u);
    BorrowerShare(u);
    SelfLiquidationLosesTheRepayment(Lending(u), Payment(u), 1, 0);
    FallsShort(Step(Lending(u), Payment(u)), 10.0 * u, u);
  }
}
