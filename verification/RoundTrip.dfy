/** Supplying and redeeming in the same block: exactly what it pays, and when that is more than was put in. */
module RoundTrip {
  import opened Decimal
  import opened Core
  import opened Rates
  import opened Liquidation
  import opened Handlers
  import opened Books
  import opened Replay
  import opened Crash
  import opened Refunds
  import opened Ledger
  import opened Flows
  import opened Conservation
  import opened Health
  import opened Margins

  /** The exchange rate never claims less per cToken than the net assets hold, but for rounding. */
  lemma RateCoversNet(m: Market)
    requires MarketOk(m) && Refreshed(m) && m.ctokens > 0.0
    ensures m.cash + m.borrows - m.reserves <= Mul(CurExchangeRate(m) + HALF, m.ctokens)
  {
    var n := m.cash + m.borrows - m.reserves;
    TruncOfDiv(n, m.ctokens);
    DivNear(n, m.ctokens);
    MulSum(m.exchangeRate, HALF, m.ctokens);
    assert Mul(HALF, m.ctokens) == Mul(m.ctokens, HALF);
    MulMonotone(m.exchangeRate + HALF, CurExchangeRate(m) + HALF, m.ctokens) by { RateNonNegative(m); }
  }

  lemma RateNonNegative(m: Market)
    requires MarketOk(m) && Refreshed(m) && m.ctokens > 0.0
    ensures 0.0 <= m.exchangeRate <= CurExchangeRate(m)
  {
    var n := m.cash + m.borrows - m.reserves;
    MulMonotone(m.p.reserveFactor, 1.0, m.borrows);
    TruncOfDiv(n, m.ctokens);
    DivNear(n, m.ctokens);
  }

  /** The share of the pool that c of t + c cTokens claim after a deposit of a. */
  lemma ShareOfPool(n: real, t: real, a: real, c: real, rate: real)
    requires t > 0.0 && c > 0.0 && rate > 0.0
    requires n <= Mul(rate + HALF, t) && Mul(c, rate) <= a + Mul(HALF, rate)
    ensures Mul((n + a) / (t + c), c) <= a + Mul(HALF, rate + c)
  {
    var u := t + c;
    var q := (n + a) / u;
    assert q * u == n + a;
    MulMonotone(n, Mul(rate + HALF, t), c);
    MulMonotone(Mul(c, rate) - Mul(HALF, rate), a, t);
    ShareBound(n, t, a, c, rate);
    assert Mul(q, c) * u == (n + a) * c;
    assert Mul(q, c) * u <= (a + Mul(HALF, rate + c)) * u;
  }

  lemma ShareBound(n: real, t: real, a: real, c: real, rate: real)
    requires t > 0.0 && c > 0.0 && rate > 0.0
    requires Mul(n, c) <= Mul(Mul(rate + HALF, t), c) && Mul(Mul(c, rate) - Mul(HALF, rate), t) <= Mul(a, t)
    ensures (n + a) * c <= (a + Mul(HALF, rate + c)) * (t + c)
  {
    var x := rate * t * c;
    assert n * c <= x + HALF * (t * c);
    assert x - HALF * (rate * t) <= a * t;
    assert (a + HALF * (rate + c)) * (t + c) == a * t + a * c + HALF * (rate * t) + HALF * (c * t) + HALF * (rate * c)
      + HALF * (c * c);
    assert rate * c >= 0.0 && c * c >= 0.0;
  }

  /** The arithmetic of the round trip: both divisions round to nearest, and still the payout does
      not exceed the deposit while rate + 2c stays below 2 * 10^8. */
  lemma PayoutAtMostDeposit(n: real, t: real, a: real, c: real, rate: real)
    requires t > 0.0 && c > 0.0 && rate > 0.0 && a >= 0.0 && Grid8(a) && n + a >= 0.0
    requires n <= Mul(rate + HALF, t) && c == Trunc8(Div(a, rate)) && rate + 2.0 * c < 200000000.0
    ensures Trunc8(Mul(Div(n + a, t + c), c)) <= a
  {
    MintShort(a, rate, c);
    ShareOfPool(n, t, a, c, rate);
    RoundedShare(n + a, t + c, c);
    BelowAUnit(rate, c);
    Trunc8Below(Mul(Div(n + a, t + c), c), a);
  }

  lemma RoundedShare(n: real, t: real, c: real)
    requires n >= 0.0 && t > 0.0 && c > 0.0
    ensures 0.0 <= Mul(Div(n, t), c) <= Mul(n / t, c) + Mul(HALF, c)
  {
    var q := n / t;
    assert q >= 0.0;
    Round16Bounds(q);
    MulMonotone(Div(n, t), q + HALF, c);
    MulNonNegative(Div(n, t), c);
    assert Mul(q + HALF, c) == Mul(q, c) + Mul(HALF, c);
  }

  lemma BelowAUnit(rate: real, c: real)
    requires rate + 2.0 * c < 200000000.0
    ensures Mul(HALF, rate + c) + Mul(HALF, c) < SAT
  {
  }

  /** What a market quotes right after a deposit, in the same block. */
  lemma RateAfterMint(m: Market, row: Market, a: real, c: real, block: int)
    requires MarketOk(m) && m.blockNumber >= block && Grid16(a) && a >= 0.0 && Grid16(c) && c > 0.0
    requires row.(version := m.version) == Minted(m, c, a)
    ensures Accrue(AfterFind(row), block).exchangeRate == Div(m.cash + m.borrows - m.reserves + a, m.ctokens + c)
  {
    MintedOk(m, c, a);
    AccrueAgain(AfterFind(row), block);
    var net := m.cash + a + m.borrows - m.reserves;
    assert net == m.cash + m.borrows - m.reserves + a;
    TruncOfDiv(net, m.ctokens + c);
    Trunc16Bounds(Div(net, m.ctokens + c));
  }

  /** What the redemption of the c cTokens that a deposit of a minted pays. */
  function Payout(m: Market, a: real, c: real): real
  {
    Trunc8(Mul(Div(m.cash + m.borrows - m.reserves + a, m.ctokens + c), c))
  }

  lemma NetAssetsCover(m: Market)
    requires MarketOk(m)
    ensures m.cash + m.borrows - m.reserves >= 0.0
  {
    MulMonotone(m.p.reserveFactor, 1.0, m.borrows);
  }

  /** The redemption pays more than the deposit exactly if the cTokens are worth a unit more of the
      8-digit grid. */
  lemma PayoutGains(m: Market, a: real, c: real)
    requires MarketOk(m) && a > 0.0 && Grid8(a) && c > 0.0
    ensures Payout(m, a, c) > a <==> Mul(Div(m.cash + m.borrows - m.reserves + a, m.ctokens + c), c) >= a + SAT
  {
    var n, t := m.cash + m.borrows - m.reserves + a, m.ctokens + c;
    NetAssetsCover(m);
    assert n / t >= 0.0;
    Round16Bounds(n / t);
    MulNonNegative(Div(n, t), c);
    Trunc8Above(Mul(Div(n, t), c), a);
  }

  /** In a market with cTokens the payout is at most the deposit while rate + 2c < 2 * 10^8. */
  lemma PayoutBounded(m: Market, a: real, c: real)
    requires MarketOk(m) && Refreshed(m) && m.ctokens > 0.0 && a > 0.0 && Grid8(a)
    requires c == Trunc8(Div(a, CurExchangeRate(m))) && c > 0.0 && CurExchangeRate(m) + 2.0 * c < 200000000.0
    ensures Payout(m, a, c) <= a
  {
    RateCoversNet(m);
    NetAssetsCover(m);
    RateNonNegative(m);
    PayoutAtMostDeposit(m.cash + m.borrows - m.reserves, m.ctokens, a, c, CurExchangeRate(m));
  }

  /** In a market without cTokens the payout is the deposit and all the market holds, but for rounding. */
  lemma FirstPayoutBounds(m: Market, a: real, c: real)
    requires MarketOk(m) && m.ctokens == 0.0 && a > 0.0 && Grid8(a) && c > 0.0
    ensures var n := m.cash + m.borrows - m.reserves;
      && n + a - Mul(HALF, c) - SAT < Payout(m, a, c) <= n + a + Mul(HALF, c)
      && (n + Mul(HALF, c) < SAT ==> Payout(m, a, c) <= a)
  {
    var n := m.cash + m.borrows - m.reserves;
    NetAssetsCover(m);
    DivNear(n + a, c);
    MulNonNegative(Div(n + a, c), c);
    Trunc8Bounds(Mul(Div(n + a, c), c));
    PayoutGains(m, a, c);
  }

  lemma SupplyLeaves(db: Db, o: Output, m: nat, v: View)
    requires m in db.markets && SupplyPlan(o, m, v).c.CreateTx?
    ensures var c := Trunc8(Div(o.amount, CurExchangeRate(v.sm)));
      && c > 0.0 && RowAfter(db, SupplyPlan(o, m, v), m).(version := v.sm.version) == Minted(v.sm, c, o.amount)
      && SupplyPlan(o, m, v).d == Pay(o, Mint, CToken(m), c)
  {
  }

  lemma RedeemPays(db: Db, o: Output, m: nat, v: View)
    requires RedeemPlan(o, m, v).c.CreateTx?
    ensures RedeemPlan(o, m, v).d == Pay(o, RedeemTransfer, Underlying(m), Trunc8(Mul(CurExchangeRate(v.sm), o.amount)))
  {
  }

  /** A transfer planned in the fourth slot for a fresh output is made. */
  lemma TransferMade(db: Db, o: Output, s: Batch)
    requires Clean(db, o, s) && s.d.PutTransfer?
    ensures s.d.id in RunAll(db, s).transfers && RunAll(db, s).transfers[s.d.id] == s.d.transfer
  {
    RunTransfers(db, s);
    FreshTransfer(db, o, s.d);
    assert !IsRefund(s.d);
  }

  /** The database between the two outputs of the round trip. */
  lemma AfterSupply(db: Db, o: Output, m: nat)
    requires Inv(db) && Fresh(db, o) && Legal(db, o) && m in db.markets && o.asset == Underlying(m)
    requires o.action == DoSupply
    requires Slots(db, o).c.CreateTx?
    ensures var live := Live(db, m, o.block); var c := Trunc8(Div(o.amount, CurExchangeRate(live)));
      && MarketOk(live) && Refreshed(live) && live.blockNumber >= o.block && live.ctokens == db.markets[m].ctokens
      && c > 0.0 && m in Step(db, o).markets
      && Step(db, o).markets[m].(version := live.version) == Minted(live, c, o.amount)
      && Out(o.trace, Mint) in Step(db, o).transfers
      && Step(db, o).transfers[Out(o.trace, Mint)] == Transfer(CToken(m), c, o.sender)
  {
    var v := Look(db, o, o.sender, m, m);
    LiveOk(db.markets[m], o.block);
    LiveRefreshed(db.markets[m], o.block);
    AccruedBlock(AfterFind(db.markets[m]), o.block);
    SupplyLeaves(db, o, m, v);
    SlotsOwned(db, o);
    RunMarket(db, o, Slots(db, o), m);
    TransferMade(db, o, Slots(db, o));
  }

  lemma AfterRedeem(db: Db, o: Output, m: nat)
    requires Fresh(db, o) && m in db.markets && o.asset == CToken(m) && o.action == DoRedeem
    requires Slots(db, o).c.CreateTx?
    ensures Out(o.trace, RedeemTransfer) in Step(db, o).transfers
    ensures Step(db, o).transfers[Out(o.trace, RedeemTransfer)]
         == Transfer(Underlying(m), Trunc8(Mul(CurExchangeRate(Live(db, m, o.block)), o.amount)), o.sender)
  {
    RedeemPays(db, o, m, Look(db, o, o.sender, m, m));
    SlotsOwned(db, o);
    TransferMade(db, o, Slots(db, o));
  }

  /** Between the two outputs: the market live has minted what the second one redeems. */
  ghost predicate Halfway(mid: Db, o: Output, m: nat, live: Market, a: real)
  {
    && Fresh(mid, o) && m in mid.markets && o.asset == CToken(m) && o.action == DoRedeem && Slots(mid, o).c.CreateTx?
    && MarketOk(live) && live.blockNumber >= o.block && a > 0.0 && Grid8(a) && o.amount > 0.0 && Grid8(o.amount)
    && mid.markets[m].(version := live.version) == Minted(live, o.amount, a)
    && Live(mid, m, o.block).exchangeRate > 0.0
  }

  /** The second output of the round trip, in the database the first one left. */
  lemma RedeemAfter(mid: Db, o: Output, m: nat, live: Market, a: real)
    requires Halfway(mid, o, m, live, a)
    ensures var id := Out(o.trace, RedeemTransfer);
      id in Step(mid, o).transfers && Step(mid, o).transfers[id]
        == Transfer(Underlying(m), Payout(live, a, o.amount), o.sender)
  {
    AfterRedeem(mid, o, m);
    Grid8Is16(a);
    Grid8Is16(o.amount);
    RateAfterMint(live, mid.markets[m], a, o.amount, o.block);
  }

  lemma RunOfTwo(db: Db, first: Output, second: Output)
    ensures Run(db, [first, second]) == Step(Step(db, first), second)
  {
    var queue := [first, second];
    assert queue[1..] == [second] && [second][1..] == [];
    assert Run(Step(db, first), [second]) == Run(Step(Step(db, first), second), []);
  }

  lemma TwoGoodSteps(db: Db, first: Output, second: Output)
    requires GoodRun(db, [first, second])
    ensures Inv(db) && Fresh(db, first) && Legal(db, first)
    ensures Fresh(Step(db, first), second) && Legal(Step(db, first), second)
    ensures Step(db, first).markets.Keys == db.markets.Keys
  {
    var queue := [first, second];
    assert queue[0] == first && queue[1..] == [second];
    GoodStep(db, queue);
    assert [second][0] == second;
  }

  /** A deposit and the redemption of exactly the cTokens it minted, both accepted, in one block. */
  ghost predicate RoundTripped(db: Db, supply: Output, redeem: Output, m: nat)
  {
    && GoodRun(db, [supply, redeem]) && m in db.markets
    && supply.asset == Underlying(m) && supply.action == DoSupply && Slots(db, supply).c.CreateTx?
    && redeem.asset == CToken(m) && redeem.action == DoRedeem && redeem.block == supply.block
    && Slots(Step(db, supply), redeem).c.CreateTx?
    && redeem.amount == Trunc8(Div(supply.amount, CurExchangeRate(Live(db, m, supply.block))))
  }

  /** The amount the redemption is paid. */
  ghost function PaidBack(db: Db, supply: Output, redeem: Output): real
  {
    var e, id := Run(db, [supply, redeem]), Out(redeem.trace, RedeemTransfer);
    if id in e.transfers then e.transfers[id].amount else 0.0
  }

  lemma FirstHalf(db: Db, supply: Output, redeem: Output, m: nat)
    requires RoundTripped(db, supply, redeem, m)
    ensures Halfway(Step(db, supply), redeem, m, Live(db, m, supply.block), supply.amount)
    ensures Refreshed(Live(db, m, supply.block))
  {
    TwoGoodSteps(db, supply, redeem);
    AfterSupply(db, supply, m);
  }

  /** What a round trip pays, exactly, and when that is more than the deposit. */
  lemma RoundTripPays(db: Db, supply: Output, redeem: Output, m: nat)
    requires RoundTripped(db, supply, redeem, m)
    ensures var e, id := Run(db, [supply, redeem]), Out(redeem.trace, RedeemTransfer);
      id in e.transfers && e.transfers[id].asset == Underlying(m) && e.transfers[id].opponent == redeem.sender
    ensures var live, a, c := Live(db, m, supply.block), supply.amount, redeem.amount;
      && PaidBack(db, supply, redeem) == Payout(live, a, c)
      && (PaidBack(db, supply, redeem) > a
          <==> Mul(Div(live.cash + live.borrows - live.reserves + a, live.ctokens + c), c) >= a + SAT)
  {
    var live := Live(db, m, supply.block);
    RunOfTwo(db, supply, redeem);
    FirstHalf(db, supply, redeem, m);
    RedeemAfter(Step(db, supply), redeem, m, live, supply.amount);
    PayoutGains(live, supply.amount, redeem.amount);
  }

  /** No gain from a round trip: it pays at most the deposit if the market had cTokens before and
      rate + 2c < 2 * 10^8, and also in a market without cTokens that holds less than a unit of the
      8-digit grid. */
  lemma NoGainFromARoundTrip(db: Db, supply: Output, redeem: Output, m: nat)
    requires RoundTripped(db, supply, redeem, m)
    requires var live, c := Live(db, m, supply.block), redeem.amount;
      || (live.ctokens > 0.0 && CurExchangeRate(live) + 2.0 * c < 200000000.0)
      || (live.ctokens == 0.0 && live.cash + live.borrows - live.reserves + Mul(HALF, c) < SAT)
    ensures PaidBack(db, supply, redeem) <= supply.amount
  {
    var live := Live(db, m, supply.block);
    RoundTripPays(db, supply, redeem, m);
    FirstHalf(db, supply, redeem, m);
    if live.ctokens > 0.0 {
      PayoutBounded(live, supply.amount, redeem.amount);
    } else {
      FirstPayoutBounds(live, supply.amount, redeem.amount);
    }
  }

  /** The first deposit into a market without cTokens buys all of them: its redemption, if it is
      accepted, pays the deposit and all the market holds, but for rounding, and never more than
      that. It gains exactly if that is at least a unit of the 8-digit grid. */
  lemma FirstDepositTakesTheSurplus(db: Db, supply: Output, redeem: Output, m: nat)
    requires RoundTripped(db, supply, redeem, m) && Live(db, m, supply.block).ctokens == 0.0
    ensures var live, a, c := Live(db, m, supply.block), supply.amount, redeem.amount;
      var n, p := live.cash + live.borrows - live.reserves, PaidBack(db, supply, redeem);
      && n + a - Mul(HALF, c) - SAT < p && p < n + a
      && (p > a <==> c > 0.0 && Mul(Div(n + a, c), c) >= a + SAT)
  {
    var live := Live(db, m, supply.block);
    RoundTripPays(db, supply, redeem, m);
    FirstHalf(db, supply, redeem, m);
    FirstPayoutBounds(live, supply.amount, redeem.amount);
    AcceptedBelowCash(Step(db, supply), redeem, m, live, supply.amount);
  }

  /** A redemption is accepted only for less than the cash above the reserves. */
  lemma AcceptedBelowCash(mid: Db, o: Output, m: nat, live: Market, a: real)
    requires Halfway(mid, o, m, live, a)
    ensures Payout(live, a, o.amount) < live.cash + live.borrows - live.reserves + a
  {
    var row := Live(mid, m, o.block);
    Grid8Is16(a);
    Grid8Is16(o.amount);
    RateAfterMint(live, mid.markets[m], a, o.amount, o.block);
    MintedOk(live, o.amount, a);
    AccrueAgain(AfterFind(mid.markets[m]), o.block);
    RedeemChecked(mid, o, m);
    assert Mul(row.exchangeRate, o.amount) == Mul(o.amount, row.exchangeRate);
    MulNonNegative(o.amount, row.exchangeRate);
    Trunc8Bounds(Mul(o.amount, row.exchangeRate));
  }

  lemma RedeemChecked(mid: Db, o: Output, m: nat)
    requires Fresh(mid, o) && m in mid.markets && o.asset == CToken(m) && o.action == DoRedeem
    requires Slots(mid, o).c.CreateTx?
    ensures RedeemAllowed(Live(mid, m, o.block), o.amount)
  {
  }
}
