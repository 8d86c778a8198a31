/** What deposits and redemptions leave behind: worker/payee/supply.go, supply_redeem.go, quick_pledge.go
    and quick_redeem.go. */
module Deposits {
  import opened Decimal
  import opened Core
  import opened Rates
  import opened Account
  import opened Handlers
  import opened Books
  import opened Replay
  import opened Refunds
  import opened Ledger
  import opened Flows
  import opened Health
  import opened Outcomes

  // ---- Supply ---------------------------------------------------------------------------------------

  /** A deposit mints the truncated quotient of the amount and the rate, adds both to the market and pays
      the cTokens to the depositor. */
  function Supplied(db: Db, o: Output, m: nat, live: Market): Db
  {
    var c := Trunc8(Div(o.amount, Rate(live)));
    if live.closed then RefundedFor(db, o, MarketClosed)
    else if c <= 0.0 then RefundedFor(db, o, AmountTooSmall)
    else Paying(Leaves(db, o, NoExtra, m, live.(cash := live.cash + o.amount, ctokens := live.ctokens + c)),
                o, Mint, CToken(m), c)
  }

  lemma SupplyAccepted(db: Db, o: Output, m: nat, v: View, s: Batch, c: real)
    requires Reads(db, o, m, v, s) && s == SupplyPlan(o, m, v) && Paid(o)
    requires c == Trunc8(Div(o.amount, CurExchangeRate(v.sm))) > 0.0 && !v.sm.closed
    ensures RunAll(db, s) == Supplied(db, o, m, v.sm)
  {
    MintedTokens(o.amount, v.sm);
    Grid8Is16(o.amount);
    MintedOk(v.sm, c, o.amount);
    BatchLeaves(db, o, s);
    FreshTransfer(db, o, s.d);
  }

  lemma SupplyCases(db: Db, o: Output, m: nat, v: View, s: Batch)
    requires Reads(db, o, m, v, s) && s == SupplyPlan(o, m, v) && Paid(o)
    ensures RunAll(db, s) == Supplied(db, o, m, v.sm)
  {
    var c := Trunc8(Div(o.amount, CurExchangeRate(v.sm)));
    if v.sm.closed {
      RefusalLeaves(db, o, s, MarketClosed);
    } else if c <= 0.0 {
      RefusalLeaves(db, o, s, AmountTooSmall);
    } else {
      SupplyAccepted(db, o, m, v, s, c);
    }
  }

  lemma SupplyOutcome(db: Db, o: Output, m: nat)
    requires Inv(db) && Fresh(db, o) && Legal(db, o) && m in db.markets
    requires o.action == DoSupply && o.asset == Underlying(m)
    ensures Step(db, o) == Supplied(db, o, m, Live(db, m, o.block))
  {
    var v := OneView(db, o, m);
    SupplyCases(db, o, m, v, Slots(db, o));
  }

  // ---- Redeem ---------------------------------------------------------------------------------------

  /** A redemption is accepted if the market has issued that many cTokens and its cash above the reserves
      is more than their worth; it burns them and pays their truncated worth to the redeemer. */
  function Redeemed(db: Db, o: Output, m: nat, live: Market): Db
  {
    var worth := Mul(o.amount, live.exchangeRate);
    if live.closed then RefundedFor(db, o, MarketClosed)
    else if o.amount > live.ctokens || live.cash - live.reserves <= worth then RefundedFor(db, o, PledgeDenied)
    else Paying(Leaves(db, o, NoExtra, m,
                       live.(cash := live.cash - Trunc8(worth), ctokens := live.ctokens - o.amount)),
                o, RedeemTransfer, Underlying(m), Trunc8(worth))
  }

  lemma RedeemAccepted(db: Db, o: Output, m: nat, v: View, s: Batch, a: real)
    requires Reads(db, o, m, v, s) && s == RedeemPlan(o, m, v) && Paid(o) && !v.sm.closed
    requires a == Trunc8(Mul(CurExchangeRate(v.sm), o.amount)) == Trunc8(Mul(o.amount, v.sm.exchangeRate))
    requires v.sm.exchangeRate > 0.0 && o.amount <= v.sm.ctokens && RedeemAllowed(v.sm, o.amount)
    ensures RunAll(db, s) == Redeemed(db, o, m, v.sm)
  {
    Grid8Is16(o.amount);
    RedeemCovered(v.sm, o.amount);
    BurnedOk(v.sm, o.amount, a);
    BatchLeaves(db, o, s);
    FreshTransfer(db, o, s.d);
  }

  lemma RedeemCases(db: Db, o: Output, m: nat, v: View, s: Batch)
    requires Reads(db, o, m, v, s) && s == RedeemPlan(o, m, v) && Paid(o)
    requires s.c.CreateTx? ==> v.sm.exchangeRate > 0.0
    ensures RunAll(db, s) == Redeemed(db, o, m, v.sm)
  {
    if v.sm.closed {
      RefusalLeaves(db, o, s, MarketClosed);
    } else if o.amount > v.sm.ctokens || v.sm.cash - v.sm.reserves <= Mul(o.amount, v.sm.exchangeRate) {
      RefusalLeaves(db, o, s, PledgeDenied);
    } else {
      assert Mul(v.sm.exchangeRate, o.amount) == Mul(o.amount, v.sm.exchangeRate);
      RedeemAccepted(db, o, m, v, s, Trunc8(Mul(o.amount, v.sm.exchangeRate)));
    }
  }

  lemma RedeemOutcome(db: Db, o: Output, m: nat)
    requires Inv(db) && Fresh(db, o) && Legal(db, o) && m in db.markets && o.action == DoRedeem && o.asset == CToken(m)
    ensures Step(db, o) == Redeemed(db, o, m, Live(db, m, o.block))
  {
    var v := OneView(db, o, m);
    RedeemCases(db, o, m, v, Slots(db, o));
  }

  // ---- Quick pledge ---------------------------------------------------------------------------------

  /** A quick pledge mints like a deposit and locks the cTokens, up to the pledge limit of the market. */
  function QuickPledged(db: Db, o: Output, m: nat, live: Market, pledged: real): Db
  {
    var c, k := Trunc8(Div(o.amount, Rate(live))), Key(o.sender, m);
    if live.closed then RefundedFor(db, o, MarketClosed)
    else if live.p.collateralFactor <= 0.0 then RefundedFor(db, o, PledgeDisallowed)
    else if c <= 0.0 then RefundedFor(WithSupply(db, k), o, AmountTooSmall)
    else if live.p.maxPledge > 0.0 && pledged + c > live.p.maxPledge
    then RefundedFor(WithSupply(db, k), o, MaxPledgeExceeded)
    else Locking(Leaves(db, o, NoExtra, m, live.(cash := live.cash + o.amount, ctokens := live.ctokens + c)),
                 o, k, Stored(db, k) + c)
  }

  lemma QuickPledgeAccepted(db: Db, o: Output, m: nat, v: View, s: Batch, c: real)
    requires Reads(db, o, m, v, s) && s == QuickPledgePlan(o, m, v) && Paid(o) && !v.sm.closed
    requires c == Trunc8(Div(o.amount, CurExchangeRate(v.sm))) > 0.0
    requires v.sm.p.collateralFactor > 0.0 && PledgeFits(v.sm, v.pledged, c)
    ensures RunAll(db, s) == QuickPledged(db, o, m, v.sm, v.pledged)
  {
    MintedTokens(o.amount, v.sm);
    Grid8Is16(o.amount);
    MintedOk(v.sm, c, o.amount);
    AddedCollateral(v, c);
    LockedTables(db, o, s, Key(o.sender, m), v.sm.(cash := v.sm.cash + o.amount, ctokens := v.sm.ctokens + c),
                 Stored(db, Key(o.sender, m)) + c);
  }

  lemma LockedTables(db: Db, o: Output, s: Batch, k: Key, row: Market, collaterals: real)
    requires Clean(db, o, s) && k.market in db.markets
    requires s == Batch(CreateSupply(k), Nop, CreateTx(o.trace, NoExtra), PutSupply(k, Supply(collaterals, o.id)),
                        PutMarket(k.market, row.(version := o.id)), Nop, Nop, Nop, Nop)
    ensures RunAll(db, s) == Locking(Leaves(db, o, NoExtra, k.market, row), o, k, collaterals)
  {
    BatchLeaves(db, o, s);
    SupplyRowWritten(db, o, k, s.d.supply);
  }

  lemma QuickPledgeCases(db: Db, o: Output, m: nat, v: View, s: Batch)
    requires Reads(db, o, m, v, s) && s == QuickPledgePlan(o, m, v) && Paid(o)
    ensures RunAll(db, s) == QuickPledged(db, o, m, v.sm, v.pledged)
  {
    if s.c.CreateTx? {
      QuickPledgeAccepted(db, o, m, v, s, Trunc8(Div(o.amount, CurExchangeRate(v.sm))));
    } else {
      RefusalLeaves(db, o, s, s.c.id.reason);
    }
  }

  lemma QuickPledgeOutcome(db: Db, o: Output, m: nat)
    requires Inv(db) && Fresh(db, o) && Legal(db, o) && m in db.markets
    requires o.action == DoQuickPledge && o.asset == Underlying(m)
    ensures Step(db, o) == QuickPledged(db, o, m, Live(db, m, o.block), Pledged(db, m))
  {
    var v := OneView(db, o, m);
    QuickPledgeCases(db, o, m, v, Slots(db, o));
  }

  // ---- Quick redeem ---------------------------------------------------------------------------------

  /** A quick redeem takes pledged cTokens back and pays their truncated worth, if the market would redeem
      them, the account has pledged them, and its liquidity can spare them. */
  function QuickRedeemed(db: Db, o: Output, m: nat, live: Market, liquidity: real, tokens: real): Db
  {
    var k, worth := Key(o.sender, m), Mul(tokens, live.exchangeRate);
    if live.closed then RefundedFor(db, o, MarketClosed)
    else if k !in db.supplies then Missing(db, o, SupplyNotFound)
    else if tokens > live.ctokens || live.cash - live.reserves <= worth then RefundedFor(db, o, RedeemDisallowed)
    else if tokens > Stored(db, k) then RefundedFor(db, o, InsufficientCollaterals)
    else if Mul(Mul(Mul(tokens, Rate(live)), live.p.collateralFactor), live.price) > liquidity
    then RefundedBefore(db, o)
    else Paying(Locking(Leaves(db, o, NoExtra, m,
                               live.(cash := live.cash - Trunc8(worth), ctokens := live.ctokens - tokens)),
                        o, k, Stored(db, k) - tokens),
                o, QuickRedeemTransfer, Underlying(m), Trunc8(worth))
  }

  lemma QuickRedeemAccepted(db: Db, o: Output, m: nat, v: View, s: Batch, tokens: real, a: real)
    requires Reads(db, o, m, v, s) && s == QuickRedeemPlan(o, m, v, tokens) && s.c.CreateTx?
    requires Grid8(tokens) && tokens > 0.0 && v.sm.exchangeRate > 0.0 && a == Trunc8(Mul(tokens, v.sm.exchangeRate))
    ensures RunAll(db, s) == QuickRedeemed(db, o, m, v.sm, v.liquidity, tokens)
  {
    Grid8Is16(tokens);
    TakenCollateral(v, tokens);
    RedeemCovered(v.sm, tokens);
    BurnedOk(v.sm, tokens, a);
    ReleasedTables(db, o, s, Key(o.sender, m), v.sm.(cash := v.sm.cash - a, ctokens := v.sm.ctokens - tokens),
                   Stored(db, Key(o.sender, m)) - tokens, a);
  }

  lemma ReleasedTables(db: Db, o: Output, s: Batch, k: Key, row: Market, collaterals: real, a: real)
    requires Clean(db, o, s) && k.market in db.markets
    requires s == Batch(Nop, Nop, CreateTx(o.trace, NoExtra), PutSupply(k, Supply(collaterals, o.id)),
                        Pay(o, QuickRedeemTransfer, Underlying(k.market), a),
                        PutMarket(k.market, row.(version := o.id)), Nop, Nop, Nop)
    ensures RunAll(db, s) == Paying(Locking(Leaves(db, o, NoExtra, k.market, row), o, k, collaterals),
                                    o, QuickRedeemTransfer, Underlying(k.market), a)
  {
    BatchLeaves(db, o, s);
    FreshTransfer(db, o, s.e);
    SupplyRowWritten(db, o, k, s.d.supply);
  }

  lemma QuickRedeemCases(db: Db, o: Output, m: nat, v: View, s: Batch, tokens: real)
    requires Reads(db, o, m, v, s) && s == QuickRedeemPlan(o, m, v, tokens) && Grid8(tokens) && tokens > 0.0
    requires s.c.CreateTx? ==> v.sm.exchangeRate > 0.0
    ensures RunAll(db, s) == QuickRedeemed(db, o, m, v.sm, v.liquidity, tokens)
  {
    if s == IDLE {
      IdleLeaves(db);
    } else if s.c.CreateTx? {
      QuickRedeemAccepted(db, o, m, v, s, tokens, Trunc8(Mul(tokens, v.sm.exchangeRate)));
    } else if s.c.id.Refund? {
      RefusalLeaves(db, o, s, s.c.id.reason);
    } else {
      OldRefusalLeaves(db, o, s);
    }
  }

  lemma QuickRedeemOutcome(db: Db, o: Output, m: nat, memo: real)
    requires Inv(db) && Fresh(db, o) && Legal(db, o) && m in db.markets && o.action == DoQuickRedeem(CToken(m), memo)
    ensures var live := Live(db, m, o.block);
      Step(db, o) == QuickRedeemed(db, o, m, live, Liquidity(db, map[m := live], o.sender), Trunc8(memo))
  {
    var v := OneView(db, o, m);
    Trunc8Grid(memo);
    QuickRedeemCases(db, o, m, v, Slots(db, o), Trunc8(memo));
  }
}
