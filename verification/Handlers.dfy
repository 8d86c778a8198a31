/** What each payee handler decides and the store writes it then makes, in its own order,
    as a function of the database it reads. */
module Handlers {
  import opened Decimal
  import opened Core
  import opened Rates
  import opened Account
  import opened Liquidation

  // ---- Lookups ----------------------------------------------------------------------

  predicate IsMarket(db: Db, a: Asset) { a.Underlying? && a.market in db.markets }

  predicate IsCToken(db: Db, a: Asset) { a.CToken? && a.market in db.markets }

  /** The market as read from its store and brought up to the block of the output. */
  function Live(db: Db, m: nat, block: int): Market
  {
    if m in db.markets then Accrue(AfterFind(db.markets[m]), block) else NO_MARKET
  }

  datatype Option<T> = None | Some(value: T)

  function Find<K, T>(table: map<K, T>, k: K): Option<T> { if k in table then Some(table[k]) else None }

  /** Everything a handler reads: its transaction row, one supply and one borrow row, the two
      markets they belong to brought up to the block, and the account's standing. */
  datatype View = View(
    tx: Option<Extra>,
    supply: Option<Supply>,
    borrow: Option<Borrow>,
    sm: Market,
    bm: Market,
    liquidity: real,
    pledged: real,
    closed: bool,
    sysversion: int)
  {
    function Collaterals(): real { if supply.Some? then supply.value.collaterals else 0.0 }

    function Debt(): real { BorrowBalance(if borrow.Some? then borrow.value else EMPTY_BORROW, bm) }
  }

  ghost function Look(db: Db, o: Output, user: nat, s: nat, b: nat): View
  {
    var sm, bm := Live(db, s, o.block), Live(db, b, o.block);
    View(Find(db.txs, o.trace), Find(db.supplies, Key(user, s)), Find(db.borrows, Key(user, b)), sm, bm,
         Liquidity(db, map[s := sm, b := bm], user), Pledged(db, s), HasClosedMarkets(db, user), db.sysversion)
  }

  // ---- Market bookkeeping -------------------------------------------------------------

  function Minted(m: Market, ctokens: real, cash: real): Market
  {
    m.(ctokens := Trunc16(m.ctokens + ctokens), cash := Trunc16(m.cash + cash))
  }

  function Burned(m: Market, ctokens: real, cash: real): Market
  {
    m.(ctokens := Trunc16(m.ctokens - ctokens), cash := Trunc16(m.cash - cash))
  }

  function Lent(m: Market, amount: real): Market
  {
    m.(cash := Trunc16(m.cash - amount), borrows := Trunc16(m.borrows + amount))
  }

  /** Total borrows are clamped at zero. */
  function Returned(m: Market, repay: real): Market
  {
    var borrows := Trunc16(m.borrows - repay);
    m.(borrows := if borrows < 0.0 then 0.0 else borrows, cash := Trunc16(m.cash + repay))
  }

  function Withdrawn(m: Market, amount: real): Market { m.(cash := m.cash - amount, reserves := m.reserves - amount) }

  predicate BorrowAllowed(m: Market, amount: real)
  {
    amount > 0.0 && m.cash - m.reserves >= m.p.borrowCap && amount <= m.cash - m.reserves - m.p.borrowCap
  }

  predicate RedeemAllowed(m: Market, tokens: real) { m.cash - m.reserves > Mul(tokens, m.exchangeRate) }

  predicate PledgeFits(m: Market, pledged: real, tokens: real)
  {
    m.p.maxPledge <= 0.0 || pledged + tokens <= m.p.maxPledge
  }

  // ---- Verdicts -------------------------------------------------------------------------

  datatype Verdict = Refuse(reason: Reason) | RefuseV0 | Accept(extra: Extra)

  /** The transaction row of an accepted output, or the refund of a refused one. */
  function Settle(o: Output, v: Verdict): Write
  {
    match v
    case Refuse(reason) => PutTransfer(Refund(o.trace, reason), Transfer(o.asset, o.amount, o.sender))
    case RefuseV0 => PutTransfer(RefundV0(o.trace), Transfer(o.asset, o.amount, o.sender))
    case Accept(extra) => CreateTx(o.trace, extra)
  }

  function Refused(o: Output, reason: Reason): Batch { IDLE.(c := Settle(o, Refuse(reason))) }

  /** An error that carries no refund flag moves the checkpoint and writes nothing. */
  function MissingRow(v: View, o: Output, reason: Reason): Batch
  {
    if v.sysversion < 5 then IDLE else Refused(o, reason)
  }

  /** A recorded transaction settles the verdict of every later attempt. */
  function Recorded(v: View, first: Verdict): Verdict { if v.tx.Some? then Accept(v.tx.value) else first }

  function Perform(o: Output, a: Write, b: Write, v: Verdict,
                   d: Write, e: Write, f: Write, g: Write, h: Write, i: Write): Batch
  {
    if v.Accept? then Batch(a, b, Settle(o, v), d, e, f, g, h, i)
    else Batch(a, b, Settle(o, v), Nop, Nop, Nop, Nop, Nop, Nop)
  }

  function RepayOf(e: Extra): real
  {
    match e
    case Repaid(r) => r
    case Seized(_, r) => r
    case _ => 0.0
  }

  function CTokensOf(e: Extra): real
  {
    match e
    case Pledging(c) => c
    case Seized(c, _) => c
    case _ => 0.0
  }

  function ExtraOf(v: Verdict): Extra { if v.Accept? then v.extra else NoExtra }

  function Pay(o: Output, source: Source, asset: Asset, amount: real): Write
  {
    PutTransfer(Out(o.trace, source), Transfer(asset, amount, o.sender))
  }

  function PutSupplyAt(o: Output, k: Key, collaterals: real): Write { PutSupply(k, Supply(collaterals, o.id)) }

  function PutBorrowAt(o: Output, k: Key, principal: real, index: real): Write
  {
    PutBorrow(k, Borrow(principal, index, o.id))
  }

  function PutMarketAt(o: Output, m: nat, row: Market): Write { PutMarket(m, row.(version := o.id)) }

  // ---- Handlers -----------------------------------------------------------------------------

  /** Mint cTokens for a deposit. */
  function SupplyPlan(o: Output, m: nat, v: View): Batch
  {
    var ctokens := Trunc8(Div(o.amount, CurExchangeRate(v.sm)));
    if v.sm.version >= o.id then IDLE
    else if v.sm.closed then Refused(o, MarketClosed)
    else if ctokens <= 0.0 then Refused(o, AmountTooSmall)
    else
      Perform(o, Nop, Nop, Recorded(v, Accept(NoExtra)),
              Pay(o, Mint, CToken(m), ctokens),
              PutMarketAt(o, m, Minted(v.sm, ctokens, o.amount)),
              Nop, Nop, Nop, Nop)
  }

  /** Burn cTokens and pay out the underlying asset. */
  function RedeemPlan(o: Output, m: nat, v: View): Batch
  {
    var amount := Trunc8(Mul(CurExchangeRate(v.sm), o.amount));
    if v.sm.version >= o.id then IDLE
    else if v.sm.closed then Refused(o, MarketClosed)
    else
      var allowed := o.amount <= v.sm.ctokens && RedeemAllowed(v.sm, o.amount);
      Perform(o, Nop, Nop, Recorded(v, if allowed then Accept(NoExtra) else Refuse(PledgeDenied)),
              Pay(o, RedeemTransfer, Underlying(m), amount),
              PutMarketAt(o, m, Burned(v.sm, o.amount, amount)),
              Nop, Nop, Nop, Nop)
  }

  /** Lock cTokens as collateral. */
  function PledgePlan(o: Output, m: nat, v: View): Batch
  {
    if v.sm.version >= o.id then IDLE
    else if v.sm.closed then Refused(o, MarketClosed)
    else
      var k := Key(o.sender, m);
      var first :=
        if !(o.amount <= v.sm.ctokens && v.sm.p.collateralFactor > 0.0) then Refuse(PledgeDenied)
        else if !PledgeFits(v.sm, v.pledged, o.amount) then Refuse(MaxPledgeExceeded)
        else Accept(NoExtra);
      Perform(o, CreateSupply(k), Nop, Recorded(v, first),
              PutSupplyAt(o, k, v.Collaterals() + o.amount),
              PutMarketAt(o, m, v.sm),
              Nop, Nop, Nop, Nop)
  }

  /** Take collateral back, if the account can spare it. */
  function UnpledgePlan(o: Output, m: nat, v: View, amount: real): Batch
  {
    if v.sm.version >= o.id then IDLE
    else if v.sm.closed then Refused(o, MarketClosed)
    else if v.supply.None? then MissingRow(v, o, SupplyNotFound)
    else
      var first :=
        if amount > v.Collaterals() then Refuse(InsufficientCollaterals)
        else if SupplyWorth(Supply(amount, 0), v.sm) > v.liquidity then Refuse(InsufficientBorrowBalance)
        else Accept(NoExtra);
      Perform(o, Nop, Nop, Recorded(v, first),
              PutSupplyAt(o, Key(o.sender, m), Trunc16(v.Collaterals() - amount)),
              Pay(o, UnpledgeTransfer, CToken(m), amount),
              PutMarketAt(o, m, v.sm),
              Nop, Nop, Nop)
  }

  /** Lend to an account that has the liquidity for it. */
  function BorrowPlan(o: Output, m: nat, v: View, amount: real): Batch
  {
    if v.bm.version >= o.id then IDLE
    else if v.bm.closed then Refused(o, MarketClosed)
    else
      var k := Key(o.sender, m);
      var allowed := BorrowAllowed(v.bm, amount) && Mul(amount, v.bm.price) <= v.liquidity;
      Perform(o, Nop, CreateBorrow(k), Recorded(v, if allowed then Accept(NoExtra) else Refuse(BorrowDenied)),
              PutBorrowAt(o, k, v.Debt() + amount, v.bm.borrowIndex),
              Pay(o, BorrowTransfer, Underlying(m), amount),
              PutMarketAt(o, m, Accrue(Lent(v.bm, amount), o.block)),
              Nop, Nop, Nop)
  }

  /** Take a repayment up to the debt and give the rest back. */
  function RepayPlan(o: Output, m: nat, v: View): Batch
  {
    if v.bm.version >= o.id then IDLE
    else if v.borrow.None? then MissingRow(v, o, BorrowNotFound)
    else
      var verdict := Recorded(v, Accept(Repaid(Min(o.amount, v.Debt()))));
      var repay := RepayOf(ExtraOf(verdict));
      var refund := Trunc8(o.amount - repay);
      Perform(o, Nop, Nop, verdict,
              if refund > 0.0 then Pay(o, RepayRefund, Underlying(m), refund) else Nop,
              PutBorrowAt(o, Key(o.sender, m), v.Debt() - repay, v.bm.borrowIndex),
              PutMarketAt(o, m, Accrue(Returned(v.bm, repay), o.block)),
              Nop, Nop, Nop)
  }

  /** Supply and pledge in one output. */
  function QuickPledgePlan(o: Output, m: nat, v: View): Batch
  {
    if v.sm.version >= o.id then IDLE
    else if v.sm.closed then Refused(o, MarketClosed)
    else if v.sm.p.collateralFactor <= 0.0 then Refused(o, PledgeDisallowed)
    else
      var k := Key(o.sender, m);
      var ctokens := Trunc8(Div(o.amount, CurExchangeRate(v.sm)));
      var verdict :=
        if ctokens <= 0.0 then Refuse(AmountTooSmall)
        else Recorded(v, if PledgeFits(v.sm, v.pledged, ctokens) then Accept(NoExtra) else Refuse(MaxPledgeExceeded));
      Perform(o, CreateSupply(k), Nop, verdict,
              PutSupplyAt(o, k, Trunc16(v.Collaterals() + ctokens)),
              PutMarketAt(o, m, Minted(v.sm, ctokens, o.amount)),
              Nop, Nop, Nop, Nop)
  }

  /** Unpledge and redeem in one output. Unlike the other handlers this one never compares the
      market version first, and it refunds a lack of liquidity by the older path. */
  function QuickRedeemPlan(o: Output, m: nat, v: View, tokens: real): Batch
  {
    if v.sm.closed then Refused(o, MarketClosed)
    else if v.supply.None? then MissingRow(v, o, SupplyNotFound)
    else
      var rate := CurExchangeRate(v.sm);
      var amount := Trunc8(Mul(tokens, rate));
      var first :=
        if !(tokens <= v.sm.ctokens && RedeemAllowed(v.sm, tokens)) then Refuse(RedeemDisallowed)
        else if tokens > v.Collaterals() then Refuse(InsufficientCollaterals)
        else if Mul(Mul(Mul(tokens, rate), v.sm.p.collateralFactor), v.sm.price) > v.liquidity then RefuseV0
        else Accept(NoExtra);
      Perform(o, Nop, Nop, Recorded(v, first),
              PutSupplyAt(o, Key(o.sender, m), Trunc16(v.Collaterals() - tokens)),
              Pay(o, QuickRedeemTransfer, Underlying(m), amount),
              PutMarketAt(o, m, Burned(v.sm, tokens, amount)),
              Nop, Nop, Nop)
  }

  /** The liquidity an incoming deposit is credited with before it is pledged. */
  function Credit(o: Output, sm: Market): real
  {
    if o.asset.CToken? then SupplyWorth(Supply(o.amount, 0), sm)
    else Mul(Mul(o.amount, sm.p.collateralFactor), sm.price)
  }

  function QuickBorrowVerdict(o: Output, v: View, amount: real): Verdict
  {
    var ctokens := if o.asset.CToken? then o.amount else Trunc8(Div(o.amount, CurExchangeRate(v.sm)));
    if !(BorrowAllowed(v.bm, amount) && Mul(amount, v.bm.price) <= v.liquidity + Credit(o, v.sm))
      then Refuse(BorrowDenied)
    else if ctokens <= 0.0 then Refuse(AmountTooSmall)
    else if !PledgeFits(v.sm, v.pledged, ctokens) then Refuse(MaxPledgeExceeded)
    else Accept(Pledging(ctokens))
  }

  /** Supply (unless cTokens were sent), pledge and borrow in one output, over two markets. */
  function QuickBorrowPlan(o: Output, s: nat, b: nat, v: View, amount: real): Batch
  {
    if v.bm.version >= o.id then IDLE
    else if s == b then Refused(o, SameAsset)
    else if v.sm.closed || v.bm.closed then Refused(o, MarketClosed)
    else if v.sm.p.collateralFactor <= 0.0 then Refused(o, PledgeDisallowed)
    else
      var sk, bk := Key(o.sender, s), Key(o.sender, b);
      var verdict := Recorded(v, QuickBorrowVerdict(o, v, amount));
      var ctokens := CTokensOf(ExtraOf(verdict));
      Perform(o, CreateSupply(sk), CreateBorrow(bk), verdict,
              PutSupplyAt(o, sk, v.Collaterals() + ctokens),
              PutBorrowAt(o, bk, Trunc16(v.Debt() + amount), v.bm.borrowIndex),
              Pay(o, QuickBorrowTransfer, Underlying(b), amount),
              PutMarketAt(o, s, Accrue(if o.asset.CToken? then v.sm else Minted(v.sm, ctokens, o.amount), o.block)),
              PutMarketAt(o, b, Accrue(Lent(v.bm, amount), o.block)),
              Nop)
  }

  function LiquidateVerdict(o: Output, v: View): Verdict
  {
    if v.closed then Refuse(MarketClosed)
    else if v.liquidity >= 0.0 then Refuse(SeizeDenied)
    else
      var t := SeizeTerms(o.amount, v.Collaterals(), v.Debt(), v.sm, v.bm);
      Accept(Seized(t.ctokens, t.repay))
  }

  /** Repay part of an underwater account's debt against its discounted collateral. When the
      seized and the repaid market are the same row, the second update carries the version read
      at the start, fails its optimistic lock, and the next attempt finds the market already at
      this output: the repaid amounts never reach the market. */
  function LiquidatePlan(o: Output, user: nat, s: nat, b: nat, v: View): Batch
  {
    if v.bm.version >= o.id then IDLE
    else if v.supply.None? then MissingRow(v, o, SupplyNotFound)
    else if v.borrow.None? then MissingRow(v, o, BorrowNotFound)
    else
      var verdict := Recorded(v, LiquidateVerdict(o, v));
      var ctokens, repay := CTokensOf(ExtraOf(verdict)), RepayOf(ExtraOf(verdict));
      Perform(o, Nop, Nop, verdict,
              PutSupplyAt(o, Key(user, s), Trunc16(v.Collaterals() - ctokens)),
              PutBorrowAt(o, Key(user, b), Trunc16(v.Debt() - repay), v.bm.borrowIndex),
              Pay(o, LiquidateTransfer, CToken(s), ctokens),
              if o.amount - repay > 0.0 then Pay(o, LiquidateRefund, Underlying(b), o.amount - repay) else Nop,
              PutMarketAt(o, s, Accrue(v.sm, o.block)),
              if s == b then Nop else PutMarketAt(o, b, Accrue(Returned(v.bm, repay), o.block)))
  }

  /** A verified oracle price that is not older than the stored one. */
  function PricePlan(o: Output, m: nat, row: Market, price: real, time: int): Batch
  {
    if row.version >= o.id || row.priceUpdatedAt > time then IDLE
    else IDLE.(d := PutMarketAt(o, m, Accrue(AfterFind(row).(price := price, priceUpdatedAt := time), o.block)))
  }

  /** A passed reserve withdrawal: no transaction row, and the transfer is keyed by the proposal. */
  function WithdrawPlan(o: Output, proposal: nat, m: nat, row: Market, amount: real, opponent: nat): Batch
  {
    if amount > row.reserves then IDLE
    else
      IDLE.(d := PutTransfer(Withdrawal(proposal), Transfer(Underlying(m), amount, opponent)),
            e := PutMarketAt(o, m, Accrue(Withdrawn(AfterFind(row), amount), o.block)))
  }

  /** The writes an output calls for in a given database. */
  ghost function Slots(db: Db, o: Output): Batch
  {
    var me, own := o.sender, o.asset;
    match o.action
    case DoSupply =>
      if IsMarket(db, own) then SupplyPlan(o, own.market, Look(db, o, me, own.market, own.market)) else IDLE
    case DoRedeem =>
      if IsCToken(db, own) then RedeemPlan(o, own.market, Look(db, o, me, own.market, own.market)) else IDLE
    case DoPledge =>
      if IsCToken(db, own) then PledgePlan(o, own.market, Look(db, o, me, own.market, own.market)) else IDLE
    case DoUnpledge(a, memo) =>
      if IsCToken(db, a) then UnpledgePlan(o, a.market, Look(db, o, me, a.market, a.market), Trunc8(memo)) else IDLE
    case DoBorrow(a, memo) =>
      if IsMarket(db, a) then BorrowPlan(o, a.market, Look(db, o, me, a.market, a.market), Trunc8(memo)) else IDLE
    case DoRepay =>
      if IsMarket(db, own) then RepayPlan(o, own.market, Look(db, o, me, own.market, own.market)) else IDLE
    case DoQuickPledge =>
      if IsMarket(db, own) then QuickPledgePlan(o, own.market, Look(db, o, me, own.market, own.market)) else IDLE
    case DoQuickBorrow(a, memo) =>
      if IsMarket(db, a) && (IsMarket(db, own) || IsCToken(db, own))
      then QuickBorrowPlan(o, own.market, a.market, Look(db, o, me, own.market, a.market), Trunc8(memo)) else IDLE
    case DoQuickRedeem(a, memo) =>
      if IsCToken(db, a) then QuickRedeemPlan(o, a.market, Look(db, o, me, a.market, a.market), Trunc8(memo)) else IDLE
    case DoLiquidate(user, a) =>
      if IsCToken(db, a) && IsMarket(db, own)
      then LiquidatePlan(o, user, a.market, own.market, Look(db, o, user, a.market, own.market)) else IDLE
    case DoPrice(a, price, time) =>
      if IsMarket(db, a) then PricePlan(o, a.market, db.markets[a.market], price, time) else IDLE
    case DoWithdraw(proposal, a, memo, opponent) =>
      if IsMarket(db, a) then WithdrawPlan(o, proposal, a.market, db.markets[a.market], Trunc8(memo), opponent)
      else IDLE
    case Unreadable => IDLE
    case Unknown => IDLE.(c := Settle(o, RefuseV0))
  }

  /** One output handled without interruption. */
  ghost function Step(db: Db, o: Output): Db { RunAll(db, Slots(db, o)) }
}
