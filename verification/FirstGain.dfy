/** A run from an empty market at whose end a first depositor gains: one large deposit and its
    redemption leave a few units of the 8-digit grid behind, and the next deposit takes them. */
module FirstGain {
  import opened Decimal
  import opened Core
  import opened Rates
  import opened Handlers
  import opened Books
  import opened Crash
  import opened Refunds
  import opened Ledger
  import opened Flows
  import opened Conservation
  import opened RoundTrip

  // ---- A round trip in an idle market --------------------------------------------------------------------

  /** A market with some cash and nothing else, that starts at the exchange rate i. */
  predicate Idle(m: Market, n: real, i: real)
  {
    && MarketOk(m) && m.cash == n && m.borrows == 0.0 && m.reserves == 0.0 && m.ctokens == 0.0 && !m.closed
    && m.p.initExchangeRate == i && Grid16(i)
  }

  /** A deposit of a mints c, at a rate r afterwards, and the redemption of c pays p. */
  predicate Quote(n: real, i: real, a: real, c: real, r: real, p: real)
  {
    && c == Trunc8(Div(a, i)) && c > 0.0 && r == Div(n + a, c) && r > 0.0 && Mul(c, r) < n + a && p == Trunc8(Mul(r, c))
  }

  lemma IdleIsLive(m: Market, block: int, n: real, i: real)
    requires Idle(m, n, i) && block <= m.blockNumber
    ensures var live := Accrue(AfterFind(m), block);
      Idle(live, n, i) && live.exchangeRate == i && live == m.(exchangeRate := i) && CurExchangeRate(live) == i
  {
    AccrueAgain(AfterFind(m), block);
    LiveOk(m, block);
    Trunc16Bounds(i);
  }

  lemma SupplyAccepted(db: Db, o: Output, m: nat)
    requires Fresh(db, o) && m in db.markets && o.asset == Underlying(m) && o.action == DoSupply
    requires !Live(db, m, o.block).closed && Trunc8(Div(o.amount, CurExchangeRate(Live(db, m, o.block)))) > 0.0
    ensures Slots(db, o).c.CreateTx?
  {
  }

  lemma RedeemAccepted(db: Db, o: Output, m: nat)
    requires Fresh(db, o) && m in db.markets && o.asset == CToken(m) && o.action == DoRedeem
    requires var live := Live(db, m, o.block); !live.closed && o.amount <= live.ctokens && RedeemAllowed(live, o.amount)
    ensures Slots(db, o).c.CreateTx?
  {
  }

  /** The two outputs of a round trip. */
  predicate Trip(supply: Output, redeem: Output, m: nat, a: real, c: real)
  {
    && supply.asset == Underlying(m) && supply.action == DoSupply && supply.amount == a && a > 0.0 && Grid8(a)
    && redeem.asset == CToken(m) && redeem.action == DoRedeem && redeem.amount == c && Grid8(c)
    && redeem.block == supply.block
  }

  /** The market between the two outputs. */
  lemma TripHalfway(db: Db, s: Output, r: Output, m: nat, n: real, i: real, a: real, c: real, rate: real, p: real)
    requires Inv(db) && Fresh(db, s) && m in db.markets && Idle(db.markets[m], n, i)
    requires s.block <= db.markets[m].blockNumber
    requires Trip(s, r, m, a, c) && Quote(n, i, a, c, rate, p)
    ensures Legal(db, s) && Slots(db, s).c.CreateTx? && m in Step(db, s).markets
    ensures var live := Live(Step(db, s), m, r.block);
      && live.exchangeRate == rate && live.ctokens == c && live.cash == n + a && live.borrows == 0.0
      && live.reserves == 0.0
      && !live.closed && live.p.initExchangeRate == i && MarketOk(live) && live.blockNumber == db.markets[m].blockNumber
  {
    var old' := Live(db, m, s.block);
    IdleIsLive(db.markets[m], s.block, n, i);
    SupplyAccepted(db, s, m);
    AfterSupply(db, s, m);
    Grid8Is16(a);
    Grid8Is16(c);
    var row := Step(db, s).markets[m];
    RateAfterMint(old', row, a, c, s.block);
    MintedOk(old', c, a);
    AccrueAgain(AfterFind(row), r.block);
    LiveOk(row, r.block);
  }

  lemma RedeemLeaves(db: Db, o: Output, m: nat, v: View)
    requires m in db.markets && RedeemPlan(o, m, v).c.CreateTx?
    ensures RowAfter(db, RedeemPlan(o, m, v), m)
         == Burned(v.sm, o.amount, Trunc8(Mul(CurExchangeRate(v.sm), o.amount))).(version := o.id)
  {
  }

  lemma TripEnds(mid: Db, r: Output, m: nat, n: real, i: real, a: real, c: real, rate: real, p: real)
    requires Fresh(mid, r) && m in mid.markets && r.asset == CToken(m) && r.action == DoRedeem && r.amount == c
    requires Grid8(c)
    requires Quote(n, i, a, c, rate, p) && Grid16(i) && Grid16(n + a)
    requires var live := Live(mid, m, r.block);
      && live.exchangeRate == rate && live.ctokens == c && live.cash == n + a && live.borrows == 0.0
      && live.reserves == 0.0
      && !live.closed && live.p.initExchangeRate == i && MarketOk(live)
    ensures Slots(mid, r).c.CreateTx? && m in Step(mid, r).markets && Idle(Step(mid, r).markets[m], n + a - p, i)
    ensures Step(mid, r).markets[m].blockNumber == Live(mid, m, r.block).blockNumber
    ensures var id := Out(r.trace, RedeemTransfer);
      id in Step(mid, r).transfers && Step(mid, r).transfers[id].amount == p
  {
    var live := Live(mid, m, r.block);
    RedeemAccepted(mid, r, m);
    AfterRedeem(mid, r, m);
    SlotsOwned(mid, r);
    RunMarket(mid, r, Slots(mid, r), m);
    RedeemLeaves(mid, r, m, Look(mid, r, r.sender, m, m));
    Grid8Is16(c);
    assert Mul(rate, c) == Mul(c, rate);
    MulNonNegative(c, rate);
    Trunc8Bounds(Mul(rate, c));
    BurnedOk(live, c, p);
  }

  lemma StepKeepsInv(db: Db, o: Output)
    requires Inv(db) && Fresh(db, o) && Legal(db, o)
    ensures Inv(Step(db, o))
  {
    SlotsGood(db, o);
    SlotsPlaced(db, o);
    RunKeepsInv(db, Slots(db, o), 9);
  }

  /** What an accepted round trip leaves of the ledger: the market idle again, with what was not
      paid back. */
  ghost predicate TripDone(db: Db, supply: Output, redeem: Output, m: nat, n: real, i: real, p: real, e: Db)
  {
    && Legal(db, supply) && Legal(Step(db, supply), redeem) && e == Step(Step(db, supply), redeem)
    && Slots(db, supply).c.CreateTx? && Slots(Step(db, supply), redeem).c.CreateTx?
    && Inv(e) && m in e.markets && Idle(e.markets[m], n, i) && supply.block <= e.markets[m].blockNumber
    && Out(redeem.trace, RedeemTransfer) in e.transfers && e.transfers[Out(redeem.trace, RedeemTransfer)].amount == p
  }

  lemma IdleTrip(db: Db, s: Output, r: Output, m: nat, n: real, i: real, a: real, c: real, rate: real, p: real)
    requires Inv(db) && Fresh(db, s) && Fresh(Step(db, s), r) && m in db.markets && Idle(db.markets[m], n, i)
    requires s.block <= db.markets[m].blockNumber && Trip(s, r, m, a, c) && Quote(n, i, a, c, rate, p)
    ensures TripDone(db, s, r, m, n + a - p, i, p, Step(Step(db, s), r))
  {
    TripHalfway(db, s, r, m, n, i, a, c, rate, p);
    StepKeepsInv(db, s);
    Grid8Is16(a);
    Grid16Add(n, a);
    TripEnds(Step(db, s), r, m, n, i, a, c, rate, p);
    StepKeepsInv(Step(db, s), r);
  }

  // ---- The run ------------------------------------------------------------------------------------------------

  /** The first deposit: ten thousand million at a rate of six. The cTokens are truncated, the rate
      rounds back to six, and four units of the 8-digit grid stay behind. */
  lemma LargeQuote(i: real, a: real, c: real, p: real)
    requires i * 100000000.0 == 600000000.0 && a * 100000000.0 == 1000000000000000000.0
    requires c * 100000000.0 == 166666666666666666.0 && p * 100000000.0 == 999999999999999996.0
    ensures Grid8(a) && Grid8(c) && Grid16(i) && Quote(0.0, i, a, c, i, p)
  {
    FromUnits8(a, 1000000000000000000);
    FromUnits8(c, 166666666666666666);
    FromUnits8(p, 999999999999999996);
    FromUnits16(i, 60000000000000000);
    LargeMint(i, a, c);
    Round16To(a / c, 60000000000000000);
    Trunc8To(Mul(i, c), 999999999999999996);
  }

  lemma LargeMint(i: real, a: real, c: real)
    requires i * 100000000.0 == 600000000.0 && a * 100000000.0 == 1000000000000000000.0
    requires c * 100000000.0 == 166666666666666666.0
    ensures Trunc8(Div(a, i)) == c
  {
    Round16To(a / i, 16666666666666666666666667);
    Trunc8To(Div(a, i), 166666666666666666);
  }

  /** The next deposit: one, which takes three of the four units. */
  lemma SmallQuote(n: real, i: real, a: real, c: real, r: real, p: real)
    requires n * 100000000.0 == 4.0 && i * 100000000.0 == 600000000.0 && a * 100000000.0 == 100000000.0
    requires c * 100000000.0 == 16666666.0 && r * 10000000000000000.0 == 60000004800000192.0
    requires p * 100000000.0 == 100000003.0
    ensures Grid8(a) && Grid8(c) && Quote(n, i, a, c, r, p)
  {
    FromUnits8(a, 100000000);
    FromUnits8(c, 16666666);
    SmallMint(i, a, c);
    Round16To((n + a) / c, 60000004800000192);
    Trunc8To(Mul(r, c), 100000003);
  }

  lemma SmallMint(i: real, a: real, c: real)
    requires i * 100000000.0 == 600000000.0 && a * 100000000.0 == 100000000.0 && c * 100000000.0 == 16666666.0
    ensures Trunc8(Div(a, i)) == c
  {
    Round16To(a / i, 1666666666666667);
    Trunc8To(Div(a, i), 16666666);
  }

  /** A new market: no cash, no cTokens, an initial rate and a price. */
  function NewMarket(i: real): Market
  {
    Market(0.0, 0.0, 0.0, 0.0, 1.0, i, 1.0, 0, 0, 0, false,
           Params(i, 0.0, 0.0, 0.0, 0.0, 0.0, 0.0, 0.0, 0.0, 0.0, 0.0))
  }

  function NewLedger(i: real): Db { Db(map[0 := NewMarket(i)], map[], map[], map[], map[], 4) }

  /** The n-th pair of outputs: a deposit of a and the redemption of c. */
  function Deposit(n: nat, a: real): Output { Output(2 * n + 1, 2 * n, 1, Underlying(0), a, 0, DoSupply) }

  function Redemption(n: nat, c: real): Output { Output(2 * n + 2, 2 * n + 1, 1, CToken(0), c, 0, DoRedeem) }

  lemma NewMarketIdle(i: real)
    requires i > 0.0 && Grid16(i)
    ensures Idle(NewMarket(i), 0.0, i) && Inv(NewLedger(i))
  {
    FromUnits16(0.0, 0);
    FromUnits16(1.0, 10000000000000000);
    MulNonNegative(0.0, 0.0);
  }

  lemma TwoTripsQueued(i: real, a: real, c: real, b: real, d: real)
    ensures Queued(NewLedger(i), [Deposit(0, a), Redemption(0, c), Deposit(1, b), Redemption(1, d)])
  {
  }

  /** Freshness along the queue. */
  lemma QueueAdvances(db: Db, queue: seq<Output>)
    requires Queued(db, queue) && |queue| >= 2
    ensures Fresh(db, queue[0]) && Fresh(Step(db, queue[0]), queue[1])
    ensures Queued(Step(Step(db, queue[0]), queue[1]), queue[2..])
  {
    StepKeepsQueue(db, queue);
    assert queue[1..][0] == queue[1] && queue[1..][1..] == queue[2..];
    StepKeepsQueue(Step(db, queue[0]), queue[1..]);
  }

  lemma LegalInTurn(db: Db, w: Output, x: Output, y: Output, z: Output)
    requires Legal(db, w) && Legal(Step(db, w), x)
    requires var mid := Step(Step(db, w), x); Legal(mid, y) && Legal(Step(mid, y), z)
    ensures LegalRun(db, [w, x, y, z]) && LegalRun(Step(Step(db, w), x), [y, z])
  {
    var mid := Step(Step(db, w), x);
    assert [z][1..] == [] && [y, z][1..] == [z] && [x, y, z][1..] == [y, z] && [w, x, y, z][1..] == [x, y, z];
    assert LegalRun(Step(mid, y), [z]);
    assert LegalRun(mid, [y, z]);
    assert LegalRun(Step(db, w), [x, y, z]);
  }

  /** The second trip is a round trip in the sense of the theorems. */
  lemma SecondTrip(mid: Db, y: Output, z: Output, n: real, i: real, a: real, c: real, rate: real, p: real, left: real)
    requires Inv(mid) && Queued(mid, [y, z]) && LegalRun(mid, [y, z]) && 0 in mid.markets && Idle(mid.markets[0], n, i)
    requires y.block <= mid.markets[0].blockNumber && Trip(y, z, 0, a, c) && Quote(n, i, a, c, rate, p)
    requires TripDone(mid, y, z, 0, left, i, p, Step(Step(mid, y), z))
    ensures RoundTripped(mid, y, z, 0) && PaidBack(mid, y, z) == p
  {
    IdleIsLive(mid.markets[0], y.block, n, i);
    RunOfTwo(mid, y, z);
  }

  /** The surplus is reachable: from a ledger with one new market there is a legal run of two round
      trips, all four outputs accepted, whose second one pays more than it took in. */
  lemma GainIsReachable() returns (db: Db, w: Output, x: Output, y: Output, z: Output)
    ensures GoodRun(db, [w, x, y, z]) && db.markets.Keys == {0} && db.supplies == map[] && db.borrows == map[]
    ensures var row := db.markets[0]; row.cash == 0.0 && row.borrows == 0.0 && row.reserves == 0.0 && row.ctokens == 0.0
    ensures var mid := Run(db, [w, x]); RoundTripped(mid, y, z, 0) && PaidBack(mid, y, z) > y.amount
  {
    var i, a, c, p, n, b, d, r, q := Numbers();
    LargeQuote(i, a, c, p);
    SmallQuote(n, i, b, d, r, q);
    db, w, x, y, z := NewLedger(i), Deposit(0, a), Redemption(0, c), Deposit(1, b), Redemption(1, d);
    TwoNewTrips(i, a, c, p, n, b, d, r, q);
  }

  lemma TwoNewTrips(i: real, a: real, c: real, p: real, n: real, b: real, d: real, r: real, q: real)
    requires i > 0.0 && Grid16(i) && a > 0.0 && Grid8(a) && Grid8(c) && Quote(0.0, i, a, c, i, p)
    requires b > 0.0 && Grid8(b) && Grid8(d) && Quote(n, i, b, d, r, q) && n == a - p && q > b
    ensures var db, w, x, y, z := NewLedger(i), Deposit(0, a), Redemption(0, c), Deposit(1, b), Redemption(1, d);
      var mid := Run(db, [w, x]);
      GoodRun(db, [w, x, y, z]) && RoundTripped(mid, y, z, 0) && PaidBack(mid, y, z) > y.amount
  {
    NewMarketIdle(i);
    TwoTripsQueued(i, a, c, b, d);
    TwoTrips(NewLedger(i), Deposit(0, a), Redemption(0, c), Deposit(1, b), Redemption(1, d), i, a, c, p, n, b, d, r, q);
  }

  lemma Numbers() returns (i: real, a: real, c: real, p: real, n: real, b: real, d: real, r: real, q: real)
    ensures i * 100000000.0 == 600000000.0 && a * 100000000.0 == 1000000000000000000.0
    ensures c * 100000000.0 == 166666666666666666.0 && p * 100000000.0 == 999999999999999996.0
    ensures n * 100000000.0 == 4.0 && b * 100000000.0 == 100000000.0 && d * 100000000.0 == 16666666.0
    ensures r * 10000000000000000.0 == 60000004800000192.0 && q * 100000000.0 == 100000003.0
  {
    i, a, c, p := 6.0, 10000000000.0, 1666666666.66666666, 9999999999.99999996;
    n, b, d, r, q := 0.00000004, 1.0, 0.16666666, 6.0000004800000192, 1.00000003;
  }

  lemma TwoTrips(db: Db, w: Output, x: Output, y: Output, z: Output, i: real, a: real, c: real, p: real,
                 n: real, b: real, d: real, r: real, q: real)
    requires Inv(db) && Queued(db, [w, x, y, z]) && 0 in db.markets && Idle(db.markets[0], 0.0, i)
    requires db.markets[0].blockNumber == 0
    requires Trip(w, x, 0, a, c) && Quote(0.0, i, a, c, i, p) && w.block == 0
    requires Trip(y, z, 0, b, d) && Quote(n, i, b, d, r, q) && y.block == 0 && n == a - p && q > b
    ensures GoodRun(db, [w, x, y, z])
    ensures var mid := Run(db, [w, x]); RoundTripped(mid, y, z, 0) && PaidBack(mid, y, z) > y.amount
  {
    var mid := FirstTrip(db, w, x, y, z, i, a, c, p, n);
    QueueAdvances(mid, [y, z]);
    IdleTrip(mid, y, z, 0, n, i, b, d, r, q);
    LegalInTurn(db, w, x, y, z);
    SecondTrip(mid, y, z, n, i, b, d, r, q, n + b - q);
  }

  lemma FirstTrip(db: Db, w: Output, x: Output, y: Output, z: Output, i: real, a: real, c: real, p: real,
                  n: real) returns (mid: Db)
    requires Inv(db) && Queued(db, [w, x, y, z]) && 0 in db.markets && Idle(db.markets[0], 0.0, i)
    requires db.markets[0].blockNumber == 0
    requires Trip(w, x, 0, a, c) && Quote(0.0, i, a, c, i, p) && w.block == 0 && n == a - p
    ensures mid == Step(Step(db, w), x) == Run(db, [w, x]) && TripDone(db, w, x, 0, n, i, p, mid) && Queued(mid, [y, z])
  {
    var queue := [w, x, y, z];
    mid := Step(Step(db, w), x);
    QueueAdvances(db, queue);
    assert queue[2..] == [y, z] && 0.0 + a - p == n;
    IdleTrip(db, w, x, 0, 0.0, i, a, c, i, p);
    RunOfTwo(db, w, x);
  }
}
