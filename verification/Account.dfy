/** Account liquidity (service/account/account_service.go) and the sums over supply rows. */
module Account {
  import opened Decimal
  import opened Totals
  import opened Core
  import opened Rates

  /** The market a valuation uses: the caller's in-memory copy, or the stored row as read. */
  function MarketAt(db: Db, live: map<nat, Market>, m: nat): Market
    requires m in db.markets
  {
    if m in live then live[m] else AfterFind(db.markets[m])
  }

  function SupplyWorth(s: Supply, m: Market): real
  {
    Mul(Mul(Mul(s.collaterals, m.exchangeRate), m.p.collateralFactor), m.price)
  }

  function DebtWorth(b: Borrow, m: Market): real { Mul(BorrowBalance(b, m), m.price) }

  function SupplyWorths(db: Db, live: map<nat, Market>, user: nat): map<Key, real>
  {
    map k | k in db.supplies && k.user == user && k.market in db.markets
      :: SupplyWorth(db.supplies[k], MarketAt(db, live, k.market))
  }

  function DebtWorths(db: Db, live: map<nat, Market>, user: nat): map<Key, real>
  {
    map k | k in db.borrows && k.user == user && k.market in db.markets
      :: DebtWorth(db.borrows[k], MarketAt(db, live, k.market))
  }

  /** Collateral value less debt value, over all rows of the user. */
  ghost function Liquidity(db: Db, live: map<nat, Market>, user: nat): real
  {
    Total(SupplyWorths(db, live, user)) - Total(DebtWorths(db, live, user))
  }

  function Pledges(db: Db, m: nat): map<Key, real>
  {
    map k | k in db.supplies && k.market == m :: db.supplies[k].collaterals
  }

  /** All collateral pledged in one market. */
  ghost function Pledged(db: Db, m: nat): real { Total(Pledges(db, m)) }

  /** Adds up a table row by row. */
  method SumRows(rows: map<Key, real>) returns (sum: real)
    ensures sum == Total(rows)
  {
    sum := 0.0;
    var rest := rows;
    while rest != map[]
      invariant sum + Total(rest) == Total(rows)
      decreases |rest|
    {
      var k :| k in rest;
      TotalRemove(rest, k);
      assert rest.Keys - {k} < rest.Keys;
      assert (rest - {k}).Keys == rest.Keys - {k};
      sum := sum + rest[k];
      rest := rest - {k};
    }
  }

  /** Every row of the user belongs to a market. */
  predicate MarketsKnown(db: Db, user: nat)
  {
    && (forall k :: k in db.supplies && k.user == user ==> k.market in db.markets)
    && (forall k :: k in db.borrows && k.user == user ==> k.market in db.markets)
  }

  /** Adds up collateral and debt; it fails if a row's market is missing. */
  method CalculateAccountLiquidity(db: Db, live: map<nat, Market>, user: nat) returns (known: bool, liquidity: real)
    ensures known <==> MarketsKnown(db, user)
    ensures liquidity == Liquidity(db, live, user)
  {
    known := MarketsKnown(db, user);
    var supplyValue := SumRows(SupplyWorths(db, live, user));
    var borrowValue := SumRows(DebtWorths(db, live, user));
    liquidity := supplyValue - borrowValue;
  }

  /** Whether the user holds a row in a closed market. */
  predicate HasClosedMarkets(db: Db, user: nat)
  {
    || (exists k :: k in db.borrows && k.user == user && k.market in db.markets && db.markets[k.market].closed)
    || (exists k :: k in db.supplies && k.user == user && k.market in db.markets && db.markets[k.market].closed)
  }

  lemma EmptySupplyWorthless(m: Market)
    ensures SupplyWorth(EMPTY_SUPPLY, m) == 0.0
  {
    assert Mul(0.0, m.exchangeRate) == 0.0;
    assert Mul(0.0, m.p.collateralFactor) == 0.0;
    assert Mul(0.0, m.price) == 0.0;
  }

  lemma EmptyBorrowWorthless(m: Market)
    ensures BorrowBalance(EMPTY_BORROW, m) == 0.0 && DebtWorth(EMPTY_BORROW, m) == 0.0
  {
    var index := if m.borrowIndex > 0.0 then m.borrowIndex else 1.0;
    assert Mul(0.0, index) == 0.0;
    Grid16Zero();
    Round16Bounds(0.0);
    assert Div(0.0, 1.0) == 0.0;
    assert Mul(0.0, m.price) == 0.0;
  }

  /** Valuations read only the tables they mention. */
  lemma SupplyWorthsFrame(db: Db, db': Db, live: map<nat, Market>, user: nat)
    requires db.supplies == db'.supplies && db.markets == db'.markets
    ensures SupplyWorths(db', live, user) == SupplyWorths(db, live, user)
  {
  }

  lemma DebtWorthsFrame(db: Db, db': Db, live: map<nat, Market>, user: nat)
    requires db.borrows == db'.borrows && db.markets == db'.markets
    ensures DebtWorths(db', live, user) == DebtWorths(db, live, user)
  {
  }

  lemma SupplyWorthsPut(db: Db, live: map<nat, Market>, user: nat, k: Key, s: Supply)
    ensures SupplyWorths(db.(supplies := db.supplies[k := s]), live, user)
         == if k.user == user && k.market in db.markets
            then SupplyWorths(db, live, user)[k := SupplyWorth(s, MarketAt(db, live, k.market))]
            else SupplyWorths(db, live, user)
  {
  }

  lemma DebtWorthsPut(db: Db, live: map<nat, Market>, user: nat, k: Key, b: Borrow)
    ensures DebtWorths(db.(borrows := db.borrows[k := b]), live, user)
         == if k.user == user && k.market in db.markets
            then DebtWorths(db, live, user)[k := DebtWorth(b, MarketAt(db, live, k.market))]
            else DebtWorths(db, live, user)
  {
  }

  /** Writing one supply row moves the user's liquidity by the difference in worth. */
  lemma PutSupplyRow(db: Db, live: map<nat, Market>, k: Key, s: Supply)
    requires k.market in db.markets
    ensures Total(SupplyWorths(db.(supplies := db.supplies[k := s]), live, k.user))
         == Total(SupplyWorths(db, live, k.user)) + SupplyWorth(s, MarketAt(db, live, k.market))
            - (if k in db.supplies then SupplyWorth(db.supplies[k], MarketAt(db, live, k.market)) else 0.0)
  {
    SupplyWorthsPut(db, live, k.user, k, s);
    TotalPut(SupplyWorths(db, live, k.user), k, SupplyWorth(s, MarketAt(db, live, k.market)));
  }

  lemma PutBorrowRow(db: Db, live: map<nat, Market>, k: Key, b: Borrow)
    requires k.market in db.markets
    ensures Total(DebtWorths(db.(borrows := db.borrows[k := b]), live, k.user))
         == Total(DebtWorths(db, live, k.user)) + DebtWorth(b, MarketAt(db, live, k.market))
            - (if k in db.borrows then DebtWorth(db.borrows[k], MarketAt(db, live, k.market)) else 0.0)
  {
    DebtWorthsPut(db, live, k.user, k, b);
    TotalPut(DebtWorths(db, live, k.user), k, DebtWorth(b, MarketAt(db, live, k.market)));
  }

  /** The pledged sum follows the rows of its own market. */
  lemma PutPledge(db: Db, k: Key, s: Supply, m: nat)
    ensures Pledged(db.(supplies := db.supplies[k := s]), m)
         == Pledged(db, m)
            + (if k.market != m then 0.0
               else s.collaterals - (if k in db.supplies then db.supplies[k].collaterals else 0.0))
  {
    var db' := db.(supplies := db.supplies[k := s]);
    if k.market == m {
      assert Pledges(db', m) == Pledges(db, m)[k := s.collaterals];
      TotalPut(Pledges(db, m), k, s.collaterals);
    } else {
      assert Pledges(db', m) == Pledges(db, m);
    }
  }

  /** Creating an empty row changes neither liquidity nor the pledged sum. */
  lemma NewSupplyRow(db: Db, live: map<nat, Market>, user: nat, k: Key, m: nat)
    requires k !in db.supplies
    ensures var db' := db.(supplies := db.supplies[k := EMPTY_SUPPLY]);
      Liquidity(db', live, user) == Liquidity(db, live, user) && Pledged(db', m) == Pledged(db, m)
  {
    var db' := db.(supplies := db.supplies[k := EMPTY_SUPPLY]);
    DebtWorthsFrame(db, db', live, user);
    SupplyWorthsPut(db, live, user, k, EMPTY_SUPPLY);
    if k.market in db.markets { EmptySupplyWorthless(MarketAt(db, live, k.market)); }
    TotalPut(SupplyWorths(db, live, user), k, 0.0);
    PutPledge(db, k, EMPTY_SUPPLY, m);
  }

  lemma NewBorrowRow(db: Db, live: map<nat, Market>, user: nat, k: Key)
    requires k !in db.borrows
    ensures var db' := db.(borrows := db.borrows[k := EMPTY_BORROW]);
      Liquidity(db', live, user) == Liquidity(db, live, user)
  {
    var db' := db.(borrows := db.borrows[k := EMPTY_BORROW]);
    SupplyWorthsFrame(db, db', live, user);
    DebtWorthsPut(db, live, user, k, EMPTY_BORROW);
    if k.market in db.markets { EmptyBorrowWorthless(MarketAt(db, live, k.market)); }
    TotalPut(DebtWorths(db, live, user), k, 0.0);
  }
}
