/** What each output leaves behind, table by table: when it is accepted, what it then writes and pays, and
    that a refused output is refunded in full and changes nothing else (worker/payee). */
module Outcomes {
  import opened Decimal
  import opened Core
  import opened Rates
  import opened Interest
  import opened Account
  import opened Handlers
  import opened Books
  import opened Replay
  import opened Refunds
  import opened Ledger
  import opened Flows
  import opened Health

  // ---- A batch, table by table ------------------------------------------------------------------------

  function MarketsAfter(db: Db, s: Batch): map<nat, Market>
  {
    AddMarket(AddMarket(AddMarket(AddMarket(AddMarket(AddMarket(db.markets, s.d), s.e), s.f), s.g), s.h), s.i)
  }

  function TransfersAfter(db: Db, s: Batch): Transfers
  {
    AddTransfer(AddTransfer(AddTransfer(AddTransfer(AddTransfer(db.transfers, s.c), s.d), s.e), s.f), s.g)
  }

  function AddTx(t: map<nat, Extra>, x: Write): map<nat, Extra>
  {
    if x.CreateTx? && x.trace !in t then t[x.trace := x.extra] else t
  }

  lemma ApplyTx(db: Db, x: Write)
    ensures Apply(db, x).txs == AddTx(db.txs, x) && Apply(db, x).sysversion == db.sysversion
  {
  }

  lemma ArrangedTx(s: Batch, n: nat)
    requires Arranged(s) && n < 9 && n != 2
    ensures !s.At(n).CreateTx?
  {
  }

  lemma {:induction false} RunTxs(db: Db, s: Batch, n: nat)
    requires Arranged(s) && n <= 9
    ensures RunTo(db, s, n).sysversion == db.sysversion
    ensures RunTo(db, s, n).txs == if n > 2 then AddTx(db.txs, s.c) else db.txs
  {
    if n > 0 {
      RunTxs(db, s, n - 1);
      ApplyTx(RunTo(db, s, n - 1), s.At(n - 1));
      if n != 3 { ArrangedTx(s, n - 1); }
    }
  }

  lemma BatchLeaves(db: Db, o: Output, s: Batch)
    requires Clean(db, o, s)
    ensures RunAll(db, s) == Db(MarketsAfter(db, s), SuppliesAfter(db, s), BorrowsAfter(db, s), AddTx(db.txs, s.c),
                                TransfersAfter(db, s), db.sysversion)
  {
    RunMarkets(db, s);
    RunSupplies(db, s);
    RunBorrows(db, s);
    RunTransfers(db, s);
    RunTxs(db, s, 9);
  }

  // ---- Refunds ------------------------------------------------------------------------------------------

  /** The output is given back in full, for a reason. */
  function RefundedFor(db: Db, o: Output, reason: Reason): Db
  {
    db.(transfers := db.transfers[Refund(o.trace, reason) := Transfer(o.asset, o.amount, o.sender)])
  }

  /** The account has a row in the supply table, an empty one if it had none; likewise for debts. */
  function WithSupply(db: Db, k: Key): Db
  {
    if k in db.supplies then db else db.(supplies := db.supplies[k := Supply(0.0, 0)])
  }

  function WithBorrow(db: Db, k: Key): Db
  {
    if k in db.borrows then db else db.(borrows := db.borrows[k := Borrow(0.0, 1.0, 0)])
  }

  /** A missing row is refunded since version 5, and passed over before. */
  function Missing(db: Db, o: Output, reason: Reason): Db
  {
    if db.sysversion < 5 then db else RefundedFor(db, o, reason)
  }

  /** The batch of a refused output: at most an empty row and the refund. */
  lemma RefusalLeaves(db: Db, o: Output, s: Batch, reason: Reason)
    requires Clean(db, o, s) && s == Batch(s.a, s.b, Settle(o, Refuse(reason)), Nop, Nop, Nop, Nop, Nop, Nop)
    ensures RunAll(db, s)
         == RefundedFor(db.(supplies := AddSupply(db.supplies, s.a), borrows := AddBorrow(db.borrows, s.b)), o, reason)
  {
    BatchLeaves(db, o, s);
    FreshTransfer(db, o, s.c);
  }

  /** A refund by the older path. */
  function RefundedBefore(db: Db, o: Output): Db
  {
    db.(transfers := db.transfers[RefundV0(o.trace) := Transfer(o.asset, o.amount, o.sender)])
  }

  lemma OldRefusalLeaves(db: Db, o: Output, s: Batch)
    requires Clean(db, o, s) && s == Batch(s.a, s.b, Settle(o, RefuseV0), Nop, Nop, Nop, Nop, Nop, Nop)
    ensures RunAll(db, s)
         == RefundedBefore(db.(supplies := AddSupply(db.supplies, s.a), borrows := AddBorrow(db.borrows, s.b)), o)
  {
    BatchLeaves(db, o, s);
    FreshTransfer(db, o, s.c);
  }

  lemma IdleLeaves(db: Db)
    ensures RunAll(db, IDLE) == db
  {
    var none := Output(0, 0, 0, Foreign(0), 0.0, 0, Unreadable);
    RunTxs(db, IDLE, 9);
    RunMarkets(db, IDLE);
    RunSupplies(db, IDLE);
    RunBorrows(db, IDLE);
    RunTransfers(db, IDLE);
  }

  // ---- Accepted batches -----------------------------------------------------------------------------------

  /** What an accepted output leaves in one market: its row, its record, and one transfer. */
  function Leaves(db: Db, o: Output, extra: Extra, m: nat, row: Market): Db
  {
    db.(txs := db.txs[o.trace := extra], markets := db.markets[m := row.(version := o.id)])
  }

  function Paying(db: Db, o: Output, source: Source, asset: Asset, amount: real): Db
  {
    db.(transfers := db.transfers[Out(o.trace, source) := Transfer(asset, amount, o.sender)])
  }

  /** A market that has taken a repayment: cash up, borrows down but not below zero, and a new quote. */
  function RepaidRow(m: Market, repay: real): Market
  {
    Refresh(m.(cash := m.cash + repay, borrows := if m.borrows < repay then 0.0 else m.borrows - repay))
  }

  /** A market that has made a loan. */
  function LentRow(m: Market, loan: real): Market { m.(cash := m.cash - loan, borrows := m.borrows + loan) }

  /** A market that has taken a deposit for new cTokens, with a new quote. */
  function DepositRow(m: Market, amount: real, tokens: real): Market
  {
    Refresh(m.(cash := m.cash + amount, ctokens := m.ctokens + tokens))
  }

  function Locking(db: Db, o: Output, k: Key, collaterals: real): Db
  {
    db.(supplies := db.supplies[k := Supply(collaterals, o.id)])
  }

  function Owing(db: Db, o: Output, k: Key, principal: real, index: real): Db
  {
    db.(borrows := db.borrows[k := Borrow(principal, index, o.id)])
  }

  // ---- What is read --------------------------------------------------------------------------------------

  /** The rate a market deals at: what it quotes, or its initial rate if it quotes none. */
  function Rate(m: Market): real { if m.exchangeRate > 0.0 then m.exchangeRate else m.p.initExchangeRate }

  /** What the plans of one market take from the view. */
  predicate Reads(db: Db, o: Output, m: nat, v: View, s: Batch)
  {
    && Clean(db, o, s) && ViewOk(v) && m in db.markets && v.sm == v.bm && v.sm.version < o.id
    && v.sysversion == db.sysversion
    && v.supply == Find(db.supplies, Key(o.sender, m)) && v.borrow == Find(db.borrows, Key(o.sender, m))
  }

  /** What a fresh output reads of one market. */
  lemma OneView(db: Db, o: Output, m: nat) returns (v: View)
    requires Inv(db) && Fresh(db, o) && m in db.markets
    ensures v == Look(db, o, o.sender, m, m) && Reads(db, o, m, v, Slots(db, o))
    ensures v.sm == Live(db, m, o.block) && v.pledged == Pledged(db, m)
    ensures v.liquidity == Liquidity(db, map[m := Live(db, m, o.block)], o.sender)
  {
    v := Look(db, o, o.sender, m, m);
    LookOk(db, o, o.sender, m, m);
    SlotsOwned(db, o);
    OneLive(db, o, m, v);
  }

  /** Reading one market twice is reading it once. */
  lemma OneLive(db: Db, o: Output, m: nat, v: View)
    requires m in db.markets && v == Look(db, o, o.sender, m, m)
    ensures v.liquidity == Liquidity(db, map[m := Live(db, m, o.block)], o.sender)
  {
    var live := Live(db, m, o.block);
    assert map[m := live, m := live] == map[m := live];
  }

  /** What an account owes in a market: its rebased row, or nothing. */
  function DebtAt(db: Db, k: Key, m: Market): real { if k in db.borrows then BorrowBalance(db.borrows[k], m) else 0.0 }

  lemma DebtRead(db: Db, o: Output, m: nat, v: View, s: Batch)
    requires Reads(db, o, m, v, s)
    ensures v.Debt() == DebtAt(db, Key(o.sender, m), v.sm)
  {
    EmptyBorrowWorthless(v.bm);
  }

  /** What an output deals with is the stored market, charged up to the block of the output. */
  lemma LiveIsCharged(db: Db, m: nat, block: int)
    requires Inv(db) && m in db.markets
    ensures Charged(db.markets[m], Live(db, m, block), block)
  {
    InterestReachesTheMarket(AfterFind(db.markets[m]), block);
  }
}
