/** Who is paid: every transfer an output causes goes back to the account that sent it, but for a
    reserve withdrawal, which goes where its proposal says; and what a price update changes. */
module Recipients {
  import opened Decimal
  import opened Core
  import opened Rates
  import opened Liquidation
  import opened Handlers
  import opened Replay
  import opened Crash
  import opened Refunds
  import opened Ledger
  import opened Flows

  /** The account a transfer made for an output is meant for. */
  predicate Addressed(o: Output, id: TransferId, t: Transfer)
  {
    if id.Withdrawal? then o.action.DoWithdraw? && t.opponent == o.action.opponent else t.opponent == o.sender
  }

  predicate WellAddressed(o: Output, x: Write) { x.PutTransfer? ==> Addressed(o, x.id, x.transfer) }

  predicate AllAddressed(o: Output, s: Batch)
  {
    && WellAddressed(o, s.a) && WellAddressed(o, s.b) && WellAddressed(o, s.c) && WellAddressed(o, s.d)
    && WellAddressed(o, s.e)
    && WellAddressed(o, s.f) && WellAddressed(o, s.g) && WellAddressed(o, s.h) && WellAddressed(o, s.i)
  }

  lemma DepositAddressed(o: Output, m: nat, v: View)
    ensures AllAddressed(o, SupplyPlan(o, m, v)) && AllAddressed(o, RedeemPlan(o, m, v))
    ensures AllAddressed(o, PledgePlan(o, m, v)) && AllAddressed(o, QuickPledgePlan(o, m, v))
  {
  }

  lemma ReleaseAddressed(o: Output, m: nat, v: View, amount: real)
    ensures AllAddressed(o, UnpledgePlan(o, m, v, amount)) && AllAddressed(o, QuickRedeemPlan(o, m, v, amount))
  {
  }

  lemma DebtAddressed(o: Output, m: nat, v: View, amount: real)
    ensures AllAddressed(o, BorrowPlan(o, m, v, amount)) && AllAddressed(o, RepayPlan(o, m, v))
  {
  }

  lemma QuickBorrowAddressed(o: Output, s: nat, b: nat, v: View, amount: real)
    ensures AllAddressed(o, QuickBorrowPlan(o, s, b, v, amount))
  {
  }

  lemma LiquidateAddressed(o: Output, user: nat, s: nat, b: nat, v: View)
    ensures AllAddressed(o, LiquidatePlan(o, user, s, b, v))
  {
  }

  lemma SlotsAddressed(db: Db, o: Output)
    ensures AllAddressed(o, Slots(db, o))
  {
    if Slots(db, o) == IDLE { return; }
    var me, own := o.sender, MarketOf(o.asset);
    match o.action
    case DoUnpledge(a, memo) => ReleaseAddressed(o, a.market, Look(db, o, me, a.market, a.market), Trunc8(memo));
    case DoQuickRedeem(a, memo) => ReleaseAddressed(o, a.market, Look(db, o, me, a.market, a.market), Trunc8(memo));
    case DoBorrow(a, memo) => DebtAddressed(o, a.market, Look(db, o, me, a.market, a.market), Trunc8(memo));
    case DoRepay => DebtAddressed(o, own, Look(db, o, me, own, own), 0.0);
    case DoQuickBorrow(a, memo) => QuickBorrowAddressed(o, own, a.market, Look(db, o, me, own, a.market), Trunc8(memo));
    case DoLiquidate(user, a) => LiquidateAddressed(o, user, a.market, own, Look(db, o, user, a.market, own));
    case DoPrice(_, _, _) =>
    case DoWithdraw(_, _, _, _) =>
    case Unreadable =>
    case Unknown =>
    case _ => DepositAddressed(o, own, Look(db, o, me, own, own));
  }

  /** A transfer in the table after some writes of a batch was there before or is one of them. */
  lemma {:induction false} TransferOrigin(db: Db, o: Output, s: Batch, n: nat, id: TransferId)
    requires n <= 9 && OwnedBatch(o, s) && AllAddressed(o, s) && id in RunTo(db, s, n).transfers
    ensures if id in db.transfers then RunTo(db, s, n).transfers[id] == db.transfers[id]
            else NamedBy(id, o) && Addressed(o, id, RunTo(db, s, n).transfers[id])
    decreases n
  {
    if n > 0 {
      var t, x := RunTo(db, s, n - 1).transfers, s.At(n - 1);
      NextTransfers(db, s, n - 1);
      BatchSlot(o, s, n - 1);
      OneTransfer(t, o, x, id);
      if id in t { TransferOrigin(db, o, s, n - 1, id); } else { TransfersStay(db, s, n - 1, id); }
    }
  }

  lemma OneTransfer(t: Transfers, o: Output, x: Write, id: TransferId)
    requires Owned(o, x) && WellAddressed(o, x) && id in AddTransfer(t, x)
    ensures if id in t then AddTransfer(t, x)[id] == t[id]
      else NamedBy(id, o) && Addressed(o, id, AddTransfer(t, x)[id])
  {
  }

  lemma BatchSlot(o: Output, s: Batch, n: nat)
    requires n < 9 && OwnedBatch(o, s) && AllAddressed(o, s)
    ensures Owned(o, s.At(n)) && WellAddressed(o, s.At(n))
  {
  }

  lemma {:induction false} TransfersStay(db: Db, s: Batch, n: nat, id: TransferId)
    requires n <= 9
    ensures id in db.transfers ==> id in RunTo(db, s, n).transfers
    decreases n
  {
    if n > 0 {
      NextTransfers(db, s, n - 1);
      TransfersStay(db, s, n - 1, id);
    }
  }

  /** Over every run, a transfer that was not there before is named after one of the outputs and
      addressed to its sender, or to the opponent of the withdrawal it carries out; and one that was
      there is never changed. */
  lemma {:induction false} PaymentsReachTheirRecipients(db: Db, queue: seq<Output>, id: TransferId)
    requires id in Run(db, queue).transfers
    ensures if id in db.transfers then Run(db, queue).transfers[id] == db.transfers[id]
            else exists i ::
              0 <= i < |queue| && NamedBy(id, queue[i]) && Addressed(queue[i], id, Run(db, queue).transfers[id])
    decreases |queue|
  {
    if queue != [] {
      var mid := Step(db, queue[0]);
      PaymentsReachTheirRecipients(mid, queue[1..], id);
      SlotsOwned(db, queue[0]);
      SlotsAddressed(db, queue[0]);
      TransfersStay(db, Slots(db, queue[0]), 9, id);
      if id in mid.transfers {
        TransferOrigin(db, queue[0], Slots(db, queue[0]), 9, id);
      } else {
        var i :| 0 <= i < |queue| - 1 && NamedBy(id, queue[1..][i])
          && Addressed(queue[1..][i], id, Run(db, queue).transfers[id]);
        assert queue[i + 1] == queue[1..][i];
      }
    }
  }

  // ---- Prices ---------------------------------------------------------------------------------------------

  /** A price update sets the price and its time unless a newer price is stored, charges the interest
      due, and leaves every other market and every account's rows alone. */
  lemma PriceTakesEffect(db: Db, o: Output, m: nat, price: real, time: int)
    requires Fresh(db, o) && m in db.markets && o.action == DoPrice(Underlying(m), price, time)
    ensures var e := Step(db, o); var row := db.markets[m];
      && m in e.markets
      && e.markets[m] == (if row.priceUpdatedAt > time then row
                          else Accrue(AfterFind(row), o.block)
                                 .(price := price, priceUpdatedAt := time, version := o.id))
      && e.supplies == db.supplies && e.borrows == db.borrows && e.transfers == db.transfers
      && (forall n :: n in db.markets && n != m ==> n in e.markets && e.markets[n] == db.markets[n])
  {
    SlotsOwned(db, o);
    PriceSlots(db, o, m, price, time);
    OnlyMarket(db, o, Slots(db, o), m);
  }

  lemma PriceSlots(db: Db, o: Output, m: nat, price: real, time: int)
    requires Fresh(db, o) && m in db.markets && o.action == DoPrice(Underlying(m), price, time)
    ensures var s, row := Slots(db, o), db.markets[m];
      && s == IDLE.(d := s.d) && (s.d == Nop || (s.d.PutMarket? && s.d.market == m))
      && RowAfter(db, s, m) == (if row.priceUpdatedAt > time then row
                                else Accrue(AfterFind(row), o.block)
                                       .(price := price, priceUpdatedAt := time, version := o.id))
  {
  }

  /** A batch that writes one market row and nothing else. */
  lemma OnlyMarket(db: Db, o: Output, s: Batch, m: nat)
    requires Clean(db, o, s) && m in db.markets && s == IDLE.(d := s.d)
      && (s.d == Nop || (s.d.PutMarket? && s.d.market == m))
    ensures var e := RunAll(db, s);
      && e.supplies == db.supplies && e.borrows == db.borrows && e.transfers == db.transfers
      && m in e.markets && e.markets[m] == RowAfter(db, s, m)
      && (forall n :: n in db.markets && n != m ==> n in e.markets && e.markets[n] == db.markets[n])
  {
    RunSupplies(db, s);
    RunBorrows(db, s);
    RunTransfers(db, s);
    RunMarket(db, o, s, m);
    forall n | n in db.markets && n != m
      ensures n in RunAll(db, s).markets && RunAll(db, s).markets[n] == db.markets[n]
    {
      RunMarket(db, o, s, n);
    }
  }

  // ---- Liquidation payments ------------------------------------------------------------------------------

  /** An accepted liquidation splits what was paid: what it repays and what it refunds add up to the
      output, and neither the collateral nor the principal it leaves is negative. */
  lemma LiquidationSplitsThePayment(o: Output, user: nat, si: nat, bi: nat, v: View)
    requires ViewOk(v) && Paid(o) && Quoted(v.sm)
    requires LiquidatePlan(o, user, si, bi, v).c.CreateTx?
    ensures var s := LiquidatePlan(o, user, si, bi, v); var seized, repay := CTokensOf(s.c.extra), RepayOf(s.c.extra);
      && PaidOut(s, Underlying(bi)) + repay == o.amount && PaidOut(s, CToken(si)) == seized
      && s.d.supply.collaterals == v.Collaterals() - seized >= 0.0
      && s.e.borrow.principal == v.Debt() - repay >= 0.0
  {
    ViewRows(v);
    Grid8Is16(o.amount);
    LiquidationBounded(o.amount, v.Collaterals(), v.Debt(), v.sm, v.bm);
    var t := SeizeTerms(o.amount, v.Collaterals(), v.Debt(), v.sm, v.bm);
    TakenCollateral(v, t.ctokens);
    RepaymentRows(o, bi, Key(user, bi), v, t.repay);
  }
}
