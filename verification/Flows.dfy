/** Money in and money out: what one output does to the tables, and what it moves. */
module Flows {
  import opened Totals
  import opened Core
  import opened Account
  import opened Replay
  import opened Refunds

  // ---- Tables ------------------------------------------------------------------------------------

  type Transfers = map<TransferId, Transfer>

  /** A write as each store sees it: first-or-create, or an update guarded by its version. */
  function AddTransfer(t: Transfers, x: Write): Transfers
  {
    if x.PutTransfer? && x.id !in t then t[x.id := x.transfer] else t
  }

  function AddSupply(t: map<Key, Supply>, x: Write): map<Key, Supply>
  {
    if x.CreateSupply? && x.key !in t then t[x.key := EMPTY_SUPPLY]
    else if x.PutSupply? && !(x.key in t && x.supply.version <= t[x.key].version) then t[x.key := x.supply]
    else t
  }

  function AddBorrow(t: map<Key, Borrow>, x: Write): map<Key, Borrow>
  {
    if x.CreateBorrow? && x.key !in t then t[x.key := EMPTY_BORROW]
    else if x.PutBorrow? && !(x.key in t && x.borrow.version <= t[x.key].version) then t[x.key := x.borrow]
    else t
  }

  function AddMarket(t: map<nat, Market>, x: Write): map<nat, Market>
  {
    if x.PutMarket? && !(x.market in t && x.row.version <= t[x.market].version) then t[x.market := x.row] else t
  }

  /** One more write of a batch, table by table. */
  lemma ApplyTransfers(db: Db, x: Write)
    ensures Apply(db, x).transfers == AddTransfer(db.transfers, x)
  {
  }

  lemma NextTransfers(db: Db, s: Batch, n: nat)
    requires n < 9
    ensures RunTo(db, s, n + 1).transfers == AddTransfer(RunTo(db, s, n).transfers, s.At(n))
  {
    ApplyTransfers(RunTo(db, s, n), s.At(n));
  }

  lemma ApplySupplies(db: Db, x: Write)
    ensures Apply(db, x).supplies == AddSupply(db.supplies, x)
  {
  }

  lemma NextSupplies(db: Db, s: Batch, n: nat)
    requires n < 9
    ensures RunTo(db, s, n + 1).supplies == AddSupply(RunTo(db, s, n).supplies, s.At(n))
  {
    ApplySupplies(RunTo(db, s, n), s.At(n));
  }

  lemma ApplyBorrows(db: Db, x: Write)
    ensures Apply(db, x).borrows == AddBorrow(db.borrows, x)
  {
  }

  lemma NextBorrows(db: Db, s: Batch, n: nat)
    requires n < 9
    ensures RunTo(db, s, n + 1).borrows == AddBorrow(RunTo(db, s, n).borrows, s.At(n))
  {
    ApplyBorrows(RunTo(db, s, n), s.At(n));
  }

  lemma ApplyMarkets(db: Db, x: Write)
    ensures Apply(db, x).markets == AddMarket(db.markets, x)
  {
  }

  lemma NextMarkets(db: Db, s: Batch, n: nat)
    requires n < 9
    ensures RunTo(db, s, n + 1).markets == AddMarket(RunTo(db, s, n).markets, s.At(n))
  {
    ApplyMarkets(RunTo(db, s, n), s.At(n));
  }

  // The tables after a whole batch, given where it puts each kind of write.

  lemma RunTransfers(db: Db, s: Batch)
    requires Arranged(s)
    ensures RunAll(db, s).transfers
         == AddTransfer(AddTransfer(AddTransfer(AddTransfer(AddTransfer(db.transfers, s.c), s.d), s.e), s.f), s.g)
  {
    NextTransfers(db, s, 0);
    NextTransfers(db, s, 1);
    assert RunTo(db, s, 2).transfers == db.transfers;
    NextTransfers(db, s, 2);
    NextTransfers(db, s, 3);
    NextTransfers(db, s, 4);
    NextTransfers(db, s, 5);
    NextTransfers(db, s, 6);
    NextTransfers(db, s, 7);
    NextTransfers(db, s, 8);
  }

  lemma ChainSupplies(s: Batch, t: seq<map<Key, Supply>>)
    requires Arranged(s) && |t| == 10
    requires forall n :: 0 <= n < 9 ==> t[n + 1] == AddSupply(t[n], s.At(n))
    ensures t[9] == AddSupply(AddSupply(t[0], s.a), s.d)
  {
    assert t[1] == AddSupply(t[0], s.At(0)) && t[2] == AddSupply(t[1], s.At(1)) && t[3] == AddSupply(t[2], s.At(2));
    assert t[4] == AddSupply(t[3], s.At(3)) && t[5] == AddSupply(t[4], s.At(4)) && t[6] == AddSupply(t[5], s.At(5));
    assert t[7] == AddSupply(t[6], s.At(6)) && t[8] == AddSupply(t[7], s.At(7)) && t[9] == AddSupply(t[8], s.At(8));
  }

  lemma RunSupplies(db: Db, s: Batch)
    requires Arranged(s)
    ensures RunAll(db, s).supplies == AddSupply(AddSupply(db.supplies, s.a), s.d)
  {
    var t := seq(10, n requires 0 <= n < 10 => RunTo(db, s, n).supplies);
    forall n | 0 <= n < 9
      ensures t[n + 1] == AddSupply(t[n], s.At(n))
    {
      NextSupplies(db, s, n);
    }
    ChainSupplies(s, t);
    assert t[0] == db.supplies;
  }

  lemma ChainBorrows(s: Batch, t: seq<map<Key, Borrow>>)
    requires Arranged(s) && |t| == 10
    requires forall n :: 0 <= n < 9 ==> t[n + 1] == AddBorrow(t[n], s.At(n))
    ensures t[9] == AddBorrow(AddBorrow(AddBorrow(t[0], s.b), s.d), s.e)
  {
    assert t[1] == AddBorrow(t[0], s.At(0)) && t[2] == AddBorrow(t[1], s.At(1)) && t[3] == AddBorrow(t[2], s.At(2));
    assert t[4] == AddBorrow(t[3], s.At(3)) && t[5] == AddBorrow(t[4], s.At(4)) && t[6] == AddBorrow(t[5], s.At(5));
    assert t[7] == AddBorrow(t[6], s.At(6)) && t[8] == AddBorrow(t[7], s.At(7)) && t[9] == AddBorrow(t[8], s.At(8));
  }

  lemma RunBorrows(db: Db, s: Batch)
    requires Arranged(s)
    ensures RunAll(db, s).borrows == AddBorrow(AddBorrow(AddBorrow(db.borrows, s.b), s.d), s.e)
  {
    var t := seq(10, n requires 0 <= n < 10 => RunTo(db, s, n).borrows);
    forall n | 0 <= n < 9
      ensures t[n + 1] == AddBorrow(t[n], s.At(n))
    {
      NextBorrows(db, s, n);
    }
    ChainBorrows(s, t);
    assert t[0] == db.borrows;
  }

  lemma RunMarkets(db: Db, s: Batch)
    requires Arranged(s)
    ensures RunAll(db, s).markets
         == AddMarket(AddMarket(AddMarket(AddMarket(AddMarket(AddMarket(db.markets, s.d), s.e), s.f), s.g), s.h), s.i)
  {
    NextMarkets(db, s, 0);
    NextMarkets(db, s, 1);
    NextMarkets(db, s, 2);
    assert RunTo(db, s, 3).markets == db.markets;
    NextMarkets(db, s, 3);
    NextMarkets(db, s, 4);
    NextMarkets(db, s, 5);
    NextMarkets(db, s, 6);
    NextMarkets(db, s, 7);
    NextMarkets(db, s, 8);
  }

  // ---- Sums ----------------------------------------------------------------------------------------

  function Sends(t: Transfers, a: Asset): map<TransferId, real>
  {
    map id | id in t && t[id].asset == a :: t[id].amount
  }

  /** Everything the ledger has ever ordered to be paid out in one asset. */
  ghost function Sent(t: Transfers, a: Asset): real { Total(Sends(t, a)) }

  function SentBy(x: Write, a: Asset): real
  {
    if x.PutTransfer? && x.transfer.asset == a then x.transfer.amount else 0.0
  }

  lemma AddSent(t: Transfers, x: Write, a: Asset)
    requires x.PutTransfer? ==> x.id !in t
    ensures Sent(AddTransfer(t, x), a) == Sent(t, a) + SentBy(x, a)
  {
    if x.PutTransfer? && x.transfer.asset == a {
      assert Sends(AddTransfer(t, x), a) == Sends(t, a)[x.id := x.transfer.amount];
      TotalPut(Sends(t, a), x.id, x.transfer.amount);
    } else {
      assert Sends(AddTransfer(t, x), a) == Sends(t, a);
    }
  }

  function Stored(db: Db, k: Key): real { if k in db.supplies then db.supplies[k].collaterals else 0.0 }

  /** The debt of a row at index one. */
  function Share(b: Borrow): real { if b.interestIndex > 0.0 then b.principal / b.interestIndex else 0.0 }

  function StoredShare(db: Db, k: Key): real { if k in db.borrows then Share(db.borrows[k]) else 0.0 }

  function ShareTable(db: Db, m: nat): map<Key, real>
  {
    map k | k in db.borrows && k.market == m :: Share(db.borrows[k])
  }

  /** All debts of a market at index one. */
  ghost function Shares(db: Db, m: nat): real { Total(ShareTable(db, m)) }

  lemma PutShare(db: Db, k: Key, b: Borrow, m: nat)
    ensures Shares(db.(borrows := db.borrows[k := b]), m)
         == Shares(db, m) + (if k.market == m then Share(b) - StoredShare(db, k) else 0.0)
  {
    var db' := db.(borrows := db.borrows[k := b]);
    if k.market == m {
      assert ShareTable(db', m) == ShareTable(db, m)[k := Share(b)];
      TotalPut(ShareTable(db, m), k, Share(b));
    } else {
      assert ShareTable(db', m) == ShareTable(db, m);
    }
  }

  // ---- One fresh batch -----------------------------------------------------------------------------

  /** A batch in the name of a fresh output. */
  predicate Clean(db: Db, o: Output, s: Batch) { Fresh(db, o) && OwnedBatch(o, s) && Arranged(s) }

  function PaidOut(s: Batch, a: Asset): real
  {
    SentBy(s.c, a) + SentBy(s.d, a) + SentBy(s.e, a) + SentBy(s.f, a) + SentBy(s.g, a)
  }

  lemma FreshTransfer(db: Db, o: Output, x: Write)
    requires Fresh(db, o) && Owned(o, x)
    ensures x.PutTransfer? ==> x.id !in db.transfers
  {
    assert x.PutTransfer? ==> NamedBy(x.id, o);
  }

  lemma RunSent(db: Db, o: Output, s: Batch, a: Asset)
    requires Clean(db, o, s)
    ensures Sent(RunAll(db, s).transfers, a) == Sent(db.transfers, a) + PaidOut(s, a)
  {
    RunTransfers(db, s);
    FreshTransfer(db, o, s.c);
    FreshTransfer(db, o, s.d);
    FreshTransfer(db, o, s.e);
    FreshTransfer(db, o, s.f);
    FreshTransfer(db, o, s.g);
    var t1 := AddTransfer(db.transfers, s.c);
    var t2 := AddTransfer(t1, s.d);
    var t3 := AddTransfer(t2, s.e);
    var t4 := AddTransfer(t3, s.f);
    AddSent(db.transfers, s.c, a);
    AddSent(t1, s.d, a);
    AddSent(t2, s.e, a);
    AddSent(t3, s.f, a);
    AddSent(t4, s.g, a);
  }

  function PledgedBy(db: Db, s: Batch, m: nat): real
  {
    if s.d.PutSupply? && s.d.key.market == m then s.d.supply.collaterals - Stored(db, s.d.key) else 0.0
  }

  lemma RunPledged(db: Db, o: Output, s: Batch, m: nat)
    requires Clean(db, o, s)
    ensures Pledged(RunAll(db, s), m) == Pledged(db, m) + PledgedBy(db, s, m)
  {
    RunSupplies(db, s);
    var d1 := db.(supplies := AddSupply(db.supplies, s.a));
    var d2 := d1.(supplies := AddSupply(d1.supplies, s.d));
    if s.a.CreateSupply? && s.a.key !in db.supplies { PutPledge(db, s.a.key, EMPTY_SUPPLY, m); }
    if s.d.PutSupply? { PutPledge(d1, s.d.key, s.d.supply, m); }
    assert Pledges(RunAll(db, s), m) == Pledges(d2, m);
  }

  function SharedBy(db: Db, x: Write, m: nat): real
  {
    if x.PutBorrow? && x.key.market == m then Share(x.borrow) - StoredShare(db, x.key) else 0.0
  }

  /** One write as the debts of a market see it. */
  lemma AddShare(db: Db, o: Output, x: Write, m: nat)
    requires Owned(o, x) && (x.PutBorrow? && x.key in db.borrows ==> db.borrows[x.key].version < o.id)
    ensures Shares(db.(borrows := AddBorrow(db.borrows, x)), m) == Shares(db, m) + SharedBy(db, x, m)
    ensures forall k :: (x.PutBorrow? ==> k != x.key) ==>
      StoredShare(db.(borrows := AddBorrow(db.borrows, x)), k) == StoredShare(db, k)
  {
    assert Share(EMPTY_BORROW) == 0.0;
    if x.CreateBorrow? && x.key !in db.borrows {
      PutShare(db, x.key, EMPTY_BORROW, m);
    } else if x.PutBorrow? {
      PutShare(db, x.key, x.borrow, m);
    }
  }

  lemma SharesOf(db: Db, e: Db, m: nat)
    requires e.borrows == db.borrows
    ensures Shares(e, m) == Shares(db, m)
  {
    assert ShareTable(e, m) == ShareTable(db, m);
  }

  lemma RunShares(db: Db, o: Output, s: Batch, m: nat)
    requires Clean(db, o, s)
    ensures Shares(RunAll(db, s), m) == Shares(db, m) + SharedBy(db, s.d, m) + SharedBy(db, s.e, m)
  {
    RunBorrows(db, s);
    var d1 := db.(borrows := AddBorrow(db.borrows, s.b));
    var d2 := d1.(borrows := AddBorrow(d1.borrows, s.d));
    var d3 := d2.(borrows := AddBorrow(d2.borrows, s.e));
    AddShare(db, o, s.b, m);
    AddShare(d1, o, s.d, m);
    AddShare(d2, o, s.e, m);
    SharesOf(d3, RunAll(db, s), m);
  }

  function Row(x: Write, m: nat, row: Market): Market { if x.PutMarket? && x.market == m then x.row else row }

  /** The row of a market after the batch: the first update wins, since a second one would carry
      the same version. */
  function RowAfter(db: Db, s: Batch, m: nat): Market
    requires m in db.markets
  {
    Row(s.d, m, Row(s.e, m, Row(s.f, m, Row(s.g, m, Row(s.h, m, Row(s.i, m, db.markets[m]))))))
  }

  lemma AddMarketAt(t: map<nat, Market>, o: Output, x: Write, m: nat)
    requires m in t && Owned(o, x)
    ensures m in AddMarket(t, x)
    ensures x.PutMarket? && x.market == m && t[m].version < o.id ==> AddMarket(t, x)[m] == x.row
    ensures !(x.PutMarket? && x.market == m && t[m].version < o.id) ==> AddMarket(t, x)[m] == t[m]
  {
  }

  lemma RunMarket(db: Db, o: Output, s: Batch, m: nat)
    requires Clean(db, o, s) && m in db.markets
    ensures m in RunAll(db, s).markets && RunAll(db, s).markets[m] == RowAfter(db, s, m)
  {
    RunMarkets(db, s);
    var t1 := AddMarket(db.markets, s.d);
    AddMarketAt(db.markets, o, s.d, m);
    var t2 := AddMarket(t1, s.e);
    AddMarketAt(t1, o, s.e, m);
    var t3 := AddMarket(t2, s.f);
    AddMarketAt(t2, o, s.f, m);
    var t4 := AddMarket(t3, s.g);
    AddMarketAt(t3, o, s.g, m);
    var t5 := AddMarket(t4, s.h);
    AddMarketAt(t4, o, s.h, m);
    AddMarketAt(t5, o, s.i, m);
  }
}
