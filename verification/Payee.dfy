/** The payee worker: handlers that read the stores, decide, and write them one row at a time, with
    a process that may die before any write, and the loop that saves a checkpoint after each output. */
module Payee {
  import opened Decimal
  import opened Core
  import opened Rates
  import opened Account
  import opened Liquidation
  import opened Handlers
  import opened Replay
  import opened Crash

  /** How a handler ends: done, interrupted or failing so that the output is tried again, or with an
      error that refunds the output. */
  datatype Ending = Finished | Failed | Refuses(verdict: Verdict)

  predicate IdleFrom(s: Batch, n: nat)
  {
    && (n <= 2 ==> s.c == Nop) && (n <= 3 ==> s.d == Nop) && (n <= 4 ==> s.e == Nop) && (n <= 5 ==> s.f == Nop)
    && (n <= 6 ==> s.g == Nop) && (n <= 7 ==> s.h == Nop) && (n <= 8 ==> s.i == Nop)
  }

  lemma {:induction false} IdleTail(db: Db, s: Batch, n: nat)
    requires 2 <= n <= 9 && IdleFrom(s, n)
    ensures RunTo(db, s, 9) == RunTo(db, s, n)
    decreases 9 - n
  {
    if n < 9 {
      RunToNext(db, s, n);
      IdleTail(db, s, n + 1);
    }
  }

  /** The rows a batch creates first. */
  lemma RowsMade(db: Db, s: Batch)
    ensures RunTo(db, s, 2) == Apply(Apply(db, s.a), s.b)
  {
    RunToNext(db, s, 0);
    RunToNext(db, s, 1);
  }

  // An empty row created first changes nothing that the plan is made from.

  lemma PledgeRowKept(db: Db, o: Output, m: nat)
    ensures PledgePlan(o, m, Look(Apply(db, CreateSupply(Key(o.sender, m))), o, o.sender, m, m))
         == PledgePlan(o, m, Look(db, o, o.sender, m, m)) || PledgePlan(o, m, Look(db, o, o.sender, m, m)).a == Nop
  {
    var v, w := Look(db, o, o.sender, m, m), Look(Apply(db, CreateSupply(Key(o.sender, m))), o, o.sender, m, m);
    if Key(o.sender, m) !in db.supplies { LookNewSupply(db, o, o.sender, m, m); }
    PledgeSteady(o, m, v, w);
  }

  lemma QuickPledgeRowKept(db: Db, o: Output, m: nat)
    ensures QuickPledgePlan(o, m, Look(Apply(db, CreateSupply(Key(o.sender, m))), o, o.sender, m, m))
         == QuickPledgePlan(o, m, Look(db, o, o.sender, m, m))
           || QuickPledgePlan(o, m, Look(db, o, o.sender, m, m)).a == Nop
  {
    var v, w := Look(db, o, o.sender, m, m), Look(Apply(db, CreateSupply(Key(o.sender, m))), o, o.sender, m, m);
    if Key(o.sender, m) !in db.supplies { LookNewSupply(db, o, o.sender, m, m); }
    QuickPledgeSteady(o, m, v, w);
  }

  lemma BorrowRowKept(db: Db, o: Output, m: nat, amount: real)
    ensures BorrowPlan(o, m, Look(Apply(db, CreateBorrow(Key(o.sender, m))), o, o.sender, m, m), amount)
         == BorrowPlan(o, m, Look(db, o, o.sender, m, m), amount)
           || BorrowPlan(o, m, Look(db, o, o.sender, m, m), amount).b == Nop
  {
    var v, w := Look(db, o, o.sender, m, m), Look(Apply(db, CreateBorrow(Key(o.sender, m))), o, o.sender, m, m);
    if Key(o.sender, m) !in db.borrows { LookNewBorrow(db, o, o.sender, m, m); }
    BorrowSteady(o, m, v, w, amount);
  }

  lemma QuickBorrowSupplyKept(db: Db, o: Output, si: nat, bi: nat, amount: real)
    ensures var s := QuickBorrowPlan(o, si, bi, Look(db, o, o.sender, si, bi), amount);
      || QuickBorrowPlan(o, si, bi, Look(Apply(db, CreateSupply(Key(o.sender, si))), o, o.sender, si, bi), amount) == s
      || s.a == Nop
  {
    var one := Apply(db, CreateSupply(Key(o.sender, si)));
    if Key(o.sender, si) !in db.supplies { LookNewSupply(db, o, o.sender, si, bi); }
    QuickBorrowSteady(o, si, bi, Look(db, o, o.sender, si, bi), Look(one, o, o.sender, si, bi), amount);
  }

  lemma QuickBorrowBorrowKept(db: Db, o: Output, si: nat, bi: nat, amount: real)
    ensures var s := QuickBorrowPlan(o, si, bi, Look(db, o, o.sender, si, bi), amount);
      || QuickBorrowPlan(o, si, bi, Look(Apply(db, CreateBorrow(Key(o.sender, bi))), o, o.sender, si, bi), amount) == s
      || s.b == Nop
  {
    var one := Apply(db, CreateBorrow(Key(o.sender, bi)));
    if Key(o.sender, bi) !in db.borrows { LookNewBorrow(db, o, o.sender, si, bi); }
    QuickBorrowSteady(o, si, bi, Look(db, o, o.sender, si, bi), Look(one, o, o.sender, si, bi), amount);
  }

  lemma QuickBorrowRowsKept(db: Db, s: Batch, o: Output, si: nat, bi: nat, amount: real)
    requires s == QuickBorrowPlan(o, si, bi, Look(db, o, o.sender, si, bi), amount)
    requires s.a == CreateSupply(Key(o.sender, si)) && s.b == CreateBorrow(Key(o.sender, bi))
    ensures QuickBorrowPlan(o, si, bi, Look(RunTo(db, s, 2), o, o.sender, si, bi), amount) == s
  {
    QuickBorrowSupplyKept(db, o, si, bi, amount);
    QuickBorrowBorrowKept(Apply(db, s.a), o, si, bi, amount);
    RowsMade(db, s);
  }

  /** What a refusal leaves to do: the refund, and nothing after it. */
  predicate Refunds(s: Batch, o: Output, v: Verdict) { !v.Accept? && s.c == Settle(o, v) && IdleFrom(s, 3) }

  class Payee {
    var markets: map<nat, Market>
    var supplies: map<Key, Supply>
    var borrows: map<Key, Borrow>
    var txs: map<nat, Extra>
    var transfers: map<TransferId, Transfer>
    const sysversion: int
    /** The outputs in id order, and how many of them are behind the checkpoint. */
    const queue: seq<Output>
    var checkpoint: nat
    /** How many more writes the process lives to make. */
    var fuse: nat

    /** The database the output in hand found, the writes it calls for there, and how many of them
        are behind us. */
    ghost var base: Db
    ghost var plan: Batch
    ghost var done: nat

    constructor (db: Db, queue: seq<Output>, fuse: nat)
      ensures Stored() == db && this.queue == queue && this.fuse == fuse && checkpoint == 0
    {
      markets, supplies, borrows, txs, transfers, sysversion
        := db.markets, db.supplies, db.borrows, db.txs, db.transfers, db.sysversion;
      this.queue, this.fuse, checkpoint := queue, fuse, 0;
    }

    function Stored(): Db
      reads this
    {
      Db(markets, supplies, borrows, txs, transfers, sysversion)
    }

    ghost predicate OnTrack()
      reads this
    {
      done <= 9 && Stored() == RunTo(base, plan, done)
    }

    /** The next write of the plan is x. */
    ghost predicate Due(x: Write)
      reads this
    {
      OnTrack() && done < 9 && plan.At(done) == x
    }

    // ---- Stores -----------------------------------------------------------------------------------------

    /** Whether the process lives to make one more write. */
    method Burn() returns (alive: bool)
      modifies this`fuse
    {
      alive := fuse > 0;
      if alive { fuse := fuse - 1; }
    }

    /** A write that is already done, or is none, needs no step. */
    ghost method Skip()
      requires OnTrack() && done < 9 && Done(Stored(), plan.At(done))
      modifies this`done
      ensures OnTrack() && done == old(done) + 1
    {
      RunToNext(base, plan, done);
      done := done + 1;
    }

    /** The plan creates no rows. */
    ghost method SkipRows()
      requires OnTrack() && done == 0 && plan.a == Nop && plan.b == Nop
      modifies this`done
      ensures OnTrack() && done == 2
    {
      Skip();
      Skip();
    }

    /** Nothing is left of the plan. */
    ghost method Finish()
      requires OnTrack() && 2 <= done && IdleFrom(plan, done)
      modifies this`done
      ensures OnTrack() && done == 9
    {
      IdleTail(base, plan, done);
      done := 9;
    }

    method CreateTransaction(trace: nat, extra: Extra) returns (ok: bool)
      requires Due(CreateTx(trace, extra))
      modifies this`txs, this`fuse, this`done
      ensures OnTrack() && done == old(done) + (if ok then 1 else 0)
    {
      RunToNext(base, plan, done);
      ok := true;
      if trace !in txs {
        ok := Burn();
        if ok { txs := txs[trace := extra]; }
      }
      if ok { done := done + 1; }
    }

    method CreateTransfer(id: TransferId, transfer: Transfer) returns (ok: bool)
      requires Due(PutTransfer(id, transfer))
      modifies this`transfers, this`fuse, this`done
      ensures OnTrack() && done == old(done) + (if ok then 1 else 0)
    {
      RunToNext(base, plan, done);
      ok := true;
      if id !in transfers {
        ok := Burn();
        if ok { transfers := transfers[id := transfer]; }
      }
      if ok { done := done + 1; }
    }

    method GetOrCreateSupply(k: Key) returns (ok: bool, supply: Supply)
      requires Due(CreateSupply(k))
      modifies this`supplies, this`fuse, this`done
      ensures OnTrack() && done == old(done) + (if ok then 1 else 0)
      ensures ok ==> k in supplies && supply == supplies[k]
      ensures supply == if k in old(supplies) then old(supplies)[k] else EMPTY_SUPPLY
    {
      RunToNext(base, plan, done);
      ok, supply := true, EMPTY_SUPPLY;
      if k in supplies {
        supply := supplies[k];
      } else {
        ok := Burn();
        if ok { supplies := supplies[k := EMPTY_SUPPLY]; }
      }
      if ok { done := done + 1; }
    }

    method GetOrCreateBorrow(k: Key) returns (ok: bool, borrow: Borrow)
      requires Due(CreateBorrow(k))
      modifies this`borrows, this`fuse, this`done
      ensures OnTrack() && done == old(done) + (if ok then 1 else 0)
      ensures ok ==> k in borrows && borrow == borrows[k]
      ensures borrow == if k in old(borrows) then old(borrows)[k] else EMPTY_BORROW
    {
      RunToNext(base, plan, done);
      ok, borrow := true, EMPTY_BORROW;
      if k in borrows {
        borrow := borrows[k];
      } else {
        ok := Burn();
        if ok { borrows := borrows[k := EMPTY_BORROW]; }
      }
      if ok { done := done + 1; }
    }

    /** Updates are skipped for a row already at this output, and guarded by the version it was
        read at. */
    method UpdateSupply(k: Key, row: Supply, read: int) returns (ok: bool)
      requires Due(PutSupply(k, row)) && k in supplies && read == supplies[k].version
      modifies this`supplies, this`fuse, this`done
      ensures OnTrack() && done == old(done) + (if ok then 1 else 0)
    {
      RunToNext(base, plan, done);
      ok := true;
      if read < row.version {
        ok := Burn();
        if ok { supplies := supplies[k := row]; }
      }
      if ok { done := done + 1; }
    }

    method UpdateBorrow(k: Key, row: Borrow, read: int) returns (ok: bool)
      requires Due(PutBorrow(k, row)) && k in borrows && read == borrows[k].version
      modifies this`borrows, this`fuse, this`done
      ensures OnTrack() && done == old(done) + (if ok then 1 else 0)
    {
      RunToNext(base, plan, done);
      ok := true;
      if read < row.version {
        ok := Burn();
        if ok { borrows := borrows[k := row]; }
      }
      if ok { done := done + 1; }
    }

    method UpdateMarket(m: nat, row: Market, read: int) returns (ok: bool)
      requires OnTrack() && m in markets && (read == markets[m].version || read < row.version)
      requires read == markets[m].version ==> Due(PutMarket(m, row))
      modifies this`markets, this`fuse, this`done
      ensures OnTrack() && done == old(done) + (if ok then 1 else 0)
      ensures markets.Keys == old(markets).Keys && forall n :: n in markets && n != m ==> markets[n] == old(markets)[n]
      ensures read != old(markets)[m].version ==> !ok
      ensures ok && read < row.version ==> markets[m] == row
    {
      ok := true;
      if read < row.version {
        if markets[m].version != read { return false; }
        ok := Burn();
        if ok { markets := markets[m := row]; }
      }
      if ok {
        RunToNext(base, plan, done);
        done := done + 1;
      }
    }

    // ---- Handlers ------------------------------------------------------------------------------------------

    /** The market as read from its store, brought up to the block of the output. */
    method LoadMarket(m: nat, block: int) returns (market: Market)
      requires m in markets
      ensures market == Live(Stored(), m, block)
    {
      var accrued, _ := AccrueInterest(AfterFind(markets[m]), block);
      market := accrued;
    }

    /** Everything the larger handlers read, and whether the account's liquidity could be calculated. */
    method Read(o: Output, user: nat, si: nat, bi: nat) returns (v: View, known: bool)
      requires si in markets && bi in markets
      ensures v == Look(Stored(), o, user, si, bi) && Sees(v, o, user, si, bi)
      ensures known <==> MarketsKnown(Stored(), user)
    {
      var sm := LoadMarket(si, o.block);
      var bm := LoadMarket(bi, o.block);
      var liquidity;
      known, liquidity := CalculateAccountLiquidity(Stored(), map[si := sm, bi := bm], user);
      var pledged := SumRows(Pledges(Stored(), si));
      v := View(Find(txs, o.trace), Find(supplies, Key(user, si)), Find(borrows, Key(user, bi)), sm, bm,
                liquidity, pledged, HasClosedMarkets(Stored(), user), sysversion);
    }

    /** What a handler relies on of what it has read. */
    ghost predicate Sees(v: View, o: Output, user: nat, si: nat, bi: nat)
      reads this
    {
      && si in markets && bi in markets && v.sm.version == markets[si].version && v.bm.version == markets[bi].version
      && v.sm.closed == markets[si].closed && v.bm.closed == markets[bi].closed && v.sm.p == markets[si].p
      && v.tx == Find(txs, o.trace) && v.supply == Find(supplies, Key(user, si))
      && v.borrow == Find(borrows, Key(user, bi))
      && v.sysversion == sysversion
    }

    /** A handler is about to work out a plan. */
    ghost predicate Begins(s: Batch)
      reads this
    {
      OnTrack() && done == 0 && base == Stored() && plan == s
    }

    /** A handler has ended: finished with the whole plan behind it, failed anywhere, or refused
        before anything but empty rows was written. */
    ghost predicate Ends(o: Output, end: Ending)
      reads this
    {
      && OnTrack() && (end.Finished? ==> done == 9)
      && (end.Refuses? ==> done == 2 && Refunds(plan, o, end.verdict))
    }

    /** The transaction row, unless an earlier attempt has written it. */
    method Record(o: Output, extra: Extra) returns (ok: bool)
      requires OnTrack() && done == 2 && plan.c.CreateTx? && plan.c.trace == o.trace
      requires (o.trace !in txs ==> plan.c.extra == extra)
      modifies this`txs, this`fuse, this`done
      ensures OnTrack() && done == if ok then 3 else 2
    {
      ok := true;
      if o.trace in txs { Skip(); } else { ok := CreateTransaction(o.trace, extra); }
    }

    method Mint(o: Output, m: nat, market: Market, ctokens: real) returns (ok: bool)
      requires OnTrack() && done == 3 && m in markets && market.version == markets[m].version
      requires plan.d == Pay(o, Source.Mint, CToken(m), ctokens)
      requires plan.e == PutMarketAt(o, m, Minted(market, ctokens, o.amount)) && IdleFrom(plan, 5)
      modifies this`markets, this`transfers, this`fuse, this`done
      ensures OnTrack() && (ok ==> done == 9)
    {
      ok := CreateTransfer(Out(o.trace, Source.Mint), Transfer(CToken(m), ctokens, o.sender));
      if !ok { return; }
      var row := market.(ctokens := Trunc16(market.ctokens + ctokens));
      row := row.(cash := Trunc16(row.cash + o.amount));
      ok := UpdateMarket(m, row.(version := o.id), market.version);
      if ok { Finish(); }
    }

    method HandleSupply(o: Output, m: nat) returns (end: Ending)
      requires m in markets && Begins(SupplyPlan(o, m, Look(Stored(), o, o.sender, m, m)))
      modifies this`markets, this`txs, this`transfers, this`fuse, this`done
      ensures Ends(o, end)
    {
      SkipRows();
      var market := LoadMarket(m, o.block);
      if market.version >= o.id {
        Finish();
        return Finished;
      }
      if market.closed { return Refuses(Refuse(MarketClosed)); }
      var ctokens := Trunc8(Div(o.amount, CurExchangeRate(market)));
      if ctokens <= 0.0 { return Refuses(Refuse(AmountTooSmall)); }
      var ok := Record(o, NoExtra);
      if !ok { return Failed; }
      ok := Mint(o, m, market, ctokens);
      return if ok then Finished else Failed;
    }

    method HandleRedeem(o: Output, m: nat) returns (end: Ending)
      requires m in markets && Begins(RedeemPlan(o, m, Look(Stored(), o, o.sender, m, m)))
      modifies this`markets, this`txs, this`transfers, this`fuse, this`done
      ensures Ends(o, end)
    {
      SkipRows();
      var market := LoadMarket(m, o.block);
      if market.version >= o.id {
        Finish();
        return Finished;
      }
      if market.closed { return Refuses(Refuse(MarketClosed)); }
      if o.trace !in txs && !(o.amount <= market.ctokens && RedeemAllowed(market, o.amount)) {
        return Refuses(Refuse(PledgeDenied));
      }
      var ok := Record(o, NoExtra);
      if !ok { return Failed; }
      ok := PayRedemption(o, m, market, Trunc8(Mul(CurExchangeRate(market), o.amount)));
      return if ok then Finished else Failed;
    }

    method PayRedemption(o: Output, m: nat, market: Market, amount: real) returns (ok: bool)
      requires OnTrack() && done == 3 && m in markets && market.version == markets[m].version
      requires plan.d == Pay(o, RedeemTransfer, Underlying(m), amount)
      requires plan.e == PutMarketAt(o, m, Burned(market, o.amount, amount)) && IdleFrom(plan, 5)
      modifies this`markets, this`transfers, this`fuse, this`done
      ensures OnTrack() && (ok ==> done == 9)
    {
      ok := CreateTransfer(Out(o.trace, RedeemTransfer), Transfer(Underlying(m), amount, o.sender));
      if !ok { return; }
      var row := market.(cash := Trunc16(market.cash - amount));
      row := row.(ctokens := Trunc16(row.ctokens - o.amount));
      ok := UpdateMarket(m, row.(version := o.id), market.version);
      if ok { Finish(); }
    }

    method HandlePledge(o: Output, m: nat) returns (end: Ending)
      requires m in markets && Begins(PledgePlan(o, m, Look(Stored(), o, o.sender, m, m)))
      modifies this`markets, this`supplies, this`txs, this`fuse, this`done
      ensures Ends(o, end)
    {
      var ready;
      ghost var before := Look(Stored(), o, o.sender, m, m);
      assert Sees(before, o, o.sender, m, m);
      ready, end := OpenPledge(o, m, before);
      if !ready { return; }
      PledgeRowKept(base, o, m);
      RowsMade(base, plan);
      var v, _ := Read(o, o.sender, m, m);
      end := PledgeOpened(o, m, v);
    }

    /** The first checks of a pledge, and its supply row. */
    method OpenPledge(o: Output, m: nat, ghost v: View) returns (ready: bool, end: Ending)
      requires Sees(v, o, o.sender, m, m) && Begins(PledgePlan(o, m, v))
      modifies this`supplies, this`fuse, this`done
      ensures if ready then OnTrack() && done == 2 && plan.a == CreateSupply(Key(o.sender, m)) && plan.b == Nop
                             && v.sm.version < o.id && !v.sm.closed && Key(o.sender, m) in supplies
              else Ends(o, end)
    {
      var market := markets[m];
      if market.version >= o.id {
        SkipRows();
        Finish();
        return false, Finished;
      }
      if market.closed {
        SkipRows();
        return false, Refuses(Refuse(MarketClosed));
      }
      var ok, _ := GetOrCreateSupply(Key(o.sender, m));
      if !ok { return false, Failed; }
      Skip();
      return true, Finished;
    }

    /** A pledge past its first checks. */
    method PledgeOpened(o: Output, m: nat, v: View) returns (end: Ending)
      requires OnTrack() && done == 2 && Sees(v, o, o.sender, m, m) && plan == PledgePlan(o, m, v)
      requires v.sm.version < o.id && !v.sm.closed && v.supply.Some?
      modifies this`markets, this`supplies, this`txs, this`fuse, this`done
      ensures Ends(o, end)
    {
      var supply := v.supply.value;
      if v.tx.None? {
        if o.amount > v.sm.ctokens || v.sm.p.collateralFactor <= 0.0 { return Refuses(Refuse(PledgeDenied)); }
        if !PledgeFits(v.sm, v.pledged, o.amount) { return Refuses(Refuse(MaxPledgeExceeded)); }
      }
      var ok := Record(o, NoExtra);
      if !ok { return Failed; }
      ok := Lock(o, m, supply, supply.collaterals + o.amount, v.sm, v.sm.version);
      return if ok then Finished else Failed;
    }

    /** The collateral row and the market row of a pledge. */
    method Lock(o: Output, m: nat, supply: Supply, collaterals: real, market: Market, read: int) returns (ok: bool)
      requires OnTrack() && done == 3 && m in markets && read == markets[m].version
      requires Key(o.sender, m) in supplies && supply == supplies[Key(o.sender, m)]
      requires plan.d == PutSupplyAt(o, Key(o.sender, m), collaterals) && plan.e == PutMarketAt(o, m, market)
      requires IdleFrom(plan, 5)
      modifies this`markets, this`supplies, this`fuse, this`done
      ensures OnTrack() && (ok ==> done == 9)
    {
      ok := UpdateSupply(Key(o.sender, m), Supply(collaterals, o.id), supply.version);
      if !ok { return; }
      ok := UpdateMarket(m, market.(version := o.id), read);
      if ok { Finish(); }
    }

    method HandleUnpledge(o: Output, m: nat, amount: real) returns (end: Ending)
      requires m in markets && Begins(UnpledgePlan(o, m, Look(Stored(), o, o.sender, m, m), amount))
      modifies this`markets, this`supplies, this`txs, this`transfers, this`fuse, this`done
      ensures Ends(o, end)
    {
      var v, known := Read(o, o.sender, m, m);
      end := Unpledge(o, m, amount, v, known);
    }

    method Unpledge(o: Output, m: nat, amount: real, v: View, known: bool) returns (end: Ending)
      requires Sees(v, o, o.sender, m, m) && Begins(UnpledgePlan(o, m, v, amount))
      modifies this`markets, this`supplies, this`txs, this`transfers, this`fuse, this`done
      ensures Ends(o, end)
    {
      SkipRows();
      if v.sm.version >= o.id {
        Finish();
        return Finished;
      }
      if v.sm.closed { return Refuses(Refuse(MarketClosed)); }
      if v.supply.None? {
        if sysversion >= 5 { return Refuses(Refuse(SupplyNotFound)); }
        Finish();
        return Finished;
      }
      var supply := v.supply.value;
      if v.tx.None? {
        if amount > supply.collaterals { return Refuses(Refuse(InsufficientCollaterals)); }
        if !known { return Failed; }
        if SupplyWorth(Supply(amount, 0), v.sm) > v.liquidity { return Refuses(Refuse(InsufficientBorrowBalance)); }
      }
      var ok := Record(o, NoExtra);
      if !ok { return Failed; }
      ok := Release(o, m, supply, Trunc16(supply.collaterals - amount), UnpledgeTransfer, CToken(m), amount,
                    v.sm, v.sm.version);
      return if ok then Finished else Failed;
    }

    /** The collateral row, the transfer and the market row of an unpledge or a quick redeem. */
    method Release(o: Output, m: nat, supply: Supply, collaterals: real, source: Source, asset: Asset, amount: real,
                   market: Market, read: int) returns (ok: bool)
      requires OnTrack() && done == 3 && m in markets && read == markets[m].version
      requires Key(o.sender, m) in supplies && supply == supplies[Key(o.sender, m)]
      requires plan.d == PutSupplyAt(o, Key(o.sender, m), collaterals) && plan.e == Pay(o, source, asset, amount)
      requires plan.f == PutMarketAt(o, m, market) && IdleFrom(plan, 6)
      modifies this`markets, this`supplies, this`transfers, this`fuse, this`done
      ensures OnTrack() && (ok ==> done == 9)
    {
      ok := UpdateSupply(Key(o.sender, m), Supply(collaterals, o.id), supply.version);
      if !ok { return; }
      ok := CreateTransfer(Out(o.trace, source), Transfer(asset, amount, o.sender));
      if !ok { return; }
      ok := UpdateMarket(m, market.(version := o.id), read);
      if ok { Finish(); }
    }

    method HandleQuickRedeem(o: Output, m: nat, tokens: real) returns (end: Ending)
      requires m in markets && Begins(QuickRedeemPlan(o, m, Look(Stored(), o, o.sender, m, m), tokens))
      modifies this`markets, this`supplies, this`txs, this`transfers, this`fuse, this`done
      ensures Ends(o, end)
    {
      var v, known := Read(o, o.sender, m, m);
      end := QuickRedeem(o, m, tokens, v, known);
    }

    method QuickRedeem(o: Output, m: nat, tokens: real, v: View, known: bool) returns (end: Ending)
      requires Sees(v, o, o.sender, m, m) && Begins(QuickRedeemPlan(o, m, v, tokens))
      modifies this`markets, this`supplies, this`txs, this`transfers, this`fuse, this`done
      ensures Ends(o, end)
    {
      SkipRows();
      if v.sm.closed { return Refuses(Refuse(MarketClosed)); }
      if v.supply.None? {
        if sysversion >= 5 { return Refuses(Refuse(SupplyNotFound)); }
        Finish();
        return Finished;
      }
      var supply := v.supply.value;
      var rate := CurExchangeRate(v.sm);
      if v.tx.None? {
        if tokens > v.sm.ctokens || !RedeemAllowed(v.sm, tokens) { return Refuses(Refuse(RedeemDisallowed)); }
        if tokens > supply.collaterals { return Refuses(Refuse(InsufficientCollaterals)); }
        if !known { return Failed; }
        if Mul(Mul(Mul(tokens, rate), v.sm.p.collateralFactor), v.sm.price) > v.liquidity { return Refuses(RefuseV0); }
      }
      var ok := Record(o, NoExtra);
      if !ok { return Failed; }
      ok := ReleaseAndBurn(o, m, supply, v.sm, tokens, Trunc8(Mul(tokens, rate)));
      return if ok then Finished else Failed;
    }

    /** The writes of an accepted quick redeem. */
    method ReleaseAndBurn(o: Output, m: nat, supply: Supply, market: Market, tokens: real, amount: real)
        returns (ok: bool)
      requires OnTrack() && done == 3 && m in markets && market.version == markets[m].version
      requires Key(o.sender, m) in supplies && supply == supplies[Key(o.sender, m)]
      requires plan.d == PutSupplyAt(o, Key(o.sender, m), Trunc16(supply.collaterals - tokens))
      requires plan.e == Pay(o, QuickRedeemTransfer, Underlying(m), amount)
      requires plan.f == PutMarketAt(o, m, Burned(market, tokens, amount)) && IdleFrom(plan, 6)
      modifies this`markets, this`supplies, this`transfers, this`fuse, this`done
      ensures OnTrack() && (ok ==> done == 9)
    {
      var row := market.(cash := Trunc16(market.cash - amount));
      row := row.(ctokens := Trunc16(row.ctokens - tokens));
      ok := Release(o, m, supply, Trunc16(supply.collaterals - tokens), QuickRedeemTransfer, Underlying(m), amount,
                    row, market.version);
    }

    method HandleQuickPledge(o: Output, m: nat) returns (end: Ending)
      requires m in markets && Begins(QuickPledgePlan(o, m, Look(Stored(), o, o.sender, m, m)))
      modifies this`markets, this`supplies, this`txs, this`fuse, this`done
      ensures Ends(o, end)
    {
      var ready;
      ghost var before := Look(Stored(), o, o.sender, m, m);
      assert Sees(before, o, o.sender, m, m);
      ready, end := OpenQuickPledge(o, m, before);
      if !ready { return; }
      QuickPledgeRowKept(base, o, m);
      RowsMade(base, plan);
      var v, _ := Read(o, o.sender, m, m);
      end := MintAndLock(o, m, v, v.supply.value);
    }

    /** The first checks of a quick pledge, and its supply row. */
    method OpenQuickPledge(o: Output, m: nat, ghost v: View) returns (ready: bool, end: Ending)
      requires Sees(v, o, o.sender, m, m) && Begins(QuickPledgePlan(o, m, v))
      modifies this`supplies, this`fuse, this`done
      ensures if ready then OnTrack() && done == 2 && plan.a == CreateSupply(Key(o.sender, m)) && plan.b == Nop
                             && v.sm.version < o.id && !v.sm.closed && v.sm.p.collateralFactor > 0.0
                             && Key(o.sender, m) in supplies
              else Ends(o, end)
    {
      var market := markets[m];
      if market.version >= o.id {
        SkipRows();
        Finish();
        return false, Finished;
      }
      if market.closed || market.p.collateralFactor <= 0.0 {
        SkipRows();
        return false, Refuses(Refuse(if market.closed then MarketClosed else PledgeDisallowed));
      }
      var ok, _ := GetOrCreateSupply(Key(o.sender, m));
      if !ok { return false, Failed; }
      Skip();
      return true, Finished;
    }

    /** A quick pledge past its first checks. */
    method MintAndLock(o: Output, m: nat, v: View, supply: Supply) returns (end: Ending)
      requires OnTrack() && done == 2 && m in markets && v.sm.version == markets[m].version
      requires v.tx == Find(txs, o.trace)
      requires v.sm.version < o.id && !v.sm.closed && v.sm.p.collateralFactor > 0.0 && plan == QuickPledgePlan(o, m, v)
      requires Key(o.sender, m) in supplies && supply == supplies[Key(o.sender, m)]
      requires supply.collaterals == v.Collaterals()
      modifies this`markets, this`supplies, this`txs, this`fuse, this`done
      ensures Ends(o, end)
    {
      var ok;
      var ctokens := Trunc8(Div(o.amount, CurExchangeRate(v.sm)));
      if ctokens <= 0.0 { return Refuses(Refuse(AmountTooSmall)); }
      if v.tx.None? && !PledgeFits(v.sm, v.pledged, ctokens) { return Refuses(Refuse(MaxPledgeExceeded)); }
      ok := Record(o, NoExtra);
      if !ok { return Failed; }
      var market := v.sm.(ctokens := Trunc16(v.sm.ctokens + ctokens));
      market := market.(cash := Trunc16(market.cash + o.amount));
      ok := Lock(o, m, supply, Trunc16(supply.collaterals + ctokens), market, v.sm.version);
      return if ok then Finished else Failed;
    }

    method HandleBorrow(o: Output, m: nat, amount: real) returns (end: Ending)
      requires m in markets && Begins(BorrowPlan(o, m, Look(Stored(), o, o.sender, m, m), amount))
      modifies this`markets, this`borrows, this`txs, this`transfers, this`fuse, this`done
      ensures Ends(o, end)
    {
      var ready;
      ghost var before := Look(Stored(), o, o.sender, m, m);
      assert Sees(before, o, o.sender, m, m);
      ready, end := OpenBorrow(o, m, amount, before);
      if !ready { return; }
      BorrowRowKept(base, o, m, amount);
      RowsMade(base, plan);
      var v, known := Read(o, o.sender, m, m);
      end := BorrowOpened(o, m, amount, v, known);
    }

    /** The first checks of a loan, and its borrow row. */
    method OpenBorrow(o: Output, m: nat, amount: real, ghost v: View) returns (ready: bool, end: Ending)
      requires Sees(v, o, o.sender, m, m) && Begins(BorrowPlan(o, m, v, amount))
      modifies this`borrows, this`fuse, this`done
      ensures if ready then OnTrack() && done == 2 && plan.a == Nop && plan.b == CreateBorrow(Key(o.sender, m))
                             && v.bm.version < o.id && !v.bm.closed && Key(o.sender, m) in borrows
              else Ends(o, end)
    {
      var market := markets[m];
      if market.version >= o.id {
        SkipRows();
        Finish();
        return false, Finished;
      }
      if market.closed {
        SkipRows();
        return false, Refuses(Refuse(MarketClosed));
      }
      Skip();
      var ok, _ := GetOrCreateBorrow(Key(o.sender, m));
      if !ok { return false, Failed; }
      return true, Finished;
    }

    /** A loan past its first checks. */
    method BorrowOpened(o: Output, m: nat, amount: real, v: View, known: bool) returns (end: Ending)
      requires OnTrack() && done == 2 && Sees(v, o, o.sender, m, m) && plan == BorrowPlan(o, m, v, amount)
      requires v.bm.version < o.id && !v.bm.closed && v.borrow.Some?
      modifies this`markets, this`borrows, this`txs, this`transfers, this`fuse, this`done
      ensures Ends(o, end)
    {
      var borrow := v.borrow.value;
      if v.tx.None? {
        if !known { return Failed; }
        if !BorrowAllowed(v.bm, amount) || Mul(amount, v.bm.price) > v.liquidity {
          return Refuses(Refuse(BorrowDenied));
        }
      }
      var ok := Record(o, NoExtra);
      if !ok { return Failed; }
      ok := Lend(o, m, borrow, BorrowBalance(borrow, v.bm) + amount, v.bm, amount);
      return if ok then Finished else Failed;
    }

    /** The debt row, the transfer and the market row of a loan. */
    method Lend(o: Output, m: nat, borrow: Borrow, principal: real, market: Market, amount: real) returns (ok: bool)
      requires OnTrack() && done == 3 && m in markets && market.version == markets[m].version
      requires Key(o.sender, m) in borrows && borrow == borrows[Key(o.sender, m)]
      requires plan.d == PutBorrowAt(o, Key(o.sender, m), principal, market.borrowIndex)
      requires plan.e == Pay(o, BorrowTransfer, Underlying(m), amount)
      requires plan.f == PutMarketAt(o, m, Accrue(Lent(market, amount), o.block)) && IdleFrom(plan, 6)
      modifies this`markets, this`borrows, this`transfers, this`fuse, this`done
      ensures OnTrack() && (ok ==> done == 9)
    {
      ok := UpdateBorrow(Key(o.sender, m), Borrow(principal, market.borrowIndex, o.id), borrow.version);
      if !ok { return; }
      ok := CreateTransfer(Out(o.trace, BorrowTransfer), Transfer(Underlying(m), amount, o.sender));
      if !ok { return; }
      ok := LendOut(o, m, market, amount);
      if ok { Finish(); }
    }

    /** The market row of a loan. */
    method LendOut(o: Output, m: nat, market: Market, amount: real) returns (ok: bool)
      requires m in markets && market.version == markets[m].version
      requires Due(PutMarketAt(o, m, Accrue(Lent(market, amount), o.block)))
      modifies this`markets, this`fuse, this`done
      ensures OnTrack() && done == old(done) + (if ok then 1 else 0)
    {
      var row := market.(cash := Trunc16(market.cash - amount));
      row := row.(borrows := Trunc16(row.borrows + amount));
      var accrued, _ := AccrueInterest(row, o.block);
      ok := UpdateMarket(m, accrued.(version := o.id), market.version);
    }

    method HandleRepay(o: Output, m: nat) returns (end: Ending)
      requires m in markets && Begins(RepayPlan(o, m, Look(Stored(), o, o.sender, m, m)))
      modifies this`markets, this`borrows, this`txs, this`transfers, this`fuse, this`done
      ensures Ends(o, end)
    {
      var v, _ := Read(o, o.sender, m, m);
      end := Repay(o, m, v);
    }

    method Repay(o: Output, m: nat, v: View) returns (end: Ending)
      requires Sees(v, o, o.sender, m, m) && Begins(RepayPlan(o, m, v))
      modifies this`markets, this`borrows, this`txs, this`transfers, this`fuse, this`done
      ensures Ends(o, end)
    {
      SkipRows();
      if v.bm.version >= o.id {
        Finish();
        return Finished;
      }
      if v.borrow.None? {
        if sysversion >= 5 { return Refuses(Refuse(BorrowNotFound)); }
        Finish();
        return Finished;
      }
      var borrow := v.borrow.value;
      var balance := BorrowBalance(borrow, v.bm);
      var repay := Min(o.amount, balance);
      if v.tx.Some? { repay := RepayOf(v.tx.value); }
      var ok := Record(o, Repaid(repay));
      if !ok { return Failed; }
      ok := TakeRepayment(o, m, borrow, v.bm, balance, repay);
      return if ok then Finished else Failed;
    }

    /** The refund, the debt row and the market row of a repayment. */
    method TakeRepayment(o: Output, m: nat, borrow: Borrow, market: Market, balance: real,
                         repay: real) returns (ok: bool)
      requires OnTrack() && done == 3 && m in markets && market.version == markets[m].version
      requires Key(o.sender, m) in borrows && borrow == borrows[Key(o.sender, m)]
      requires var refund := Trunc8(o.amount - repay);
        plan.d == if refund > 0.0 then Pay(o, RepayRefund, Underlying(m), refund) else Nop
      requires plan.e == PutBorrowAt(o, Key(o.sender, m), balance - repay, market.borrowIndex)
      requires plan.f == PutMarketAt(o, m, Accrue(Returned(market, repay), o.block)) && IdleFrom(plan, 6)
      modifies this`markets, this`borrows, this`transfers, this`fuse, this`done
      ensures OnTrack() && (ok ==> done == 9)
    {
      var refund := Trunc8(o.amount - repay);
      ok := true;
      if refund > 0.0 {
        ok := CreateTransfer(Out(o.trace, RepayRefund), Transfer(Underlying(m), refund, o.sender));
      } else {
        Skip();
      }
      if !ok { return; }
      ok := UpdateBorrow(Key(o.sender, m), Borrow(balance - repay, market.borrowIndex, o.id), borrow.version);
      if !ok { return; }
      ok := TakeBack(o, m, market, repay);
      if ok { Finish(); }
    }

    /** The market row of a repayment, with total borrows clamped at zero. */
    method TakeBack(o: Output, m: nat, market: Market, repay: real) returns (ok: bool)
      requires OnTrack() && m in markets && (market.version == markets[m].version || market.version < o.id)
      requires market.version == markets[m].version ==> Due(PutMarketAt(o, m, Accrue(Returned(market, repay), o.block)))
      modifies this`markets, this`fuse, this`done
      ensures OnTrack() && done == old(done) + (if ok then 1 else 0)
    {
      var row := market.(borrows := Trunc16(market.borrows - repay));
      row := row.(cash := Trunc16(row.cash + repay));
      if row.borrows < 0.0 { row := row.(borrows := 0.0); }
      var accrued, _ := AccrueInterest(row, o.block);
      ok := UpdateMarket(m, accrued.(version := o.id), market.version);
    }

    method HandleQuickBorrow(o: Output, si: nat, bi: nat, amount: real) returns (end: Ending)
      requires si in markets && bi in markets
      requires Begins(QuickBorrowPlan(o, si, bi, Look(Stored(), o, o.sender, si, bi), amount))
      modifies this`markets, this`supplies, this`borrows, this`txs, this`transfers, this`fuse, this`done
      ensures Ends(o, end)
    {
      var ready;
      ghost var before := Look(Stored(), o, o.sender, si, bi);
      assert Sees(before, o, o.sender, si, bi);
      ready, end := OpenQuickBorrow(o, si, bi, amount, before);
      if !ready { return; }
      QuickBorrowRowsKept(base, plan, o, si, bi, amount);
      var v, known := Read(o, o.sender, si, bi);
      end := PledgeAndLend(o, si, bi, amount, v, known, v.supply.value, v.borrow.value);
    }

    /** The first checks of a quick borrow, and its two rows. */
    method OpenQuickBorrow(o: Output, si: nat, bi: nat, amount: real, ghost v: View) returns (ready: bool, end: Ending)
      requires Sees(v, o, o.sender, si, bi) && Begins(QuickBorrowPlan(o, si, bi, v, amount))
      modifies this`supplies, this`borrows, this`fuse, this`done
      ensures if ready then OnTrack() && done == 2 && plan.a == CreateSupply(Key(o.sender, si))
        && plan.b == CreateBorrow(Key(o.sender, bi))
                             && v.bm.version < o.id && si != bi && !v.sm.closed && !v.bm.closed
                             && v.sm.p.collateralFactor > 0.0
                             && Key(o.sender, si) in supplies && Key(o.sender, bi) in borrows
              else Ends(o, end)
    {
      if markets[bi].version >= o.id {
        SkipRows();
        Finish();
        return false, Finished;
      }
      if si == bi {
        SkipRows();
        return false, Refuses(Refuse(SameAsset));
      }
      if markets[si].closed || markets[bi].closed || markets[si].p.collateralFactor <= 0.0 {
        SkipRows();
        return false, Refuses(Refuse(if markets[si].closed || markets[bi].closed then MarketClosed
          else PledgeDisallowed));
      }
      var ok, _ := GetOrCreateSupply(Key(o.sender, si));
      if !ok { return false, Failed; }
      var made, _ := GetOrCreateBorrow(Key(o.sender, bi));
      if !made { return false, Failed; }
      return true, Finished;
    }

    /** A quick borrow past its first checks. */
    method PledgeAndLend(o: Output, si: nat, bi: nat, amount: real, v: View, known: bool, supply: Supply,
                         borrow: Borrow)
        returns (end: Ending)
      requires OnTrack() && done == 2 && plan == QuickBorrowPlan(o, si, bi, v, amount) && si != bi
      requires si in markets && bi in markets && v.sm.version == markets[si].version
      requires v.bm.version == markets[bi].version
      requires v.bm.version < o.id && !v.sm.closed && !v.bm.closed && v.sm.p.collateralFactor > 0.0
      requires v.tx == Find(txs, o.trace)
      requires Key(o.sender, si) in supplies && supply == supplies[Key(o.sender, si)]
      requires supply.collaterals == v.Collaterals()
      requires Key(o.sender, bi) in borrows && borrow == borrows[Key(o.sender, bi)]
      requires BorrowBalance(borrow, v.bm) == v.Debt()
      modifies this`markets, this`supplies, this`borrows, this`txs, this`transfers, this`fuse, this`done
      ensures Ends(o, end)
    {
      var ctokens := 0.0;
      if v.tx.None? {
        if !known { return Failed; }
        var verdict := JudgeQuickBorrow(o, v, amount);
        if !verdict.Accept? { return Refuses(verdict); }
        ctokens := CTokensOf(verdict.extra);
      } else {
        ctokens := CTokensOf(v.tx.value);
      }
      var ok := Record(o, Pledging(ctokens));
      if !ok { return Failed; }
      ok := WriteQuickBorrow(o, si, bi, amount, v, ctokens, supply, borrow);
      return if ok then Finished else Failed;
    }

    /** The checks of a first attempt. */
    method JudgeQuickBorrow(o: Output, v: View, amount: real) returns (verdict: Verdict)
      ensures verdict == QuickBorrowVerdict(o, v, amount)
      ensures verdict.Accept? ==> verdict.extra.Pledging?
    {
      var liquidity := v.liquidity;
      var ctokens := o.amount;
      if o.asset.CToken? {
        liquidity := liquidity + SupplyWorth(Supply(o.amount, 0), v.sm);
      } else {
        liquidity := liquidity + Mul(Mul(o.amount, v.sm.p.collateralFactor), v.sm.price);
        ctokens := Trunc8(Div(o.amount, CurExchangeRate(v.sm)));
      }
      if !BorrowAllowed(v.bm, amount) || Mul(amount, v.bm.price) > liquidity { return Refuse(BorrowDenied); }
      if ctokens <= 0.0 { return Refuse(AmountTooSmall); }
      if !PledgeFits(v.sm, v.pledged, ctokens) { return Refuse(MaxPledgeExceeded); }
      return Accept(Pledging(ctokens));
    }

    method WriteQuickBorrow(o: Output, si: nat, bi: nat, amount: real, v: View, ctokens: real, supply: Supply,
                            borrow: Borrow)
        returns (ok: bool)
      requires OnTrack() && done == 3 && si != bi
      requires si in markets && bi in markets && v.sm.version == markets[si].version
      requires v.bm.version == markets[bi].version
      requires Key(o.sender, si) in supplies && supply == supplies[Key(o.sender, si)]
      requires Key(o.sender, bi) in borrows && borrow == borrows[Key(o.sender, bi)]
      requires plan.d == PutSupplyAt(o, Key(o.sender, si), supply.collaterals + ctokens)
      requires plan.e == PutBorrowAt(o, Key(o.sender, bi), Trunc16(BorrowBalance(borrow, v.bm) + amount),
        v.bm.borrowIndex)
      requires plan.f == Pay(o, QuickBorrowTransfer, Underlying(bi), amount)
      requires plan.g == PutMarketAt(o, si, Accrue(if o.asset.CToken? then v.sm
        else Minted(v.sm, ctokens, o.amount), o.block))
      requires plan.h == PutMarketAt(o, bi, Accrue(Lent(v.bm, amount), o.block)) && plan.i == Nop
      modifies this`markets, this`supplies, this`borrows, this`transfers, this`fuse, this`done
      ensures OnTrack() && (ok ==> done == 9)
    {
      ok := UpdateSupply(Key(o.sender, si), Supply(supply.collaterals + ctokens, o.id), supply.version);
      if !ok { return; }
      var principal := Trunc16(BorrowBalance(borrow, v.bm) + amount);
      ok := UpdateBorrow(Key(o.sender, bi), Borrow(principal, v.bm.borrowIndex, o.id), borrow.version);
      if !ok { return; }
      ok := CreateTransfer(Out(o.trace, QuickBorrowTransfer), Transfer(Underlying(bi), amount, o.sender));
      if !ok { return; }
      ok := TakeIn(o, si, v.sm, ctokens);
      if !ok { return; }
      ok := LendOut(o, bi, v.bm, amount);
      if ok { Finish(); }
    }

    /** The market row of the deposit: cTokens that were sent are not minted again. */
    method TakeIn(o: Output, m: nat, market: Market, ctokens: real) returns (ok: bool)
      requires m in markets && market.version == markets[m].version
      requires Due(PutMarketAt(o, m, Accrue(if o.asset.CToken? then market
        else Minted(market, ctokens, o.amount), o.block)))
      modifies this`markets, this`fuse, this`done
      ensures OnTrack() && done == old(done) + (if ok then 1 else 0)
      ensures markets.Keys == old(markets).Keys && forall n :: n in markets && n != m ==> markets[n] == old(markets)[n]
    {
      var row := market;
      if !o.asset.CToken? {
        row := row.(ctokens := Trunc16(row.ctokens + ctokens));
        row := row.(cash := Trunc16(row.cash + o.amount));
      }
      var accrued, _ := AccrueInterest(row, o.block);
      ok := UpdateMarket(m, accrued.(version := o.id), market.version);
    }

    method HandleLiquidate(o: Output, user: nat, si: nat, bi: nat) returns (end: Ending)
      requires si in markets && bi in markets && Begins(LiquidatePlan(o, user, si, bi, Look(Stored(), o, user, si, bi)))
      modifies this`markets, this`supplies, this`borrows, this`txs, this`transfers, this`fuse, this`done
      ensures Ends(o, end)
    {
      var v, known := Read(o, user, si, bi);
      end := Liquidate(o, user, si, bi, v, known);
    }

    method Liquidate(o: Output, user: nat, si: nat, bi: nat, v: View, known: bool) returns (end: Ending)
      requires Sees(v, o, user, si, bi) && Begins(LiquidatePlan(o, user, si, bi, v))
      modifies this`markets, this`supplies, this`borrows, this`txs, this`transfers, this`fuse, this`done
      ensures Ends(o, end)
    {
      SkipRows();
      if v.bm.version >= o.id {
        Finish();
        return Finished;
      }
      if v.supply.None? || v.borrow.None? {
        if sysversion >= 5 { return Refuses(Refuse(if v.supply.None? then SupplyNotFound else BorrowNotFound)); }
        Finish();
        return Finished;
      }
      end := Seize(o, user, si, bi, v, known, v.supply.value, v.borrow.value);
    }

    /** A liquidation past its first checks. */
    method Seize(o: Output, user: nat, si: nat, bi: nat, v: View, known: bool, supply: Supply, borrow: Borrow)
        returns (end: Ending)
      requires OnTrack() && done == 2 && plan == LiquidatePlan(o, user, si, bi, v) && Sees(v, o, user, si, bi)
      requires v.bm.version < o.id
      requires v.supply == Some(supply) && v.borrow == Some(borrow)
      modifies this`markets, this`supplies, this`borrows, this`txs, this`transfers, this`fuse, this`done
      ensures Ends(o, end)
    {
      var extra;
      if v.tx.None? {
        if v.closed { return Refuses(Refuse(MarketClosed)); }
        if !known { return Failed; }
        if v.liquidity >= 0.0 { return Refuses(Refuse(SeizeDenied)); }
        var t := ComputeTerms(o.amount, supply.collaterals, BorrowBalance(borrow, v.bm), v.sm, v.bm);
        extra := Seized(t.ctokens, t.repay);
      } else {
        extra := v.tx.value;
      }
      var ok := Record(o, extra);
      if !ok { return Failed; }
      ok := WriteSeizure(o, user, si, bi, v, CTokensOf(extra), RepayOf(extra), supply, borrow);
      return if ok then Finished else Failed;
    }

    /** The rows and transfers of a liquidation. If both markets are one, the second update carries
        the version it was read at, which the first has replaced: it fails, and the next attempt
        finds the market at this output already. */
    method WriteSeizure(o: Output, user: nat, si: nat, bi: nat, v: View, ctokens: real, repay: real, supply: Supply,
                        borrow: Borrow)
        returns (ok: bool)
      requires OnTrack() && done == 3 && v.bm.version < o.id
      requires si in markets && bi in markets && v.sm.version == markets[si].version
      requires v.bm.version == markets[bi].version
      requires Key(user, si) in supplies && supply == supplies[Key(user, si)]
      requires Key(user, bi) in borrows && borrow == borrows[Key(user, bi)]
      requires plan.d == PutSupplyAt(o, Key(user, si), Trunc16(supply.collaterals - ctokens))
      requires plan.e == PutBorrowAt(o, Key(user, bi), Trunc16(BorrowBalance(borrow, v.bm) - repay), v.bm.borrowIndex)
      requires plan.f == Pay(o, LiquidateTransfer, CToken(si), ctokens)
      requires plan.g == if o.amount - repay > 0.0 then Pay(o, LiquidateRefund, Underlying(bi), o.amount - repay)
        else Nop
      requires plan.h == PutMarketAt(o, si, Accrue(v.sm, o.block))
      requires plan.i == if si == bi then Nop else PutMarketAt(o, bi, Accrue(Returned(v.bm, repay), o.block))
      modifies this`markets, this`supplies, this`borrows, this`transfers, this`fuse, this`done
      ensures OnTrack() && (ok ==> done == 9)
    {
      ok := UpdateSupply(Key(user, si), Supply(Trunc16(supply.collaterals - ctokens), o.id), supply.version);
      if !ok { return; }
      var principal := Trunc16(BorrowBalance(borrow, v.bm) - repay);
      ok := UpdateBorrow(Key(user, bi), Borrow(principal, v.bm.borrowIndex, o.id), borrow.version);
      if !ok { return; }
      ok := PaySeizure(o, si, bi, ctokens, repay);
      if !ok { return; }
      ok := UpdateSeizedMarkets(o, si, bi, v.sm, v.bm, repay);
    }

    method UpdateSeizedMarkets(o: Output, si: nat, bi: nat, sm: Market, bm: Market, repay: real) returns (ok: bool)
      requires OnTrack() && done == 7 && bm.version < o.id
      requires si in markets && bi in markets && sm.version == markets[si].version && bm.version == markets[bi].version
      requires plan.h == PutMarketAt(o, si, Accrue(sm, o.block))
      requires plan.i == if si == bi then Nop else PutMarketAt(o, bi, Accrue(Returned(bm, repay), o.block))
      modifies this`markets, this`fuse, this`done
      ensures OnTrack() && (ok ==> done == 9)
    {
      var row, _ := AccrueInterest(sm, o.block);
      ok := UpdateMarket(si, row.(version := o.id), sm.version);
      if !ok { return; }
      ok := TakeBack(o, bi, bm, repay);
    }

    method PaySeizure(o: Output, si: nat, bi: nat, ctokens: real, repay: real) returns (ok: bool)
      requires OnTrack() && done == 5 && plan.f == Pay(o, LiquidateTransfer, CToken(si), ctokens)
      requires plan.g == if o.amount - repay > 0.0 then Pay(o, LiquidateRefund, Underlying(bi), o.amount - repay)
        else Nop
      modifies this`transfers, this`fuse, this`done
      ensures OnTrack() && (ok ==> done == 7)
    {
      ok := CreateTransfer(Out(o.trace, LiquidateTransfer), Transfer(CToken(si), ctokens, o.sender));
      if !ok { return; }
      var refund := o.amount - repay;
      if refund > 0.0 {
        ok := CreateTransfer(Out(o.trace, LiquidateRefund), Transfer(Underlying(bi), refund, o.sender));
      } else {
        Skip();
      }
    }

    method HandlePrice(o: Output, m: nat, price: real, time: int) returns (end: Ending)
      requires m in markets && Begins(PricePlan(o, m, markets[m], price, time))
      modifies this`markets, this`fuse, this`done
      ensures Ends(o, end)
    {
      SkipRows();
      var market := AfterFind(markets[m]);
      if market.version >= o.id || market.priceUpdatedAt > time {
        Finish();
        return Finished;
      }
      Skip();
      market := market.(price := price, priceUpdatedAt := time);
      var accrued, _ := AccrueInterest(market, o.block);
      var ok := UpdateMarket(m, accrued.(version := o.id), markets[m].version);
      if !ok { return Failed; }
      Finish();
      return Finished;
    }

    method HandleWithdraw(o: Output, proposal: nat, m: nat, amount: real, opponent: nat) returns (end: Ending)
      requires m in markets && Begins(WithdrawPlan(o, proposal, m, markets[m], amount, opponent))
      modifies this`markets, this`transfers, this`fuse, this`done
      ensures Ends(o, end)
    {
      SkipRows();
      var market := AfterFind(markets[m]);
      if amount > market.reserves {
        Finish();
        return Finished;
      }
      Skip();
      var ok := CreateTransfer(Withdrawal(proposal), Transfer(Underlying(m), amount, opponent));
      if !ok { return Failed; }
      market := market.(cash := market.cash - amount);
      market := market.(reserves := market.reserves - amount);
      var accrued, _ := AccrueInterest(market, o.block);
      ok := UpdateMarket(m, accrued.(version := o.id), markets[m].version);
      if !ok { return Failed; }
      Finish();
      return Finished;
    }

    // ---- Outputs ---------------------------------------------------------------------------------------------

    /** An output that concerns no market is passed over. */
    method Ignore() returns (end: Ending)
      requires Begins(IDLE)
      modifies this`done
      ensures OnTrack() && done == 9 && end == Finished
    {
      SkipRows();
      Finish();
      return Finished;
    }

    /** The actions on the market of the asset that was sent. */
    method DispatchOwn(o: Output) returns (end: Ending)
      requires Begins(Slots(Stored(), o))
      requires o.action.DoSupply? || o.action.DoRedeem? || o.action.DoPledge? || o.action.DoRepay?
        || o.action.DoQuickPledge?
      modifies this`markets, this`supplies, this`borrows, this`txs, this`transfers, this`fuse, this`done
      ensures Ends(o, end)
    {
      var m := MarketOf(o.asset);
      var wanted := if o.action.DoRedeem? || o.action.DoPledge? then IsCToken(Stored(), o.asset)
        else IsMarket(Stored(), o.asset);
      if !wanted {
        end := Ignore();
        return;
      }
      match o.action
      case DoSupply => end := HandleSupply(o, m);
      case DoRedeem => end := HandleRedeem(o, m);
      case DoPledge => end := HandlePledge(o, m);
      case DoRepay => end := HandleRepay(o, m);
      case DoQuickPledge => end := HandleQuickPledge(o, m);
    }

    /** The actions on a market the memo names. */
    method DispatchNamed(o: Output) returns (end: Ending)
      requires Begins(Slots(Stored(), o))
      requires o.action.DoUnpledge? || o.action.DoBorrow? || o.action.DoQuickRedeem?
      modifies this`markets, this`supplies, this`borrows, this`txs, this`transfers, this`fuse, this`done
      ensures Ends(o, end)
    {
      var m, amount := MarketOf(o.action.asset), Trunc8(o.action.amount);
      var wanted := if o.action.DoBorrow? then IsMarket(Stored(), o.action.asset)
        else IsCToken(Stored(), o.action.asset);
      if !wanted {
        end := Ignore();
        return;
      }
      match o.action
      case DoUnpledge(_, _) => end := HandleUnpledge(o, m, amount);
      case DoBorrow(_, _) => end := HandleBorrow(o, m, amount);
      case DoQuickRedeem(_, _) => end := HandleQuickRedeem(o, m, amount);
    }

    /** The actions on two markets. */
    method DispatchPair(o: Output) returns (end: Ending)
      requires Begins(Slots(Stored(), o)) && (o.action.DoQuickBorrow? || o.action.DoLiquidate?)
      modifies this`markets, this`supplies, this`borrows, this`txs, this`transfers, this`fuse, this`done
      ensures Ends(o, end)
    {
      var own, named := MarketOf(o.asset), MarketOf(o.action.asset);
      match o.action
      case DoQuickBorrow(a, memo) =>
        if IsMarket(Stored(), a) && (IsMarket(Stored(), o.asset) || IsCToken(Stored(), o.asset)) {
          end := HandleQuickBorrow(o, own, named, Trunc8(memo));
        } else {
          end := Ignore();
        }
      case DoLiquidate(user, a) =>
        if IsCToken(Stored(), a) && IsMarket(Stored(), o.asset) {
          end := HandleLiquidate(o, user, named, own);
        } else {
          end := Ignore();
        }
    }

    /** The actions that concern no account, and what is no action. */
    method DispatchOther(o: Output) returns (end: Ending)
      requires Begins(Slots(Stored(), o))
      requires (o.action.DoPrice? || o.action.DoWithdraw? || o.action.Unreadable? || o.action.Unknown?)
      modifies this`markets, this`transfers, this`fuse, this`done
      ensures Ends(o, end)
    {
      match o.action
      case DoPrice(a, price, time) =>
        if IsMarket(Stored(), a) { end := HandlePrice(o, a.market, price, time); } else { end := Ignore(); }
      case DoWithdraw(proposal, a, memo, opponent) =>
        if IsMarket(Stored(), a) {
          end := HandleWithdraw(o, proposal, a.market, Trunc8(memo), opponent);
        } else {
          end := Ignore();
        }
      case Unreadable => end := Ignore();
      case Unknown =>
        SkipRows();
        end := Refuses(RefuseV0);
    }

    method Dispatch(o: Output) returns (end: Ending)
      requires Begins(Slots(Stored(), o))
      modifies this`markets, this`supplies, this`borrows, this`txs, this`transfers, this`fuse, this`done
      ensures Ends(o, end)
    {
      match o.action
      case DoSupply | DoRedeem | DoPledge | DoRepay | DoQuickPledge => end := DispatchOwn(o);
      case DoUnpledge(_, _) | DoBorrow(_, _) | DoQuickRedeem(_, _) => end := DispatchNamed(o);
      case DoQuickBorrow(_, _) | DoLiquidate(_, _) => end := DispatchPair(o);
      case _ => end := DispatchOther(o);
    }

    /** The refund of an output that was refused. */
    method RefundOutput(o: Output, verdict: Verdict) returns (ok: bool)
      requires OnTrack() && done == 2 && Refunds(plan, o, verdict)
      modifies this`transfers, this`fuse, this`done
      ensures OnTrack() && (ok ==> done == 9)
    {
      var id := if verdict.Refuse? then Refund(o.trace, verdict.reason) else RefundV0(o.trace);
      ok := CreateTransfer(id, Transfer(o.asset, o.amount, o.sender));
      if ok { Finish(); }
    }

    /** Handles one output, as far as the process lives: it has made some of the writes the output
        calls for in the database it found, and all of them if it reports success. */
    method HandleOutput(o: Output) returns (ok: bool)
      modifies this`markets, this`supplies, this`borrows, this`txs, this`transfers, this`fuse, this`done, this`base,
        this`plan
      ensures OnTrack() && base == old(Stored()) && plan == Slots(old(Stored()), o) && (ok ==> done == 9)
    {
      base, plan, done := Stored(), Slots(Stored(), o), 0;
      var end := Dispatch(o);
      match end
      case Finished => ok := true;
      case Failed => ok := false;
      case Refuses(verdict) => ok := RefundOutput(o, verdict);
    }

    /** One life of the process: it handles outputs in order, saving the checkpoint after each. What
        it leaves behind is an uninterrupted run of the outputs it finished, and part of the next. */
    method Run() returns (ghost count: nat, ghost part: nat)
      requires checkpoint <= |queue|
      modifies this
      ensures old(checkpoint) <= checkpoint <= |queue| && count == checkpoint - old(checkpoint)
      ensures Midway(Worker(old(Stored()), queue[old(checkpoint)..]), Worker(Stored(), queue[checkpoint..]), count,
        part)
    {
      ghost var start, from := Stored(), checkpoint;
      ghost var todo := queue[from..];
      count, part := 0, 0;
      assert todo[..0] == [];
      while checkpoint < |queue|
        invariant from <= checkpoint <= |queue| && count == checkpoint - from
        invariant Stored() == Crash.Run(start, todo[..count])
        decreases |queue| - checkpoint
      {
        ghost var before := Stored();
        assert todo[count] == queue[checkpoint];
        var ok := HandleOutput(queue[checkpoint]);
        if ok { ok := Burn(); }
        if !ok {
          part := done;
          Interrupted(start, todo, count, part, before, Stored());
          assert todo[count..] == queue[checkpoint..];
          return;
        }
        OneMore(start, todo, count, before);
        checkpoint := checkpoint + 1;
        count := count + 1;
      }
      assert todo[count..] == queue[checkpoint..] == [];
    }
  }

  lemma OneMore(start: Db, queue: seq<Output>, count: nat, before: Db)
    requires count < |queue| && before == Crash.Run(start, queue[..count])
    ensures Step(before, queue[count]) == Crash.Run(start, queue[..count + 1])
  {
    RunAppend(start, queue[..count], queue[count]);
    assert queue[..count] + [queue[count]] == queue[..count + 1];
  }

  lemma Interrupted(start: Db, queue: seq<Output>, count: nat, part: nat, before: Db, now: Db)
    requires count < |queue| && part <= 9 && before == Crash.Run(start, queue[..count])
    requires now == RunTo(before, Slots(before, queue[count]), part)
    ensures Midway(Worker(start, queue), Worker(now, queue[count..]), count, part)
  {
  }

  // ---- Any number of lives --------------------------------------------------------------------------------------

  lemma {:induction false} RunInTwo(db: Db, queue: seq<Output>, n: nat)
    requires n <= |queue|
    ensures Crash.Run(db, queue) == Crash.Run(Crash.Run(db, queue[..n]), queue[n..])
    decreases n
  {
    if n == 0 {
      assert queue[..0] == [] && queue[0..] == queue;
    } else {
      assert queue[..n][1..] == queue[1..][..n - 1] && queue[1..][n - 1..] == queue[n..];
      RunInTwo(Step(db, queue[0]), queue[1..], n - 1);
    }
  }

  /** One life does not change what the whole queue leads to. */
  lemma LifeKeepsRun(x: Worker, y: Worker, count: nat, part: nat)
    requires Midway(x, y, count, part)
    ensures Crash.Run(y.db, y.queue) == Crash.Run(x.db, x.queue)
  {
    RunInTwo(x.db, x.queue, count);
    if y.queue != [] { ReplayCompletes(Crash.Run(x.db, x.queue[..count]), y.queue[0], part); }
  }

  /** A life of the process leads from one state to the other. */
  ghost predicate Lived(x: Worker, y: Worker) { exists count: nat, part: nat :: Midway(x, y, count, part) }

  /** However many lives it takes, wherever each of them ended, once the queue is worked off the
      stores are those of one uninterrupted run. */
  lemma {:induction false} LivesAreInvisible(lives: seq<Worker>)
    requires lives != [] && forall i :: 0 <= i < |lives| - 1 ==> Lived(lives[i], lives[i + 1])
    ensures var first, last := lives[0], lives[|lives| - 1];
      && Crash.Run(last.db, last.queue) == Crash.Run(first.db, first.queue)
      && (last.queue == [] ==> last.db == Crash.Run(first.db, first.queue))
    decreases |lives|
  {
    var n := |lives| - 1;
    if n > 0 {
      LivesAreInvisible(lives[..n]);
      assert Lived(lives[n - 1], lives[n - 1 + 1]);
      var count: nat, part: nat :| Midway(lives[n - 1], lives[n], count, part);
      LifeKeepsRun(lives[n - 1], lives[n], count, part);
    }
  }
}
