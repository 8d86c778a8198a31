/** Crash and replay: re-running an output from any prefix of its writes completes exactly
    the run that was interrupted. */
module Replay {
  import opened Decimal
  import opened Core
  import opened Account
  import opened Handlers

  /** Slot i is behind us and done, or still ahead and planned the same way. */
  predicate SlotResumed(db: Db, s: Write, t: Write, behind: bool)
  {
    if behind then Done(db, t) else s == t || (Done(db, s) && Done(db, t))
  }

  /** In db, with the first n writes of plan s made, plan t does what is left of s. */
  predicate Resumed(db: Db, s: Batch, t: Batch, n: nat)
  {
    && SlotResumed(db, s.a, t.a, n > 0)
    && SlotResumed(db, s.b, t.b, n > 1)
    && SlotResumed(db, s.c, t.c, n > 2)
    && SlotResumed(db, s.d, t.d, n > 3)
    && SlotResumed(db, s.e, t.e, n > 4)
    && SlotResumed(db, s.f, t.f, n > 5)
    && SlotResumed(db, s.g, t.g, n > 6)
    && SlotResumed(db, s.h, t.h, n > 7)
    && SlotResumed(db, s.i, t.i, n > 8)
  }

  /** The next write of a plan whose earlier writes are all done. */
  predicate Next(db: Db, s: Batch, n: nat)
  {
    n < 9 && Resumed(db, s, s, n) && !Done(db, s.At(n))
  }

  lemma DoneKept(db: Db, w: Write, x: Write)
    ensures Done(db, x) ==> Done(Apply(db, w), x)
    ensures Done(Apply(db, w), w)
  {
  }

  /** A plan is its own continuation: every write it makes is done afterwards. */
  lemma Advance(db: Db, s: Batch, n: nat)
    requires Next(db, s, n)
    ensures Resumed(Apply(db, s.At(n)), s, s, n + 1)
  {
    var w := s.At(n);
    DoneKept(db, w, s.a);
    DoneKept(db, w, s.b);
    DoneKept(db, w, s.c);
    DoneKept(db, w, s.d);
    DoneKept(db, w, s.e);
    DoneKept(db, w, s.f);
    DoneKept(db, w, s.g);
    DoneKept(db, w, s.h);
    DoneKept(db, w, s.i);
  }

  // ---- What each write does to what a handler reads -----------------------------------------

  lemma LookSame(db: Db, db': Db, o: Output, user: nat, s: nat, b: nat)
    requires db'.markets == db.markets && db'.supplies == db.supplies && db'.borrows == db.borrows
    requires db'.sysversion == db.sysversion
    ensures Look(db', o, user, s, b) == Look(db, o, user, s, b).(tx := Find(db'.txs, o.trace))
  {
    var live := map[s := Live(db, s, o.block), b := Live(db, b, o.block)];
    SupplyWorthsFrame(db, db', live, user);
    DebtWorthsFrame(db, db', live, user);
    assert Pledges(db', s) == Pledges(db, s);
  }

  lemma LookNewSupply(db: Db, o: Output, user: nat, s: nat, b: nat)
    requires Key(user, s) !in db.supplies
    ensures var db' := db.(supplies := db.supplies[Key(user, s) := EMPTY_SUPPLY]);
      Look(db', o, user, s, b)
        == Look(db, o, user, s, b).(supply := Some(EMPTY_SUPPLY), closed := HasClosedMarkets(db', user))
  {
    NewSupplyRow(db, map[s := Live(db, s, o.block), b := Live(db, b, o.block)], user, Key(user, s), s);
  }

  lemma LookNewBorrow(db: Db, o: Output, user: nat, s: nat, b: nat)
    requires Key(user, b) !in db.borrows
    ensures var db' := db.(borrows := db.borrows[Key(user, b) := EMPTY_BORROW]);
      Look(db', o, user, s, b)
        == Look(db, o, user, s, b).(borrow := Some(EMPTY_BORROW), closed := HasClosedMarkets(db', user))
  {
    var db' := db.(borrows := db.borrows[Key(user, b) := EMPTY_BORROW]);
    NewBorrowRow(db, map[s := Live(db, s, o.block), b := Live(db, b, o.block)], user, Key(user, b));
    assert Pledges(db', s) == Pledges(db, s);
  }

  /** Two views that differ at most in the account's standing and the rows named. */
  predicate Alike(v: View, w: View) { v.tx == w.tx && v.sm == w.sm && v.bm == w.bm && v.sysversion == w.sysversion }

  lemma LookPutSupply(db: Db, o: Output, user: nat, s: nat, b: nat, row: Supply)
    ensures var v, w := Look(db, o, user, s, b), Look(db.(supplies := db.supplies[Key(user, s) := row]), o, user, s, b);
      Alike(v, w) && w.borrow == v.borrow && w.supply == Some(row)
  {
  }

  lemma LookPutBorrow(db: Db, o: Output, user: nat, s: nat, b: nat, row: Borrow)
    ensures var v, w := Look(db, o, user, s, b), Look(db.(borrows := db.borrows[Key(user, b) := row]), o, user, s, b);
      Alike(v, w) && w.supply == v.supply && w.borrow == Some(row)
  {
  }

  lemma LookPutMarket(db: Db, o: Output, user: nat, s: nat, b: nat, m: nat, row: Market)
    requires s in db.markets && b in db.markets && (m == s || m == b)
    ensures var v, w := Look(db, o, user, s, b), Look(db.(markets := db.markets[m := row]), o, user, s, b);
      && w.tx == v.tx && w.supply == v.supply && w.borrow == v.borrow && w.sysversion == v.sysversion
      && (if m == s then w.sm.version == row.version && w.sm.closed == row.closed && w.sm.p == row.p else w.sm == v.sm)
      && (if m == b then w.bm.version == row.version && w.bm.closed == row.closed else w.bm == v.bm)
  {
  }

  /** How one write of an output's plan changes what the next attempt reads. */
  predicate After(v: View, w: View, x: Write, s: nat, b: nat)
  {
    match x
    case CreateTx(_, extra) => w == v.(tx := Some(extra))
    case PutTransfer(_, _) => w == v
    case CreateSupply(_) => w == v.(supply := Some(EMPTY_SUPPLY), closed := w.closed)
    case CreateBorrow(_) => w == v.(borrow := Some(EMPTY_BORROW), closed := w.closed)
    case PutSupply(_, row) => Alike(v, w) && w.borrow == v.borrow && w.supply == Some(row)
    case PutBorrow(_, row) => Alike(v, w) && w.supply == v.supply && w.borrow == Some(row)
    case PutMarket(m, row) =>
      && w.tx == v.tx && w.supply == v.supply && w.borrow == v.borrow && w.sysversion == v.sysversion
      && (if m == s then w.sm.version == row.version && w.sm.closed == row.closed && w.sm.p == row.p else w.sm == v.sm)
      && (if m == b then w.bm.version == row.version && w.bm.closed == row.closed else w.bm == v.bm)
    case Nop => w == v
  }

  /** What the view knows about the rows it was read from. */
  predicate Seen(db: Db, o: Output, user: nat, s: nat, b: nat, v: View)
  {
    && (v.tx.Some? <==> o.trace in db.txs)
    && (v.supply.Some? <==> Key(user, s) in db.supplies)
    && (v.borrow.Some? <==> Key(user, b) in db.borrows)
  }

  /** Two writes for the same row or transfer, at the same version. */
  predicate SameTarget(x: Write, y: Write)
  {
    match x
    case PutSupply(k, row) => y.PutSupply? && y.key == k && y.supply.version == row.version
    case PutBorrow(k, row) => y.PutBorrow? && y.key == k && y.borrow.version == row.version
    case PutTransfer(id, _) => y.PutTransfer? && y.id == id
    case PutMarket(m, row) => y.PutMarket? && y.market == m && y.row.version == row.version
    case _ => x == y
  }

  /** Plan t follows plan s once its write n is made: it targets the same rows and agrees on all
      that is left, or it is idle and nothing is left. */
  predicate Follows(s: Batch, t: Batch, n: nat)
  {
    || (t == IDLE && (n < 4 ==> s.e == Nop) && (n < 5 ==> s.f == Nop) && (n < 6 ==> s.g == Nop)
        && (n < 7 ==> s.h == Nop) && (n < 8 ==> s.i == Nop) && n >= 3)
    || (&& t.a == s.a && t.b == s.b && t.c == s.c
        && SameTarget(s.d, t.d) && (n < 3 ==> t.d == s.d)
        && SameTarget(s.e, t.e) && (n < 4 ==> t.e == s.e)
        && SameTarget(s.f, t.f) && (n < 5 ==> t.f == s.f)
        && SameTarget(s.g, t.g) && (n < 6 ==> t.g == s.g)
        && SameTarget(s.h, t.h) && (n < 7 ==> t.h == s.h)
        && SameTarget(s.i, t.i) && (n < 8 ==> t.i == s.i))
  }

  /** A write in the name of output o: its trace, its version. */
  predicate Owned(o: Output, x: Write)
  {
    match x
    case CreateTx(trace, _) => trace == o.trace
    case PutSupply(_, row) => row.version == o.id
    case PutBorrow(_, row) => row.version == o.id
    case PutTransfer(id, _) => if id.Withdrawal? then o.action.DoWithdraw? && o.action.proposal == id.proposal
      else id.trace == o.trace
    case PutMarket(_, row) => row.version == o.id
    case _ => true
  }

  /** A write that touches only the rows a handler may touch. */
  predicate Legit(o: Output, user: nat, si: nat, bi: nat, x: Write)
  {
    && Owned(o, x)
    && match x
       case CreateSupply(k) => k == Key(user, si)
       case CreateBorrow(k) => k == Key(user, bi)
       case PutSupply(k, _) => k == Key(user, si)
       case PutBorrow(k, _) => k == Key(user, bi)
       case PutMarket(m, _) => m == si || m == bi
       case _ => true
  }

  predicate IsRefund(x: Write) { x.PutTransfer? && (x.id.Refund? || x.id.RefundV0?) }

  predicate IsPayment(x: Write) { x.PutTransfer? && (x.id.Out? || x.id.Withdrawal?) }

  /** Where a plan puts each kind of write: the third slot alone settles the output, by its
      transaction row or by its refund; after it come at most two transfers and one debt row. */
  predicate Arranged(s: Batch)
  {
    && (s.a == Nop || s.a.CreateSupply?)
    && (s.b == Nop || s.b.CreateBorrow?)
    && (s.c == Nop || s.c.CreateTx? || IsRefund(s.c))
    && (s.d == Nop || s.d.PutSupply? || s.d.PutBorrow? || s.d.PutMarket? || IsPayment(s.d))
    && (s.e == Nop || s.e.PutBorrow? || s.e.PutMarket? || IsPayment(s.e))
    && (s.f == Nop || s.f.PutMarket? || IsPayment(s.f))
    && (s.g == Nop || s.g.PutMarket? || IsPayment(s.g))
    && (s.h == Nop || s.h.PutMarket?)
    && (s.i == Nop || s.i.PutMarket?)
    && !(s.d.PutTransfer? && (s.e.PutTransfer? || s.f.PutTransfer? || s.g.PutTransfer?))
    && !(s.e.PutTransfer? && (s.f.PutTransfer? || s.g.PutTransfer?))
    && (s.f.PutTransfer? && s.g.PutTransfer? ==> s.f.id != s.g.id)
    && !(s.d.PutBorrow? && s.e.PutBorrow?)
  }

  /** Nothing but rows is written for an output that is not settled by a transaction. */
  predicate Settled(s: Batch)
  {
    && Arranged(s) && !s.d.PutMarket?
    && (s.c.CreateTx? || (s.d == Nop && s.e == Nop && s.f == Nop && s.g == Nop && s.h == Nop && s.i == Nop))
  }

  predicate LegitHead(o: Output, user: nat, si: nat, bi: nat, s: Batch)
  {
    && Legit(o, user, si, bi, s.a) && Legit(o, user, si, bi, s.b) && Legit(o, user, si, bi, s.c)
    && Legit(o, user, si, bi, s.d) && Legit(o, user, si, bi, s.e)
  }

  predicate LegitTail(o: Output, user: nat, si: nat, bi: nat, s: Batch)
  {
    && Legit(o, user, si, bi, s.f) && Legit(o, user, si, bi, s.g) && Legit(o, user, si, bi, s.h)
    && Legit(o, user, si, bi, s.i)
  }

  predicate Shaped(o: Output, user: nat, si: nat, bi: nat, s: Batch) 
  {
    Settled(s) && LegitHead(o, user, si, bi, s) && LegitTail(o, user, si, bi, s)
  }

  predicate MarketFollows(v: View, w: View, s: Batch, t: Batch, x: Write, si: nat, bi: nat, n: nat)
  {
    x.PutMarket? && After(v, w, x, si, bi) ==> Follows(s, t, n)
  }

  /** Creating a row, a transaction or a transfer leaves the plan as it was. */
  predicate Steady(v: View, w: View, s: Batch, t: Batch)
  {
    && (w == v ==> t == s)
    && (s.a != Nop && v.supply.None? && w == v.(supply := Some(EMPTY_SUPPLY), closed := w.closed) ==> t == s)
    && (s.b != Nop && v.borrow.None? && w == v.(borrow := Some(EMPTY_BORROW), closed := w.closed) ==> t == s)
    && (s.c.CreateTx? && v.tx.None? && w == v.(tx := Some(s.c.extra)) ==> t == s)
  }

  /** Updating a supply or borrow row changes only what the plan would write to that row. */
  predicate RowsFollow(v: View, w: View, s: Batch, t: Batch)
  {
    s.c.CreateTx? && v.tx.Some? && Alike(v, w) ==>
      && (s.d.PutSupply? && w.borrow == v.borrow && w.supply.Some? ==> t == s.(d := t.d) && SameTarget(s.d, t.d))
      && (s.d.PutBorrow? && w.supply == v.supply && w.borrow.Some? ==> t == s.(d := t.d) && SameTarget(s.d, t.d))
      && (s.e.PutBorrow? && w.supply == v.supply && w.borrow.Some? ==> t == s.(e := t.e) && SameTarget(s.e, t.e))
  }

  predicate MarketsFollow(v: View, w: View, s: Batch, t: Batch, si: nat, bi: nat)
  {
    s.c.CreateTx? && v.tx.Some? ==>
      && MarketFollows(v, w, s, t, s.e, si, bi, 4)
      && MarketFollows(v, w, s, t, s.f, si, bi, 5)
      && MarketFollows(v, w, s, t, s.g, si, bi, 6)
      && MarketFollows(v, w, s, t, s.h, si, bi, 7)
      && MarketFollows(v, w, s, t, s.i, si, bi, 8)
  }

  /** Plan s was made from view v and plan t from view w; whichever write of s leads from v to w,
      t does what is left of s. */
  predicate Coherent(o: Output, user: nat, si: nat, bi: nat, v: View, w: View, s: Batch, t: Batch)
  {
    Shaped(o, user, si, bi, s) && Steady(v, w, s, t) && RowsFollow(v, w, s, t) && MarketsFollow(v, w, s, t, si, bi)
  }

  lemma TargetDone(db: Db, x: Write, y: Write)
    requires SameTarget(x, y) && Done(db, x)
    ensures Done(db, y)
  {
  }

  lemma FollowsResumes(db: Db, s: Batch, t: Batch, n: nat)
    requires n < 9 && Resumed(db, s, s, n + 1) && Follows(s, t, n)
    ensures Resumed(db, s, t, n + 1)
  {
    if t != IDLE {
      if n >= 3 { TargetDone(db, s.d, t.d); }
      if n >= 4 { TargetDone(db, s.e, t.e); }
      if n >= 5 { TargetDone(db, s.f, t.f); }
      if n >= 6 { TargetDone(db, s.g, t.g); }
      if n >= 7 { TargetDone(db, s.h, t.h); }
      if n >= 8 { TargetDone(db, s.i, t.i); }
    }
  }

  lemma Conclude(db: Db, o: Output, user: nat, si: nat, bi: nat, v: View, w: View, s: Batch, t: Batch, n: nat)
    requires Coherent(o, user, si, bi, v, w, s, t) && Seen(db, o, user, si, bi, v)
    requires Next(db, s, n) && After(v, w, s.At(n), si, bi)
    ensures Resumed(Apply(db, s.At(n)), s, t, n + 1)
  {
    Advance(db, s, n);
    assert Follows(s, t, n);
    FollowsResumes(Apply(db, s.At(n)), s, t, n);
  }

  // ---- Each handler is coherent ---------------------------------------------------------------

  lemma SupplyShaped(o: Output, m: nat, v: View)
    ensures Shaped(o, o.sender, m, m, SupplyPlan(o, m, v))
  {
  }

  lemma SupplySteady(o: Output, m: nat, v: View, w: View)
    ensures Steady(v, w, SupplyPlan(o, m, v), SupplyPlan(o, m, w))
  {
  }

  lemma SupplyFollows(o: Output, m: nat, v: View, w: View)
    ensures var s, t := SupplyPlan(o, m, v), SupplyPlan(o, m, w);
      RowsFollow(v, w, s, t) && MarketsFollow(v, w, s, t, m, m)
  {
  }

  lemma SupplyCoherent(o: Output, m: nat, v: View, w: View)
    ensures Coherent(o, o.sender, m, m, v, w, SupplyPlan(o, m, v), SupplyPlan(o, m, w))
  {
    SupplyShaped(o, m, v);
    SupplySteady(o, m, v, w);
    SupplyFollows(o, m, v, w);
  }

  lemma RedeemShaped(o: Output, m: nat, v: View)
    ensures Shaped(o, o.sender, m, m, RedeemPlan(o, m, v))
  {
  }

  lemma RedeemSteady(o: Output, m: nat, v: View, w: View)
    ensures Steady(v, w, RedeemPlan(o, m, v), RedeemPlan(o, m, w))
  {
  }

  lemma RedeemFollows(o: Output, m: nat, v: View, w: View)
    ensures var s, t := RedeemPlan(o, m, v), RedeemPlan(o, m, w);
      RowsFollow(v, w, s, t) && MarketsFollow(v, w, s, t, m, m)
  {
  }

  lemma RedeemCoherent(o: Output, m: nat, v: View, w: View)
    ensures Coherent(o, o.sender, m, m, v, w, RedeemPlan(o, m, v), RedeemPlan(o, m, w))
  {
    RedeemShaped(o, m, v);
    RedeemSteady(o, m, v, w);
    RedeemFollows(o, m, v, w);
  }

  lemma PledgeShaped(o: Output, m: nat, v: View)
    ensures Shaped(o, o.sender, m, m, PledgePlan(o, m, v))
  {
  }

  lemma PledgeSteady(o: Output, m: nat, v: View, w: View)
    ensures Steady(v, w, PledgePlan(o, m, v), PledgePlan(o, m, w))
  {
  }

  lemma PledgeFollows(o: Output, m: nat, v: View, w: View)
    ensures var s, t := PledgePlan(o, m, v), PledgePlan(o, m, w);
      RowsFollow(v, w, s, t) && MarketsFollow(v, w, s, t, m, m)
  {
  }

  lemma PledgeCoherent(o: Output, m: nat, v: View, w: View)
    ensures Coherent(o, o.sender, m, m, v, w, PledgePlan(o, m, v), PledgePlan(o, m, w))
  {
    PledgeShaped(o, m, v);
    PledgeSteady(o, m, v, w);
    PledgeFollows(o, m, v, w);
  }

  lemma RepayShaped(o: Output, m: nat, v: View)
    ensures Shaped(o, o.sender, m, m, RepayPlan(o, m, v))
  {
  }

  lemma RepaySteady(o: Output, m: nat, v: View, w: View)
    ensures Steady(v, w, RepayPlan(o, m, v), RepayPlan(o, m, w))
  {
  }

  lemma RepayFollows(o: Output, m: nat, v: View, w: View)
    ensures var s, t := RepayPlan(o, m, v), RepayPlan(o, m, w);
      RowsFollow(v, w, s, t) && MarketsFollow(v, w, s, t, m, m)
  {
  }

  lemma RepayCoherent(o: Output, m: nat, v: View, w: View)
    ensures Coherent(o, o.sender, m, m, v, w, RepayPlan(o, m, v), RepayPlan(o, m, w))
  {
    RepayShaped(o, m, v);
    RepaySteady(o, m, v, w);
    RepayFollows(o, m, v, w);
  }

  lemma QuickPledgeShaped(o: Output, m: nat, v: View)
    ensures Shaped(o, o.sender, m, m, QuickPledgePlan(o, m, v))
  {
  }

  lemma QuickPledgeSteady(o: Output, m: nat, v: View, w: View)
    ensures Steady(v, w, QuickPledgePlan(o, m, v), QuickPledgePlan(o, m, w))
  {
  }

  lemma QuickPledgeFollows(o: Output, m: nat, v: View, w: View)
    ensures var s, t := QuickPledgePlan(o, m, v), QuickPledgePlan(o, m, w);
      RowsFollow(v, w, s, t) && MarketsFollow(v, w, s, t, m, m)
  {
  }

  lemma QuickPledgeCoherent(o: Output, m: nat, v: View, w: View)
    ensures Coherent(o, o.sender, m, m, v, w, QuickPledgePlan(o, m, v), QuickPledgePlan(o, m, w))
  {
    QuickPledgeShaped(o, m, v);
    QuickPledgeSteady(o, m, v, w);
    QuickPledgeFollows(o, m, v, w);
  }

  lemma UnpledgeShaped(o: Output, m: nat, v: View, amount: real)
    ensures Shaped(o, o.sender, m, m, UnpledgePlan(o, m, v, amount))
  {
  }

  lemma UnpledgeSteady(o: Output, m: nat, v: View, w: View, amount: real)
    ensures Steady(v, w, UnpledgePlan(o, m, v, amount), UnpledgePlan(o, m, w, amount))
  {
  }

  lemma UnpledgeFollows(o: Output, m: nat, v: View, w: View, amount: real)
    ensures var s, t := UnpledgePlan(o, m, v, amount), UnpledgePlan(o, m, w, amount);
      RowsFollow(v, w, s, t) && MarketsFollow(v, w, s, t, m, m)
  {
  }

  lemma UnpledgeCoherent(o: Output, m: nat, v: View, w: View, amount: real)
    ensures Coherent(o, o.sender, m, m, v, w, UnpledgePlan(o, m, v, amount), UnpledgePlan(o, m, w, amount))
  {
    UnpledgeShaped(o, m, v, amount);
    UnpledgeSteady(o, m, v, w, amount);
    UnpledgeFollows(o, m, v, w, amount);
  }

  lemma BorrowShaped(o: Output, m: nat, v: View, amount: real)
    ensures Shaped(o, o.sender, m, m, BorrowPlan(o, m, v, amount))
  {
  }

  lemma BorrowSteady(o: Output, m: nat, v: View, w: View, amount: real)
    ensures Steady(v, w, BorrowPlan(o, m, v, amount), BorrowPlan(o, m, w, amount))
  {
  }

  lemma BorrowFollows(o: Output, m: nat, v: View, w: View, amount: real)
    ensures var s, t := BorrowPlan(o, m, v, amount), BorrowPlan(o, m, w, amount);
      RowsFollow(v, w, s, t) && MarketsFollow(v, w, s, t, m, m)
  {
  }

  lemma BorrowCoherent(o: Output, m: nat, v: View, w: View, amount: real)
    ensures Coherent(o, o.sender, m, m, v, w, BorrowPlan(o, m, v, amount), BorrowPlan(o, m, w, amount))
  {
    BorrowShaped(o, m, v, amount);
    BorrowSteady(o, m, v, w, amount);
    BorrowFollows(o, m, v, w, amount);
  }

  lemma QuickRedeemShaped(o: Output, m: nat, v: View, amount: real)
    ensures Shaped(o, o.sender, m, m, QuickRedeemPlan(o, m, v, amount))
  {
  }

  lemma QuickRedeemSteady(o: Output, m: nat, v: View, w: View, amount: real)
    ensures Steady(v, w, QuickRedeemPlan(o, m, v, amount), QuickRedeemPlan(o, m, w, amount))
  {
  }

  lemma QuickRedeemFollows(o: Output, m: nat, v: View, w: View, amount: real)
    ensures var s, t := QuickRedeemPlan(o, m, v, amount), QuickRedeemPlan(o, m, w, amount);
      RowsFollow(v, w, s, t) && MarketsFollow(v, w, s, t, m, m)
  {
  }

  lemma QuickRedeemCoherent(o: Output, m: nat, v: View, w: View, amount: real)
    ensures Coherent(o, o.sender, m, m, v, w, QuickRedeemPlan(o, m, v, amount), QuickRedeemPlan(o, m, w, amount))
  {
    QuickRedeemShaped(o, m, v, amount);
    QuickRedeemSteady(o, m, v, w, amount);
    QuickRedeemFollows(o, m, v, w, amount);
  }

  lemma QuickBorrowArranged(o: Output, s: nat, b: nat, v: View, amount: real)
    ensures Settled(QuickBorrowPlan(o, s, b, v, amount))
  {
  }

  lemma QuickBorrowLegitHead(o: Output, s: nat, b: nat, v: View, amount: real)
    ensures LegitHead(o, o.sender, s, b, QuickBorrowPlan(o, s, b, v, amount))
  {
  }

  lemma QuickBorrowLegitTail(o: Output, s: nat, b: nat, v: View, amount: real)
    ensures LegitTail(o, o.sender, s, b, QuickBorrowPlan(o, s, b, v, amount))
  {
  }

  lemma QuickBorrowShaped(o: Output, s: nat, b: nat, v: View, amount: real)
    ensures Shaped(o, o.sender, s, b, QuickBorrowPlan(o, s, b, v, amount))
  {
    QuickBorrowArranged(o, s, b, v, amount);
    QuickBorrowLegitHead(o, s, b, v, amount);
    QuickBorrowLegitTail(o, s, b, v, amount);
  }

  lemma QuickBorrowSteady(o: Output, s: nat, b: nat, v: View, w: View, amount: real)
    ensures Steady(v, w, QuickBorrowPlan(o, s, b, v, amount), QuickBorrowPlan(o, s, b, w, amount))
  {
  }

  lemma QuickBorrowRows(o: Output, s: nat, b: nat, v: View, w: View, amount: real)
    ensures RowsFollow(v, w, QuickBorrowPlan(o, s, b, v, amount), QuickBorrowPlan(o, s, b, w, amount))
  {
  }

  lemma QuickBorrowFirstMarket(o: Output, s: nat, b: nat, v: View, w: View, amount: real)
    requires QuickBorrowPlan(o, s, b, v, amount).c.CreateTx? && v.tx.Some?
    ensures MarketFollows(v, w, QuickBorrowPlan(o, s, b, v, amount), QuickBorrowPlan(o, s, b, w, amount),
                          QuickBorrowPlan(o, s, b, v, amount).g, s, b, 6)
  {
  }

  lemma QuickBorrowSecondMarket(o: Output, s: nat, b: nat, v: View, w: View, amount: real)
    requires QuickBorrowPlan(o, s, b, v, amount).c.CreateTx? && v.tx.Some?
    ensures MarketFollows(v, w, QuickBorrowPlan(o, s, b, v, amount), QuickBorrowPlan(o, s, b, w, amount),
                          QuickBorrowPlan(o, s, b, v, amount).h, s, b, 7)
  {
  }

  lemma QuickBorrowMarkets(o: Output, s: nat, b: nat, v: View, w: View, amount: real)
    ensures MarketsFollow(v, w, QuickBorrowPlan(o, s, b, v, amount), QuickBorrowPlan(o, s, b, w, amount), s, b)
  {
    var x := QuickBorrowPlan(o, s, b, v, amount);
    if x.c.CreateTx? && v.tx.Some? {
      assert !x.e.PutMarket? && !x.f.PutMarket? && !x.i.PutMarket?;
      QuickBorrowFirstMarket(o, s, b, v, w, amount);
      QuickBorrowSecondMarket(o, s, b, v, w, amount);
    }
  }

  lemma QuickBorrowCoherent(o: Output, s: nat, b: nat, v: View, w: View, amount: real)
    ensures Coherent(o, o.sender, s, b, v, w, QuickBorrowPlan(o, s, b, v, amount), QuickBorrowPlan(o, s, b, w, amount))
  {
    QuickBorrowShaped(o, s, b, v, amount);
    QuickBorrowSteady(o, s, b, v, w, amount);
    QuickBorrowRows(o, s, b, v, w, amount);
    QuickBorrowMarkets(o, s, b, v, w, amount);
  }

  lemma LiquidateArranged(o: Output, user: nat, s: nat, b: nat, v: View)
    ensures Settled(LiquidatePlan(o, user, s, b, v))
  {
  }

  lemma LiquidateLegitHead(o: Output, user: nat, s: nat, b: nat, v: View)
    ensures LegitHead(o, user, s, b, LiquidatePlan(o, user, s, b, v))
  {
  }

  lemma LiquidateLegitTail(o: Output, user: nat, s: nat, b: nat, v: View)
    ensures LegitTail(o, user, s, b, LiquidatePlan(o, user, s, b, v))
  {
  }

  lemma LiquidateShaped(o: Output, user: nat, s: nat, b: nat, v: View)
    ensures Shaped(o, user, s, b, LiquidatePlan(o, user, s, b, v))
  {
    LiquidateArranged(o, user, s, b, v);
    LiquidateLegitHead(o, user, s, b, v);
    LiquidateLegitTail(o, user, s, b, v);
  }

  lemma LiquidateSteady(o: Output, user: nat, s: nat, b: nat, v: View, w: View)
    ensures Steady(v, w, LiquidatePlan(o, user, s, b, v), LiquidatePlan(o, user, s, b, w))
  {
  }

  lemma LiquidateRows(o: Output, user: nat, s: nat, b: nat, v: View, w: View)
    ensures RowsFollow(v, w, LiquidatePlan(o, user, s, b, v), LiquidatePlan(o, user, s, b, w))
  {
  }

  lemma LiquidateOneMarket(o: Output, user: nat, m: nat, v: View, w: View)
    ensures MarketsFollow(v, w, LiquidatePlan(o, user, m, m, v), LiquidatePlan(o, user, m, m, w), m, m)
  {
    var x, t := LiquidatePlan(o, user, m, m, v), LiquidatePlan(o, user, m, m, w);
    assert x.i == Nop;
    assert x.h.PutMarket? && After(v, w, x.h, m, m) ==> t == IDLE;
  }

  lemma LiquidateFirstMarket(o: Output, user: nat, s: nat, b: nat, v: View, w: View)
    requires s != b && LiquidatePlan(o, user, s, b, v).c.CreateTx? && v.tx.Some?
    ensures MarketFollows(v, w, LiquidatePlan(o, user, s, b, v), LiquidatePlan(o, user, s, b, w),
                          LiquidatePlan(o, user, s, b, v).h, s, b, 7)
  {
  }

  lemma LiquidateSecondMarket(o: Output, user: nat, s: nat, b: nat, v: View, w: View)
    requires s != b && LiquidatePlan(o, user, s, b, v).c.CreateTx? && v.tx.Some?
    ensures MarketFollows(v, w, LiquidatePlan(o, user, s, b, v), LiquidatePlan(o, user, s, b, w),
                          LiquidatePlan(o, user, s, b, v).i, s, b, 8)
  {
  }

  lemma LiquidateTwoMarkets(o: Output, user: nat, s: nat, b: nat, v: View, w: View)
    requires s != b
    ensures MarketsFollow(v, w, LiquidatePlan(o, user, s, b, v), LiquidatePlan(o, user, s, b, w), s, b)
  {
    var x := LiquidatePlan(o, user, s, b, v);
    if x.c.CreateTx? && v.tx.Some? {
      assert !x.e.PutMarket? && !x.f.PutMarket? && !x.g.PutMarket?;
      LiquidateFirstMarket(o, user, s, b, v, w);
      LiquidateSecondMarket(o, user, s, b, v, w);
    }
  }

  lemma LiquidateMarkets(o: Output, user: nat, s: nat, b: nat, v: View, w: View)
    ensures MarketsFollow(v, w, LiquidatePlan(o, user, s, b, v), LiquidatePlan(o, user, s, b, w), s, b)
  {
    if s == b { LiquidateOneMarket(o, user, s, v, w); } else { LiquidateTwoMarkets(o, user, s, b, v, w); }
  }

  lemma LiquidateCoherent(o: Output, user: nat, s: nat, b: nat, v: View, w: View)
    ensures Coherent(o, user, s, b, v, w, LiquidatePlan(o, user, s, b, v), LiquidatePlan(o, user, s, b, w))
  {
    LiquidateShaped(o, user, s, b, v);
    LiquidateSteady(o, user, s, b, v, w);
    LiquidateRows(o, user, s, b, v, w);
    LiquidateMarkets(o, user, s, b, v, w);
  }

  // ---- From one write to any prefix ------------------------------------------------------------

  lemma LookAfter(db: Db, o: Output, user: nat, si: nat, bi: nat, x: Write)
    requires si in db.markets && bi in db.markets && !Done(db, x) && Legit(o, user, si, bi, x)
    ensures After(Look(db, o, user, si, bi), Look(Apply(db, x), o, user, si, bi), x, si, bi)
  {
    match x
    case Nop =>
    case CreateTx(_, _) => LookSame(db, Apply(db, x), o, user, si, bi);
    case PutTransfer(_, _) => LookSame(db, Apply(db, x), o, user, si, bi);
    case CreateSupply(_) => LookNewSupply(db, o, user, si, bi);
    case CreateBorrow(_) => LookNewBorrow(db, o, user, si, bi);
    case PutSupply(_, row) => LookPutSupply(db, o, user, si, bi, row);
    case PutBorrow(_, row) => LookPutBorrow(db, o, user, si, bi, row);
    case PutMarket(m, row) => LookPutMarket(db, o, user, si, bi, m, row);
  }

  lemma LookSeen(db: Db, o: Output, user: nat, si: nat, bi: nat)
    ensures Seen(db, o, user, si, bi, Look(db, o, user, si, bi))
  {
  }

  lemma ShapedAt(o: Output, user: nat, si: nat, bi: nat, s: Batch, n: nat)
    requires n < 9 && Shaped(o, user, si, bi, s)
    ensures Legit(o, user, si, bi, s.At(n))
  {
  }

  lemma LegitKeepsKeys(db: Db, o: Output, user: nat, si: nat, bi: nat, x: Write)
    requires si in db.markets && bi in db.markets && Legit(o, user, si, bi, x)
    ensures Apply(db, x).markets.Keys == db.markets.Keys
  {
  }

  /** A coherent plan survives its next write: re-reading the database plans the rest. */
  lemma PlanResumes(db: Db, o: Output, user: nat, si: nat, bi: nat, v: View, w: View, s: Batch, t: Batch, n: nat)
    requires si in db.markets && bi in db.markets && Next(db, s, n)
    requires v == Look(db, o, user, si, bi) && w == Look(Apply(db, s.At(n)), o, user, si, bi)
    requires Coherent(o, user, si, bi, v, w, s, t)
    ensures Apply(db, s.At(n)).markets.Keys == db.markets.Keys
    ensures Resumed(Apply(db, s.At(n)), s, t, n + 1)
  {
    ShapedAt(o, user, si, bi, s, n);
    LegitKeepsKeys(db, o, user, si, bi, s.At(n));
    LookAfter(db, o, user, si, bi, s.At(n));
    LookSeen(db, o, user, si, bi);
    Conclude(db, o, user, si, bi, v, w, s, t, n);
  }

  lemma PriceResumes(db: Db, o: Output, m: nat, price: real, time: int, n: nat)
    requires m in db.markets && Next(db, PricePlan(o, m, db.markets[m], price, time), n)
    ensures var s := PricePlan(o, m, db.markets[m], price, time); var db' := Apply(db, s.At(n));
      m in db'.markets && Resumed(db', s, PricePlan(o, m, db'.markets[m], price, time), n + 1)
  {
    assert n == 3;
    var s := PricePlan(o, m, db.markets[m], price, time);
    assert PricePlan(o, m, Apply(db, s.d).markets[m], price, time) == IDLE;
  }

  lemma WithdrawResumes(db: Db, o: Output, proposal: nat, m: nat, amount: real, opponent: nat, n: nat)
    requires m in db.markets && Next(db, WithdrawPlan(o, proposal, m, db.markets[m], amount, opponent), n)
    ensures var s := WithdrawPlan(o, proposal, m, db.markets[m], amount, opponent); var db' := Apply(db, s.At(n));
      m in db'.markets && Resumed(db', s, WithdrawPlan(o, proposal, m, db'.markets[m], amount, opponent), n + 1)
  {
    var s := WithdrawPlan(o, proposal, m, db.markets[m], amount, opponent);
    assert n == 3 || n == 4;
    Advance(db, s, n);
    if n == 3 {
      assert Apply(db, s.d).markets == db.markets;
    } else {
      var t := WithdrawPlan(o, proposal, m, Apply(db, s.e).markets[m], amount, opponent);
      assert t == IDLE || Follows(s, t, 4);
      FollowsResumes(Apply(db, s.e), s, t, 4);
    }
  }

  /** The claim about the plans of one action. */
  ghost predicate ResumesAfter(db: Db, o: Output, n: nat)
    requires n < 9
  {
    var s := Slots(db, o);
    var db' := Apply(db, s.At(n));
    Resumed(db', s, Slots(db', o), n + 1)
  }

  lemma IdleNeverNext(db: Db, n: nat)
    ensures !Next(db, IDLE, n)
  {
  }

  // For each action: its plan resumes after any write; the plan is what the output calls for; so the
  // output resumes.

  lemma SupplyPlanResumes(db: Db, o: Output, m: nat, n: nat)
    requires m in db.markets && Next(db, SupplyPlan(o, m, Look(db, o, o.sender, m, m)), n)
    ensures var s := SupplyPlan(o, m, Look(db, o, o.sender, m, m)); var db' := Apply(db, s.At(n));
      && db'.markets.Keys == db.markets.Keys
      && Resumed(db', s, SupplyPlan(o, m, Look(db', o, o.sender, m, m)), n + 1)
  {
    var v := Look(db, o, o.sender, m, m);
    var s := SupplyPlan(o, m, v);
    var w := Look(Apply(db, s.At(n)), o, o.sender, m, m);
    SupplyCoherent(o, m, v, w);
    PlanResumes(db, o, o.sender, m, m, v, w, s, SupplyPlan(o, m, w), n);
  }

  lemma SupplySlots(db: Db, o: Output)
    requires o.action.DoSupply?
    ensures var a := o.asset;
      Slots(db, o) == if IsMarket(db, a)
                      then SupplyPlan(o, a.market, Look(db, o, o.sender, a.market, a.market)) else IDLE
  {
  }

  lemma SupplyResumes(db: Db, o: Output, n: nat)
    requires o.action.DoSupply? && Next(db, Slots(db, o), n)
    ensures ResumesAfter(db, o, n)
  {
    IdleNeverNext(db, n);
    SupplySlots(db, o);
    SupplyPlanResumes(db, o, o.asset.market, n);
    SupplySlots(Apply(db, Slots(db, o).At(n)), o);
  }

  lemma RedeemPlanResumes(db: Db, o: Output, m: nat, n: nat)
    requires m in db.markets && Next(db, RedeemPlan(o, m, Look(db, o, o.sender, m, m)), n)
    ensures var s := RedeemPlan(o, m, Look(db, o, o.sender, m, m)); var db' := Apply(db, s.At(n));
      && db'.markets.Keys == db.markets.Keys
      && Resumed(db', s, RedeemPlan(o, m, Look(db', o, o.sender, m, m)), n + 1)
  {
    var v := Look(db, o, o.sender, m, m);
    var s := RedeemPlan(o, m, v);
    var w := Look(Apply(db, s.At(n)), o, o.sender, m, m);
    RedeemCoherent(o, m, v, w);
    PlanResumes(db, o, o.sender, m, m, v, w, s, RedeemPlan(o, m, w), n);
  }

  lemma RedeemSlots(db: Db, o: Output)
    requires o.action.DoRedeem?
    ensures var a := o.asset;
      Slots(db, o) == if IsCToken(db, a)
                      then RedeemPlan(o, a.market, Look(db, o, o.sender, a.market, a.market)) else IDLE
  {
  }

  lemma RedeemResumes(db: Db, o: Output, n: nat)
    requires o.action.DoRedeem? && Next(db, Slots(db, o), n)
    ensures ResumesAfter(db, o, n)
  {
    IdleNeverNext(db, n);
    RedeemSlots(db, o);
    RedeemPlanResumes(db, o, o.asset.market, n);
    RedeemSlots(Apply(db, Slots(db, o).At(n)), o);
  }

  lemma PledgePlanResumes(db: Db, o: Output, m: nat, n: nat)
    requires m in db.markets && Next(db, PledgePlan(o, m, Look(db, o, o.sender, m, m)), n)
    ensures var s := PledgePlan(o, m, Look(db, o, o.sender, m, m)); var db' := Apply(db, s.At(n));
      && db'.markets.Keys == db.markets.Keys
      && Resumed(db', s, PledgePlan(o, m, Look(db', o, o.sender, m, m)), n + 1)
  {
    var v := Look(db, o, o.sender, m, m);
    var s := PledgePlan(o, m, v);
    var w := Look(Apply(db, s.At(n)), o, o.sender, m, m);
    PledgeCoherent(o, m, v, w);
    PlanResumes(db, o, o.sender, m, m, v, w, s, PledgePlan(o, m, w), n);
  }

  lemma PledgeSlots(db: Db, o: Output)
    requires o.action.DoPledge?
    ensures var a := o.asset;
      Slots(db, o) == if IsCToken(db, a)
                      then PledgePlan(o, a.market, Look(db, o, o.sender, a.market, a.market)) else IDLE
  {
  }

  lemma PledgeResumes(db: Db, o: Output, n: nat)
    requires o.action.DoPledge? && Next(db, Slots(db, o), n)
    ensures ResumesAfter(db, o, n)
  {
    IdleNeverNext(db, n);
    PledgeSlots(db, o);
    PledgePlanResumes(db, o, o.asset.market, n);
    PledgeSlots(Apply(db, Slots(db, o).At(n)), o);
  }

  lemma RepayPlanResumes(db: Db, o: Output, m: nat, n: nat)
    requires m in db.markets && Next(db, RepayPlan(o, m, Look(db, o, o.sender, m, m)), n)
    ensures var s := RepayPlan(o, m, Look(db, o, o.sender, m, m)); var db' := Apply(db, s.At(n));
      && db'.markets.Keys == db.markets.Keys
      && Resumed(db', s, RepayPlan(o, m, Look(db', o, o.sender, m, m)), n + 1)
  {
    var v := Look(db, o, o.sender, m, m);
    var s := RepayPlan(o, m, v);
    var w := Look(Apply(db, s.At(n)), o, o.sender, m, m);
    RepayCoherent(o, m, v, w);
    PlanResumes(db, o, o.sender, m, m, v, w, s, RepayPlan(o, m, w), n);
  }

  lemma RepaySlots(db: Db, o: Output)
    requires o.action.DoRepay?
    ensures var a := o.asset;
      Slots(db, o) == if IsMarket(db, a)
                      then RepayPlan(o, a.market, Look(db, o, o.sender, a.market, a.market)) else IDLE
  {
  }

  lemma RepayResumes(db: Db, o: Output, n: nat)
    requires o.action.DoRepay? && Next(db, Slots(db, o), n)
    ensures ResumesAfter(db, o, n)
  {
    IdleNeverNext(db, n);
    RepaySlots(db, o);
    RepayPlanResumes(db, o, o.asset.market, n);
    RepaySlots(Apply(db, Slots(db, o).At(n)), o);
  }

  lemma QuickPledgePlanResumes(db: Db, o: Output, m: nat, n: nat)
    requires m in db.markets && Next(db, QuickPledgePlan(o, m, Look(db, o, o.sender, m, m)), n)
    ensures var s := QuickPledgePlan(o, m, Look(db, o, o.sender, m, m)); var db' := Apply(db, s.At(n));
      && db'.markets.Keys == db.markets.Keys
      && Resumed(db', s, QuickPledgePlan(o, m, Look(db', o, o.sender, m, m)), n + 1)
  {
    var v := Look(db, o, o.sender, m, m);
    var s := QuickPledgePlan(o, m, v);
    var w := Look(Apply(db, s.At(n)), o, o.sender, m, m);
    QuickPledgeCoherent(o, m, v, w);
    PlanResumes(db, o, o.sender, m, m, v, w, s, QuickPledgePlan(o, m, w), n);
  }

  lemma QuickPledgeSlots(db: Db, o: Output)
    requires o.action.DoQuickPledge?
    ensures var a := o.asset;
      Slots(db, o) == if IsMarket(db, a)
                      then QuickPledgePlan(o, a.market, Look(db, o, o.sender, a.market, a.market)) else IDLE
  {
  }

  lemma QuickPledgeResumes(db: Db, o: Output, n: nat)
    requires o.action.DoQuickPledge? && Next(db, Slots(db, o), n)
    ensures ResumesAfter(db, o, n)
  {
    IdleNeverNext(db, n);
    QuickPledgeSlots(db, o);
    QuickPledgePlanResumes(db, o, o.asset.market, n);
    QuickPledgeSlots(Apply(db, Slots(db, o).At(n)), o);
  }

  lemma UnpledgePlanResumes(db: Db, o: Output, m: nat, amount: real, n: nat)
    requires m in db.markets && Next(db, UnpledgePlan(o, m, Look(db, o, o.sender, m, m), amount), n)
    ensures var s := UnpledgePlan(o, m, Look(db, o, o.sender, m, m), amount); var db' := Apply(db, s.At(n));
      && db'.markets.Keys == db.markets.Keys
      && Resumed(db', s, UnpledgePlan(o, m, Look(db', o, o.sender, m, m), amount), n + 1)
  {
    var v := Look(db, o, o.sender, m, m);
    var s := UnpledgePlan(o, m, v, amount);
    var w := Look(Apply(db, s.At(n)), o, o.sender, m, m);
    UnpledgeCoherent(o, m, v, w, amount);
    PlanResumes(db, o, o.sender, m, m, v, w, s, UnpledgePlan(o, m, w, amount), n);
  }

  lemma UnpledgeSlots(db: Db, o: Output)
    requires o.action.DoUnpledge?
    ensures var a, amount := o.action.asset, Trunc8(o.action.amount);
      Slots(db, o) == if IsCToken(db, a)
                      then UnpledgePlan(o, a.market, Look(db, o, o.sender, a.market, a.market), amount) else IDLE
  {
  }

  lemma UnpledgeResumes(db: Db, o: Output, n: nat)
    requires o.action.DoUnpledge? && Next(db, Slots(db, o), n)
    ensures ResumesAfter(db, o, n)
  {
    IdleNeverNext(db, n);
    UnpledgeSlots(db, o);
    UnpledgePlanResumes(db, o, o.action.asset.market, Trunc8(o.action.amount), n);
    UnpledgeSlots(Apply(db, Slots(db, o).At(n)), o);
  }

  lemma BorrowPlanResumes(db: Db, o: Output, m: nat, amount: real, n: nat)
    requires m in db.markets && Next(db, BorrowPlan(o, m, Look(db, o, o.sender, m, m), amount), n)
    ensures var s := BorrowPlan(o, m, Look(db, o, o.sender, m, m), amount); var db' := Apply(db, s.At(n));
      && db'.markets.Keys == db.markets.Keys
      && Resumed(db', s, BorrowPlan(o, m, Look(db', o, o.sender, m, m), amount), n + 1)
  {
    var v := Look(db, o, o.sender, m, m);
    var s := BorrowPlan(o, m, v, amount);
    var w := Look(Apply(db, s.At(n)), o, o.sender, m, m);
    BorrowCoherent(o, m, v, w, amount);
    PlanResumes(db, o, o.sender, m, m, v, w, s, BorrowPlan(o, m, w, amount), n);
  }

  lemma BorrowSlots(db: Db, o: Output)
    requires o.action.DoBorrow?
    ensures var a, amount := o.action.asset, Trunc8(o.action.amount);
      Slots(db, o) == if IsMarket(db, a)
                      then BorrowPlan(o, a.market, Look(db, o, o.sender, a.market, a.market), amount) else IDLE
  {
  }

  lemma BorrowResumes(db: Db, o: Output, n: nat)
    requires o.action.DoBorrow? && Next(db, Slots(db, o), n)
    ensures ResumesAfter(db, o, n)
  {
    IdleNeverNext(db, n);
    BorrowSlots(db, o);
    BorrowPlanResumes(db, o, o.action.asset.market, Trunc8(o.action.amount), n);
    BorrowSlots(Apply(db, Slots(db, o).At(n)), o);
  }

  lemma QuickRedeemPlanResumes(db: Db, o: Output, m: nat, amount: real, n: nat)
    requires m in db.markets && Next(db, QuickRedeemPlan(o, m, Look(db, o, o.sender, m, m), amount), n)
    ensures var s := QuickRedeemPlan(o, m, Look(db, o, o.sender, m, m), amount); var db' := Apply(db, s.At(n));
      && db'.markets.Keys == db.markets.Keys
      && Resumed(db', s, QuickRedeemPlan(o, m, Look(db', o, o.sender, m, m), amount), n + 1)
  {
    var v := Look(db, o, o.sender, m, m);
    var s := QuickRedeemPlan(o, m, v, amount);
    var w := Look(Apply(db, s.At(n)), o, o.sender, m, m);
    QuickRedeemCoherent(o, m, v, w, amount);
    PlanResumes(db, o, o.sender, m, m, v, w, s, QuickRedeemPlan(o, m, w, amount), n);
  }

  lemma QuickRedeemSlots(db: Db, o: Output)
    requires o.action.DoQuickRedeem?
    ensures var a, amount := o.action.asset, Trunc8(o.action.amount);
      Slots(db, o) == if IsCToken(db, a)
                      then QuickRedeemPlan(o, a.market, Look(db, o, o.sender, a.market, a.market), amount) else IDLE
  {
  }

  lemma QuickRedeemResumes(db: Db, o: Output, n: nat)
    requires o.action.DoQuickRedeem? && Next(db, Slots(db, o), n)
    ensures ResumesAfter(db, o, n)
  {
    IdleNeverNext(db, n);
    QuickRedeemSlots(db, o);
    QuickRedeemPlanResumes(db, o, o.action.asset.market, Trunc8(o.action.amount), n);
    QuickRedeemSlots(Apply(db, Slots(db, o).At(n)), o);
  }

  lemma QuickBorrowPlanResumes(db: Db, o: Output, sm: nat, bm: nat, amount: real, n: nat)
    requires sm in db.markets && bm in db.markets
    requires Next(db, QuickBorrowPlan(o, sm, bm, Look(db, o, o.sender, sm, bm), amount), n)
    ensures var s := QuickBorrowPlan(o, sm, bm, Look(db, o, o.sender, sm, bm), amount); var db' := Apply(db, s.At(n));
      && db'.markets.Keys == db.markets.Keys
      && Resumed(db', s, QuickBorrowPlan(o, sm, bm, Look(db', o, o.sender, sm, bm), amount), n + 1)
  {
    var v := Look(db, o, o.sender, sm, bm);
    var s := QuickBorrowPlan(o, sm, bm, v, amount);
    var w := Look(Apply(db, s.At(n)), o, o.sender, sm, bm);
    QuickBorrowCoherent(o, sm, bm, v, w, amount);
    PlanResumes(db, o, o.sender, sm, bm, v, w, s, QuickBorrowPlan(o, sm, bm, w, amount), n);
  }

  lemma QuickBorrowSlots(db: Db, o: Output)
    requires o.action.DoQuickBorrow?
    ensures var a, own, amount := o.action.asset, o.asset, Trunc8(o.action.amount);
      Slots(db, o) == if IsMarket(db, a) && (IsMarket(db, own) || IsCToken(db, own))
                      then QuickBorrowPlan(o, own.market, a.market, Look(db, o, o.sender, own.market, a.market), amount)
                      else IDLE
  {
  }

  lemma QuickBorrowResumes(db: Db, o: Output, n: nat)
    requires o.action.DoQuickBorrow? && Next(db, Slots(db, o), n)
    ensures ResumesAfter(db, o, n)
  {
    IdleNeverNext(db, n);
    QuickBorrowSlots(db, o);
    QuickBorrowPlanResumes(db, o, o.asset.market, o.action.asset.market, Trunc8(o.action.amount), n);
    QuickBorrowSlots(Apply(db, Slots(db, o).At(n)), o);
  }

  lemma LiquidatePlanResumes(db: Db, o: Output, user: nat, sm: nat, bm: nat, n: nat)
    requires sm in db.markets && bm in db.markets
    requires Next(db, LiquidatePlan(o, user, sm, bm, Look(db, o, user, sm, bm)), n)
    ensures var s := LiquidatePlan(o, user, sm, bm, Look(db, o, user, sm, bm)); var db' := Apply(db, s.At(n));
      && db'.markets.Keys == db.markets.Keys
      && Resumed(db', s, LiquidatePlan(o, user, sm, bm, Look(db', o, user, sm, bm)), n + 1)
  {
    var v := Look(db, o, user, sm, bm);
    var s := LiquidatePlan(o, user, sm, bm, v);
    var w := Look(Apply(db, s.At(n)), o, user, sm, bm);
    LiquidateCoherent(o, user, sm, bm, v, w);
    PlanResumes(db, o, user, sm, bm, v, w, s, LiquidatePlan(o, user, sm, bm, w), n);
  }

  lemma LiquidateSlots(db: Db, o: Output)
    requires o.action.DoLiquidate?
    ensures var a, own, user := o.action.asset, o.asset, o.action.user;
      Slots(db, o) == if IsCToken(db, a) && IsMarket(db, own)
                      then LiquidatePlan(o, user, a.market, own.market, Look(db, o, user, a.market, own.market))
                      else IDLE
  {
  }

  lemma LiquidateResumes(db: Db, o: Output, n: nat)
    requires o.action.DoLiquidate? && Next(db, Slots(db, o), n)
    ensures ResumesAfter(db, o, n)
  {
    var a := o.action.asset;
    IdleNeverNext(db, n);
    LiquidateSlots(db, o);
    LiquidatePlanResumes(db, o, o.action.user, a.market, o.asset.market, n);
    LiquidateSlots(Apply(db, Slots(db, o).At(n)), o);
  }

  lemma SlotsResume(db: Db, o: Output, n: nat)
    requires Next(db, Slots(db, o), n)
    ensures ResumesAfter(db, o, n)
  {
    match o.action
    case DoSupply => SupplyResumes(db, o, n);
    case DoRedeem => RedeemResumes(db, o, n);
    case DoPledge => PledgeResumes(db, o, n);
    case DoUnpledge(_, _) => UnpledgeResumes(db, o, n);
    case DoBorrow(_, _) => BorrowResumes(db, o, n);
    case DoRepay => RepayResumes(db, o, n);
    case DoQuickPledge => QuickPledgeResumes(db, o, n);
    case DoQuickBorrow(_, _) => QuickBorrowResumes(db, o, n);
    case DoQuickRedeem(_, _) => QuickRedeemResumes(db, o, n);
    case DoLiquidate(_, _) => LiquidateResumes(db, o, n);
    case DoPrice(a, price, time) => PriceResumes(db, o, a.market, price, time, n);
    case DoWithdraw(p, a, memo, opponent) => WithdrawResumes(db, o, p, a.market, Trunc8(memo), opponent, n);
    case Unreadable =>
    case Unknown => Advance(db, Slots(db, o), n);
  }
}
