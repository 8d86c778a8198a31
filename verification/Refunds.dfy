/** Outputs are queued with fresh ids and traces, and each is applied or refunded, never both. */
module Refunds {
  import opened Decimal
  import opened Core
  import opened Handlers
  import opened Replay
  import opened Crash

  /** Every write of a batch is made in the name of its output. */
  predicate OwnedBatch(o: Output, s: Batch)
  {
    && Owned(o, s.a) && Owned(o, s.b) && Owned(o, s.c) && Owned(o, s.d) && Owned(o, s.e)
    && Owned(o, s.f) && Owned(o, s.g) && Owned(o, s.h) && Owned(o, s.i)
  }

  lemma ShapedOwned(o: Output, user: nat, si: nat, bi: nat, s: Batch)
    requires Shaped(o, user, si, bi, s)
    ensures OwnedBatch(o, s) && Arranged(s)
  {
  }

  /** Handlers that read a supply row, a borrow row and their markets. */
  predicate OnAccount(o: Output)
  {
    !o.action.DoPrice? && !o.action.DoWithdraw? && !o.action.Unreadable? && !o.action.Unknown?
  }

  lemma SlotsShaped(db: Db, o: Output) returns (user: nat, si: nat, bi: nat)
    requires OnAccount(o) && Slots(db, o) != IDLE
    ensures si in db.markets && bi in db.markets && Shaped(o, user, si, bi, Slots(db, o))
  {
    user, si, bi := o.sender, MarketOf(o.asset), MarketOf(o.asset);
    match o.action
    case DoSupply => SupplyShaped(o, si, Look(db, o, user, si, bi));
    case DoRedeem => RedeemShaped(o, si, Look(db, o, user, si, bi));
    case DoPledge => PledgeShaped(o, si, Look(db, o, user, si, bi));
    case DoRepay => RepayShaped(o, si, Look(db, o, user, si, bi));
    case DoQuickPledge => QuickPledgeShaped(o, si, Look(db, o, user, si, bi));
    case DoUnpledge(a, memo) =>
      si, bi := a.market, a.market;
      UnpledgeShaped(o, si, Look(db, o, user, si, bi), Trunc8(memo));
    case DoBorrow(a, memo) =>
      si, bi := a.market, a.market;
      BorrowShaped(o, si, Look(db, o, user, si, bi), Trunc8(memo));
    case DoQuickRedeem(a, memo) =>
      si, bi := a.market, a.market;
      QuickRedeemShaped(o, si, Look(db, o, user, si, bi), Trunc8(memo));
    case DoQuickBorrow(a, memo) =>
      bi := a.market;
      QuickBorrowShaped(o, si, bi, Look(db, o, user, si, bi), Trunc8(memo));
    case DoLiquidate(u, a) =>
      user, si := u, a.market;
      LiquidateShaped(o, user, si, bi, Look(db, o, user, si, bi));
  }

  lemma SlotsOwned(db: Db, o: Output)
    ensures OwnedBatch(o, Slots(db, o)) && Arranged(Slots(db, o))
  {
    if OnAccount(o) && Slots(db, o) != IDLE {
      var user, si, bi := SlotsShaped(db, o);
      ShapedOwned(o, user, si, bi, Slots(db, o));
    }
  }

  // ---- Queues --------------------------------------------------------------------------------

  predicate NamedBy(id: TransferId, o: Output)
  {
    if id.Withdrawal? then o.action.DoWithdraw? && o.action.proposal == id.proposal else id.trace == o.trace
  }

  /** Nothing in the database carries the id, the trace or the proposal of the output yet. */
  predicate Fresh(db: Db, o: Output)
  {
    && o.id > 0
    && o.trace !in db.txs
    && (forall id :: id in db.transfers ==> !NamedBy(id, o))
    && (forall m :: m in db.markets ==> db.markets[m].version < o.id)
    && (forall k :: k in db.supplies ==> db.supplies[k].version < o.id)
    && (forall k :: k in db.borrows ==> db.borrows[k].version < o.id)
  }

  /** Ids grow and traces are unique, as the wallet numbers its outputs; a proposal passes once. */
  predicate Earlier(o: Output, p: Output)
  {
    && o.id < p.id && o.trace != p.trace
    && (o.action.DoWithdraw? && p.action.DoWithdraw? ==> o.action.proposal != p.action.proposal)
  }

  predicate Queued(db: Db, queue: seq<Output>)
  {
    && (forall i :: 0 <= i < |queue| ==> Fresh(db, queue[i]))
    && (forall i, j :: 0 <= i < j < |queue| ==> Earlier(queue[i], queue[j]))
  }

  lemma ApplyKeepsFresh(db: Db, x: Write, o: Output, p: Output)
    requires Owned(o, x) && Earlier(o, p) && Fresh(db, p)
    ensures Fresh(Apply(db, x), p)
  {
  }

  lemma RunKeepsFresh(db: Db, s: Batch, o: Output, p: Output, n: nat)
    requires OwnedBatch(o, s) && Earlier(o, p) && Fresh(db, p) && n <= 9
    ensures Fresh(RunTo(db, s, n), p)
    decreases n
  {
    if n > 0 {
      RunKeepsFresh(db, s, o, p, n - 1);
      RunToNext(db, s, n - 1);
      ApplyKeepsFresh(RunTo(db, s, n - 1), s.At(n - 1), o, p);
    }
  }

  lemma StepKeepsQueue(db: Db, queue: seq<Output>)
    requires Queued(db, queue) && queue != []
    ensures Queued(Step(db, queue[0]), queue[1..])
  {
    SlotsOwned(db, queue[0]);
    forall i | 0 <= i < |queue| - 1
      ensures Fresh(Step(db, queue[0]), queue[1..][i])
    {
      RunKeepsFresh(db, Slots(db, queue[0]), queue[0], queue[i + 1], 9);
    }
  }

  // ---- Applied or refunded ----------------------------------------------------------------------

  predicate RefundId(id: TransferId) { id.Refund? || id.RefundV0? }

  /** At most one refund per output, and none once it has a transaction row. */
  predicate NeverBoth(db: Db)
  {
    && (forall id :: id in db.transfers && RefundId(id) ==> id.trace !in db.txs)
    && (forall id, other ::
          (id in db.transfers && other in db.transfers && RefundId(id) && RefundId(other) && id.trace == other.trace)
          ==> id == other)
  }

  lemma PlainKeepsNeverBoth(db: Db, x: Write)
    requires NeverBoth(db) && !x.CreateTx? && !IsRefund(x)
    ensures NeverBoth(Apply(db, x))
  {
    var db' := Apply(db, x);
    assert db'.txs == db.txs;
    assert forall id :: id in db'.transfers && RefundId(id) ==> id in db.transfers;
  }

  lemma SettleKeepsNeverBoth(db: Db, x: Write, o: Output)
    requires NeverBoth(db) && Fresh(db, o) && Owned(o, x) && (x == Nop || x.CreateTx? || IsRefund(x))
    ensures NeverBoth(Apply(db, x))
  {
  }

  lemma CreateRowKeepsFresh(db: Db, x: Write, o: Output)
    requires Fresh(db, o) && (x == Nop || x.CreateSupply? || x.CreateBorrow?)
    ensures Fresh(Apply(db, x), o)
  {
  }

  lemma RowsKeepFresh(db: Db, o: Output, s: Batch)
    requires Fresh(db, o) && Arranged(s)
    ensures Fresh(RunTo(db, s, 2), o)
  {
    RunToNext(db, s, 0);
    RunToNext(db, s, 1);
    CreateRowKeepsFresh(db, s.a, o);
    CreateRowKeepsFresh(RunTo(db, s, 1), s.b, o);
  }

  lemma PlainSlot(s: Batch, n: nat)
    requires Arranged(s) && n < 9 && n != 2
    ensures !s.At(n).CreateTx? && !IsRefund(s.At(n))
  {
  }

  lemma {:induction false} BatchNeverBoth(db: Db, o: Output, s: Batch, n: nat)
    requires NeverBoth(db) && Fresh(db, o) && OwnedBatch(o, s) && Arranged(s) && n <= 9
    ensures NeverBoth(RunTo(db, s, n))
  {
    if n > 0 {
      BatchNeverBoth(db, o, s, n - 1);
      RunToNext(db, s, n - 1);
      var mid := RunTo(db, s, n - 1);
      var x := s.At(n - 1);
      if n == 3 {
        RowsKeepFresh(db, o, s);
        SettleKeepsNeverBoth(mid, x, o);
      } else {
        PlainSlot(s, n - 1);
        PlainKeepsNeverBoth(mid, x);
      }
    }
  }

  /** However far a fresh output gets, it is not both applied and refunded. */
  lemma PrefixNeverBoth(db: Db, o: Output, n: nat)
    requires NeverBoth(db) && Fresh(db, o) && n <= 9
    ensures NeverBoth(RunTo(db, Slots(db, o), n))
  {
    SlotsOwned(db, o);
    BatchNeverBoth(db, o, Slots(db, o), n);
  }

  lemma {:induction false} RunNeverBoth(db: Db, queue: seq<Output>, done: nat)
    requires NeverBoth(db) && Queued(db, queue) && done <= |queue|
    ensures NeverBoth(Run(db, queue[..done])) && Queued(Run(db, queue[..done]), queue[done..])
    decreases done
  {
    if done > 0 {
      RunNeverBoth(db, queue, done - 1);
      var mid, o := Run(db, queue[..done - 1]), queue[done - 1];
      assert queue[..done] == queue[..done - 1] + [o];
      RunAppend(db, queue[..done - 1], o);
      assert queue[done - 1..][0] == o && queue[done - 1..][1..] == queue[done..];
      StepKeepsQueue(mid, queue[done - 1..]);
      PrefixNeverBoth(mid, o, 9);
    }
  }

  /** Over all crashes and retries of a queue, no output ever has two refunds, nor a refund beside
      a transaction row, by either refund path. */
  lemma AppliedOrRefunded(w: Worker, fuses: seq<nat>)
    requires NeverBoth(w.db) && Queued(w.db, w.queue)
    ensures NeverBoth(Attempts(w, fuses).db)
  {
    assert w.queue[0..] == w.queue && w.queue[..0] == [];
    if w.queue != [] { assert RunTo(w.db, Slots(w.db, w.queue[0]), 0) == w.db; }
    var done, part := ReachableStates(w, w, 0, 0, fuses);
    RunNeverBoth(w.db, w.queue, done);
    if w.queue[done..] != [] {
      PrefixNeverBoth(Run(w.db, w.queue[..done]), w.queue[done], part);
    }
  }
}
