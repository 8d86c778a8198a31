/** Accruing interest more often never lowers the borrow index. */
module Accrual {
  import opened Decimal
  import opened Core
  import opened Rates

  /** Accrue at each of the given blocks in turn. */
  function AccrueAll(m: Market, blocks: seq<int>): Market
  {
    if blocks == [] then m else Accrue(AccrueAll(m, blocks[..|blocks| - 1]), blocks[|blocks| - 1])
  }

  predicate Ordered(from: int, blocks: seq<int>)
  {
    forall i, j :: 0 <= i <= j < |blocks| ==> from <= blocks[i] <= blocks[j]
  }

  /** The last block of a run that started at a market's own block. */
  function LastBlock(m: Market, blocks: seq<int>): int
  {
    if blocks == [] then m.blockNumber else blocks[|blocks| - 1]
  }

  lemma RatioGrows(b: real, d: real, i: real, j: real)
    requires 0.0 <= b <= d && d > 0.0 && 0.0 <= j <= i
    ensures b / d <= (b + i) / (d + i - j)
  {
    var e := d + i - j;
    MulMonotone(b, d, i - j);
    MulMonotone(i - j, i, d);
    assert b * e <= (b + i) * d;
    DivOrder(b, d, b + i, e);
  }

  lemma UtilizationGrows(cash: real, b: real, r: real, i: real, j: real)
    requires cash >= r && b >= 0.0 && 0.0 <= j <= i && (b == 0.0 ==> i == 0.0)
    ensures UtilizationRate(cash, b, r) <= UtilizationRate(cash, b + i, r + j)
  {
    var d := cash + b - r;
    if d <= 0.0 {
      UtilizationNonNegative(cash, b + i, r + j);
    } else {
      RatioGrows(b, d, i, j);
      assert cash + (b + i) - (r + j) == d + i - j;
      Round16Monotone(b / d, (b + i) / (d + i - j));
      Trunc16Monotone(Div(b, d), Div(b + i, d + i - j));
    }
  }

  lemma InterestRaisesUtilization(m: Market, block: int, t: real)
    requires MarketOk(m) && m.reserves <= m.cash && t >= 0.0
    ensures var n := Grow(m, block, t);
      UtilizationRate(m.cash, m.borrows, m.reserves) <= UtilizationRate(n.cash, n.borrows, n.reserves)
  {
    GrowBounds(m, block, t);
    var n := Grow(m, block, t);
    var i, j := n.borrows - m.borrows, n.reserves - m.reserves;
    MulMonotone(m.p.reserveFactor, 1.0, i);
    assert m.borrows == 0.0 ==> m.borrows * t == 0.0;
    UtilizationGrows(m.cash, m.borrows, m.reserves, i, j);
    assert n.borrows == m.borrows + i && n.reserves == m.reserves + j;
  }

  /** Interest raises utilization, hence the borrow rate, while cash covers the reserves. */
  lemma RateGrows(m: Market, block: int)
    requires MarketOk(m) && m.reserves <= m.cash
    ensures CurBorrowRate(Accrue(m, block)) >= CurBorrowRate(m) >= 0.0
  {
    CurBorrowRateNonNegative(m);
    if block > m.blockNumber {
      var t := Mul(CurBorrowRate(m), (block - m.blockNumber) as real);
      MulNonNegative(CurBorrowRate(m), (block - m.blockNumber) as real);
      InterestRaisesUtilization(m, block, t);
      var n := Grow(m, block, t);
      UtilizationNonNegative(m.cash, m.borrows, m.reserves);
      BorrowRateMonotone(UtilizationRate(m.cash, m.borrows, m.reserves),
                         UtilizationRate(n.cash, n.borrows, n.reserves), m.p);
    }
  }

  lemma {:induction false} AccrueAllOk(m: Market, blocks: seq<int>)
    requires MarketOk(m) && Ordered(m.blockNumber, blocks)
    ensures MarketOk(AccrueAll(m, blocks))
    ensures AccrueAll(m, blocks).cash == m.cash && AccrueAll(m, blocks).p == m.p
    ensures AccrueAll(m, blocks).blockNumber == LastBlock(m, blocks)
    ensures AccrueAll(m, blocks).borrowIndex >= m.borrowIndex
    ensures AccrueAll(m, blocks).reserves >= m.reserves
    decreases |blocks|
  {
    if blocks != [] {
      var front, last := blocks[..|blocks| - 1], blocks[|blocks| - 1];
      AccrueAllOk(m, front);
      var k := AccrueAll(m, front);
      assert k.blockNumber <= last;
      AccrueOk(k, last);
      AccrueGrows(k, last);
    }
  }

  lemma AccrueGrows(m: Market, block: int)
    requires MarketOk(m)
    ensures var n := Accrue(m, block);
      && n.borrowIndex >= m.borrowIndex
      && n.reserves >= m.reserves
      && (block > m.blockNumber ==>
            n.borrowIndex == m.borrowIndex + Ceil16(Mul(Mul(CurBorrowRate(m), (block - m.blockNumber) as real),
              m.borrowIndex)))
  {
    if block > m.blockNumber {
      CurBorrowRateNonNegative(m);
      var t := Mul(CurBorrowRate(m), (block - m.blockNumber) as real);
      MulNonNegative(CurBorrowRate(m), (block - m.blockNumber) as real);
      GrowBounds(m, block, t);
    }
  }

  /** From m, with its rate as the least, the index has grown at least as much as one accrual at that
      rate over the whole time. */
  predicate Grown(m: Market, k: Market)
  {
    && MarketOk(k) && 0.0 <= CurBorrowRate(m) <= CurBorrowRate(k)
    && IndexGrown(CurBorrowRate(m), m, k)
  }

  predicate IndexGrown(r: real, m: Market, k: Market)
  {
    && m.blockNumber <= k.blockNumber && m.borrowIndex <= k.borrowIndex
    && k.borrowIndex >= m.borrowIndex + Ceil16(Mul(Mul(r, (k.blockNumber - m.blockNumber) as real), m.borrowIndex))
  }

  lemma GrownSelf(m: Market)
    requires MarketOk(m)
    ensures Grown(m, m)
  {
    CurBorrowRateNonNegative(m);
    Ceil16Zero(CurBorrowRate(m), m.borrowIndex);
  }

  /** One more accrual, from a market whose rate and index have not fallen. */
  lemma IndexStep(r: real, m: Market, k: Market, last: int)
    requires MarketOk(k) && 0.0 <= r <= CurBorrowRate(k) && m.borrowIndex >= 1.0 && IndexGrown(r, m, k)
    requires k.blockNumber <= last
    ensures IndexGrown(r, m, Accrue(k, last)) && Accrue(k, last).blockNumber == last
  {
    AccrueGrows(k, last);
    if last > k.blockNumber {
      SplitInterest(r, CurBorrowRate(k), k.blockNumber - m.blockNumber, last - k.blockNumber, m.borrowIndex,
                    k.borrowIndex);
    }
  }

  lemma GrownStep(m: Market, k: Market, last: int)
    requires Grown(m, k) && m.borrowIndex >= 1.0 && k.blockNumber <= last && k.reserves <= k.cash
    ensures Grown(m, Accrue(k, last))
  {
    RateGrows(k, last);
    AccrueOk(k, last);
    IndexStep(CurBorrowRate(m), m, k, last);
  }

  /** Every rate of the run is at least the first one. */
  lemma {:induction false} IndexAtLeast(m: Market, blocks: seq<int>)
    requires MarketOk(m) && Ordered(m.blockNumber, blocks)
    requires AccrueAll(m, if blocks == [] then [] else blocks[..|blocks| - 1]).reserves <= m.cash
    ensures Grown(m, AccrueAll(m, blocks))
    decreases |blocks|
  {
    if blocks == [] {
      GrownSelf(m);
    } else {
      var front, last := blocks[..|blocks| - 1], blocks[|blocks| - 1];
      AccrueAllOk(m, front);
      ReservesGrow(m, front);
      IndexAtLeast(m, front);
      AccrueAllLast(m, blocks);
      GrownStep(m, AccrueAll(m, front), last);
    }
  }

  lemma AccrueAllLast(m: Market, blocks: seq<int>)
    requires blocks != []
    ensures AccrueAll(m, blocks) == Accrue(AccrueAll(m, blocks[..|blocks| - 1]), blocks[|blocks| - 1])
  {
  }

  lemma Ceil16Zero(r: real, index: real)
    ensures Ceil16(Mul(Mul(r, 0 as real), index)) == 0.0
  {
    assert Mul(Mul(r, 0 as real), index) == 0.0;
    Grid16Zero();
  }

  lemma ReservesGrow(m: Market, blocks: seq<int>)
    requires MarketOk(m) && Ordered(m.blockNumber, blocks)
    ensures AccrueAll(m, if blocks == [] then [] else blocks[..|blocks| - 1]).reserves <= AccrueAll(m, blocks).reserves
  {
    if blocks != [] {
      var front := blocks[..|blocks| - 1];
      AccrueAllOk(m, front);
      AccrueGrows(AccrueAll(m, front), blocks[|blocks| - 1]);
    }
  }

  lemma SplitInterest(r: real, rk: real, d0: int, d1: int, index: real, indexk: real)
    requires 0.0 <= r <= rk && 0 <= d0 && 0 <= d1 && 1.0 <= index <= indexk
    ensures Ceil16(Mul(Mul(r, (d0 + d1) as real), index))
         <= Ceil16(Mul(Mul(r, d0 as real), index)) + Ceil16(Mul(Mul(rk, d1 as real), indexk))
  {
    var e0, e1 := d0 as real, d1 as real;
    MulMonotone(r, rk, e1);
    MulNonNegative(r, e1);
    MulMonotone(Mul(r, e1), Mul(rk, e1), index);
    MulMonotone(index, indexk, Mul(rk, e1));
    assert Mul(Mul(r, e0 + e1), index) == Mul(Mul(r, e0), index) + Mul(Mul(r, e1), index);
    Ceil16Subadditive(Mul(Mul(r, e0), index), Mul(Mul(rk, e1), indexk), Mul(Mul(r, e0 + e1), index));
  }

  /** Accruing at any schedule of blocks and then once more ends with an index at least that of
      a single accrual at the last block, as long as cash covered the reserves up to the accrual
      before the schedule's last one. */
  lemma AccruingMoreOftenNeverLowersTheIndex(m: Market, blocks: seq<int>, last: int)
    requires MarketOk(m) && Ordered(m.blockNumber, blocks) && LastBlock(m, blocks) <= last
    requires AccrueAll(m, if blocks == [] then [] else blocks[..|blocks| - 1]).reserves <= m.cash
    ensures Accrue(AccrueAll(m, blocks), last).borrowIndex >= Accrue(m, last).borrowIndex
  {
    var k := AccrueAll(m, blocks);
    IndexAtLeast(m, blocks);
    AccrueAllOk(m, blocks);
    IndexStep(CurBorrowRate(m), m, k, last);
    AccrueGrows(m, last);
  }

  /** With one accrual on the way, cash covering the reserves at the start is enough. */
  lemma AccruingTwiceNeverLowersTheIndex(m: Market, t1: int, t2: int)
    requires MarketOk(m) && m.blockNumber <= t1 <= t2 && m.reserves <= m.cash
    ensures Accrue(Accrue(m, t1), t2).borrowIndex >= Accrue(m, t2).borrowIndex
  {
    assert [t1][..0] == [];
    AccruingMoreOftenNeverLowersTheIndex(m, [t1], t2);
  }
}
