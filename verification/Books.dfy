/** What each bookkeeping change does to a well-formed market. */
module Books {
  import opened Decimal
  import opened Core
  import opened Rates
  import opened Handlers

  lemma LiveOk(m: Market, block: int)
    requires MarketOk(m)
    ensures MarketOk(Accrue(AfterFind(m), block))
    ensures Accrue(AfterFind(m), block).cash == m.cash && Accrue(AfterFind(m), block).ctokens == m.ctokens
  {
    AccrueOk(AfterFind(m), block);
  }

  lemma MintedOk(m: Market, ctokens: real, cash: real)
    requires MarketOk(m) && ctokens >= 0.0 && cash >= 0.0 && Grid16(ctokens) && Grid16(cash)
    ensures MarketOk(Minted(m, ctokens, cash))
    ensures Minted(m, ctokens, cash) == m.(ctokens := m.ctokens + ctokens, cash := m.cash + cash)
  {
    Grid16Add(m.ctokens, ctokens);
    Grid16Add(m.cash, cash);
    Trunc16Bounds(m.ctokens + ctokens);
    Trunc16Bounds(m.cash + cash);
  }

  /** Redemptions leave the reserves in cash. */
  lemma BurnedOk(m: Market, ctokens: real, cash: real)
    requires MarketOk(m) && 0.0 <= ctokens <= m.ctokens && Grid16(ctokens) && Grid16(cash)
    requires cash <= m.cash - m.reserves
    ensures MarketOk(Burned(m, ctokens, cash))
    ensures Burned(m, ctokens, cash) == m.(ctokens := m.ctokens - ctokens, cash := m.cash - cash)
  {
    Grid16Add(m.ctokens, ctokens);
    Grid16Add(m.cash, cash);
    Trunc16Bounds(m.ctokens - ctokens);
    Trunc16Bounds(m.cash - cash);
    MulNonNegative(m.p.reserveFactor, m.borrows);
  }

  /** Loans leave the reserves in cash. */
  lemma LentOk(m: Market, amount: real)
    requires MarketOk(m) && Grid16(amount) && BorrowAllowed(m, amount)
    ensures MarketOk(Lent(m, amount))
    ensures Lent(m, amount) == m.(cash := m.cash - amount, borrows := m.borrows + amount)
  {
    Grid16Add(m.cash, amount);
    Grid16Add(m.borrows, amount);
    Trunc16Bounds(m.cash - amount);
    Trunc16Bounds(m.borrows + amount);
    MulNonNegative(m.p.reserveFactor, m.borrows + amount);
  }

  lemma ReturnedOk(m: Market, repay: real)
    requires MarketOk(m) && Grid16(repay) && repay >= 0.0
    ensures MarketOk(Returned(m, repay))
    ensures Returned(m, repay)
      == m.(cash := m.cash + repay, borrows := if m.borrows < repay then 0.0 else m.borrows - repay)
  {
    Grid16Zero();
    Grid16Add(m.cash, repay);
    Grid16Add(m.borrows, repay);
    Trunc16Bounds(m.cash + repay);
    Trunc16Bounds(m.borrows - repay);
    var rf := m.p.reserveFactor;
    if m.borrows < repay {
      MulMonotone(rf, 1.0, m.borrows);
    } else {
      MulMonotone(rf, 1.0, repay);
      assert rf * (m.borrows - repay) == rf * m.borrows - rf * repay;
    }
  }

  lemma WithdrawnOk(m: Market, amount: real)
    requires MarketOk(m) && Grid16(amount) && amount <= m.reserves
    ensures MarketOk(Withdrawn(m, amount))
  {
    Grid16Add(m.cash, amount);
    Grid16Add(m.reserves, amount);
  }

  /** A redemption the market allows is covered by cash above the reserves. */
  lemma RedeemCovered(m: Market, tokens: real)
    requires m.exchangeRate > 0.0 && tokens >= 0.0 && RedeemAllowed(m, tokens)
    ensures var amount := Trunc8(Mul(tokens, CurExchangeRate(m)));
      0.0 <= amount <= m.cash - m.reserves && Grid16(amount)
  {
    MulNonNegative(tokens, m.exchangeRate);
    Trunc8Bounds(Mul(tokens, m.exchangeRate));
  }

  /** Rebasing a debt to the market index rounds it to the nearest unit. */
  lemma BalanceBounds(b: Borrow, m: Market)
    requires b.interestIndex > 0.0 && b.principal >= 0.0 && m.borrowIndex > 0.0
    ensures BorrowBalance(b, m) >= 0.0 && Grid16(BorrowBalance(b, m))
    ensures Mul(b.principal, m.borrowIndex) / b.interestIndex - HALF <= BorrowBalance(b, m)
         <= Mul(b.principal, m.borrowIndex) / b.interestIndex + HALF
  {
    MulNonNegative(b.principal, m.borrowIndex);
    var q := Mul(b.principal, m.borrowIndex) / b.interestIndex;
    assert q >= 0.0;
    Round16Bounds(q);
    CeilOfGrid(Round16(q));
  }

  lemma CeilOfGrid(x: real)
    requires Grid16(x)
    ensures Ceil16(x) == x
  {
    Grid16Add(x, 0.0) by { Grid16Zero(); }
  }

  /** A row already at the market's index owes exactly its principal. */
  lemma BalanceAtIndex(b: Borrow, m: Market)
    requires b.interestIndex == m.borrowIndex > 0.0 && Grid16(b.principal)
    ensures BorrowBalance(b, m) == b.principal
  {
    assert Mul(b.principal, m.borrowIndex) / m.borrowIndex == b.principal;
    Round16Bounds(b.principal);
    CeilOfGrid(b.principal);
  }
}
