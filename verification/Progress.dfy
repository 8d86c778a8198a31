/** Progress of the assigner among all other workers: a transfer that is next in line for its asset is
    assigned after finitely many passes, once its merges keep coming back. */
module Progress {
  import opened Assigner
  import opened Pipeline

  // ---- Runs, step by step from the front -----------------------------------------------------------------

  /** The system after the events, in order. */
  function Onward(s: System, events: seq<Event>): System
    decreases |events|
  {
    if events == [] then s else Onward(Happened(s, events[0]), events[1..])
  }

  lemma {:induction false} OnwardSplit(s: System, front: seq<Event>, back: seq<Event>)
    ensures Onward(s, front + back) == Onward(Onward(s, front), back)
    decreases |front|
  {
    if front == [] {
      assert front + back == back;
    } else {
      assert (front + back)[1..] == front[1..] + back;
      OnwardSplit(Happened(s, front[0]), front[1..], back);
    }
  }

  /** One pass of the sequential worker is one of these runs: its steps, with nothing in between. */
  lemma {:induction false} PassIsARun(s: System, n: nat)
    requires |s.list| == n && forall k :: 0 <= k < n ==> s.list[k] < |s.w.transfers|
    ensures var e := Onward(s, seq(n, _ => Next)); (e.w, e.aborted) == Passed(s.w, s.list, s.aborted) && e.list == []
    decreases n
  {
    if n > 0 {
      var events := seq(n, _ => Next);
      if s.w.transfers[s.list[0]].asset !in s.aborted { TryKeeps(s.w, s.list[0]); }
      assert events[1..] == seq(n - 1, _ => Next);
      PassIsARun(Happened(s, Next), n - 1);
    }
  }

  // ---- What a run does to the free outputs of one asset ---------------------------------------------------------

  /** The next step tries transfer i. */
  predicate Attempts(s: System, e: Event, i: nat)
  {
    e.Next? && s.list != [] && s.list[0] == i && i < |s.w.transfers| && s.w.transfers[i].asset !in s.aborted
  }

  /** The next step merges outputs of the asset. */
  predicate MergesNow(s: System, e: Event, asset: nat)
  {
    && e.Next? && s.list != [] && Attempts(s, e, s.list[0])
    && s.w.transfers[s.list[0]].asset == asset && Judge(s.w, s.list[0]).Merging?
  }

  /** The next step tries transfer i with enough unspent outputs. */
  predicate TriesNow(s: System, e: Event, i: nat)
  {
    Attempts(s, e, i) && Balance(s.w.outputs, s.w.transfers[i].asset) >= s.w.transfers[i].amount
  }

  function Merges(s: System, events: seq<Event>, asset: nat): nat
    decreases |events|
  {
    if events == [] then 0
    else (if MergesNow(s, events[0], asset) then 1 else 0) + Merges(Happened(s, events[0]), events[1..], asset)
  }

  function Tries(s: System, events: seq<Event>, i: nat): nat
    decreases |events|
  {
    if events == [] then 0
    else (if TriesNow(s, events[0], i) then 1 else 0) + Tries(Happened(s, events[0]), events[1..], i)
  }

  function Receipts(events: seq<Event>, asset: nat): nat
  {
    if events == [] then 0
    else (if events[0].Receive? && events[0].asset == asset then 1 else 0) + Receipts(events[1..], asset)
  }

  /** Spending outputs of one asset leaves those of another alone. */
  lemma {:induction false} FreeElsewhere(outputs: seq<Utxo>, sel: seq<nat>, trace: Trace, asset: nat)
    requires forall k :: 0 <= k < |sel| ==> sel[k] < |outputs| ==> outputs[sel[k]].asset != asset
    ensures Free(Spend(outputs, sel, trace), asset) == Free(outputs, asset)
    decreases |outputs|
  {
    if outputs != [] {
      SpendSplits(outputs, sel, trace);
      FreeStep(outputs, asset);
      FreeStep(Spend(outputs, sel, trace), asset);
      FreeElsewhere(outputs[..|outputs| - 1], sel, trace, asset);
    }
  }

  lemma TriedElsewhere(w: Wallet, i: nat, asset: nat)
    requires i < |w.transfers| && w.transfers[i].asset != asset
    ensures Free(Tried(w, i).outputs, asset) == Free(w.outputs, asset)
    ensures Balance(Tried(w, i).outputs, asset) == Balance(w.outputs, asset)
  {
    var t := w.transfers[i];
    var sel := Selected(w.outputs, t);
    FreeElsewhere(w.outputs, sel, t.trace, asset);
    FreeElsewhere(w.outputs, sel, MergeFor(t.trace, sel), asset);
    SumFrame(w.outputs, Tried(w, i).outputs, Free(w.outputs, asset));
  }

  lemma TriedFree(w: Wallet, i: nat)
    requires i < |w.transfers|
    ensures var asset := w.transfers[i].asset;
      |Free(Tried(w, i).outputs, asset)| + (if Judge(w, i).Merging? then 32 else 0) <= |Free(w.outputs, asset)|
  {
    var t := w.transfers[i];
    var sel := Selected(w.outputs, t);
    FreeAfterSpend(w.outputs, t.asset, sel, t.trace);
    FreeAfterSpend(w.outputs, t.asset, sel, MergeFor(t.trace, sel));
  }

  lemma FreeReceived(outputs: seq<Utxo>, u: Utxo, asset: nat)
    requires u.spentBy.Nobody?
    ensures Free(outputs + [u], asset) == Free(outputs, asset) + (if u.asset == asset then [|outputs|] else [])
    ensures Balance(outputs + [u], asset) == Balance(outputs, asset) + (if u.asset == asset then u.amount else 0.0)
  {
    var more, f := outputs + [u], Free(outputs, asset);
    FreeStep(more, asset);
    assert more[..|outputs|] == outputs;
    SumFrame(outputs, more, f);
    if u.asset == asset { SumLast(more, f, |outputs|); } else { assert f + [] == f; }
  }

  lemma EventFree(s: System, e: Event, asset: nat)
    ensures |Free(Happened(s, e).w.outputs, asset)| + (if MergesNow(s, e, asset) then 32 else 0)
         <= |Free(s.w.outputs, asset)| + Receipts([e], asset)
  {
    assert [e][1..] == [];
    match e
    case Receive(a, amount) => FreeReceived(s.w.outputs, Utxo(a, amount, Nobody), asset);
    case Next =>
      if s.list != [] && Attempts(s, e, s.list[0]) {
        if s.w.transfers[s.list[0]].asset == asset {
          TriedFree(s.w, s.list[0]);
        } else {
          TriedElsewhere(s.w, s.list[0], asset);
        }
      }
    case _ =>
  }

  /** Every merge takes 32 outputs of its asset away, whatever else happens: their number bounds the
      merges there can be. */
  lemma {:induction false} MergesAreBounded(s: System, events: seq<Event>, asset: nat)
    ensures |Free(Onward(s, events).w.outputs, asset)| + 32 * Merges(s, events, asset)
         <= |Free(s.w.outputs, asset)| + Receipts(events, asset)
    decreases |events|
  {
    if events != [] {
      var e := events[0];
      EventFree(s, e, asset);
      assert Receipts([e], asset) == (if e.Receive? && e.asset == asset then 1 else 0) by { assert [e][1..] == []; }
      MergesAreBounded(Happened(s, e), events[1..], asset);
    }
  }

  // ---- Tries end in merges or in the assignment ------------------------------------------------------------------

  lemma {:induction false} OnwardKeeps(s: System, events: seq<Event>)
    ensures Kept(s.w, Onward(s, events).w)
    decreases |events|
  {
    if events == [] {
      KeptSelf(s.w);
    } else {
      EventKeeps(s, events[0]);
      OnwardKeeps(Happened(s, events[0]), events[1..]);
      KeptChain(s.w, Happened(s, events[0]).w, Onward(s, events).w);
    }
  }

  lemma KeptSelf(w: Wallet)
    ensures Kept(w, w)
  {
  }

  /** While a transfer is not assigned, every try at it with enough outputs merges. */
  lemma {:induction false} TriesMerge(s: System, events: seq<Event>, i: nat)
    requires Inv(s.w) && Listed(s) && i < |s.w.transfers|
    requires i < |Onward(s, events).w.transfers| && !Onward(s, events).w.transfers[i].isAssigned
    ensures Tries(s, events, i) <= Merges(s, events, s.w.transfers[i].asset)
    decreases |events|
  {
    if events != [] {
      var e := events[0];
      var next := Happened(s, e);
      EventKeeps(s, e);
      EventKeepsInv(s, e);
      EventKeepsListed(s, e);
      assert TransferKept(s.w.transfers[i], next.w.transfers[i]);
      TriesMerge(next, events[1..], i);
      if TriesNow(s, e, i) {
        NeverInsufficient(s.w, i);
        OnwardKeeps(next, events[1..]);
        assert TransferKept(next.w.transfers[i], Onward(s, events).w.transfers[i]);
      }
    }
  }

  /** Enough tries assign the transfer. The outputs received are the merges coming back and a number
      of others. */
  lemma EnoughTriesAssign(s: System, events: seq<Event>, i: nat, others: nat)
    requires Inv(s.w) && Listed(s) && i < |s.w.transfers|
    requires var asset := s.w.transfers[i].asset;
      && Receipts(events, asset) <= Merges(s, events, asset) + others
      && 31 * Tries(s, events, i) > |Free(s.w.outputs, asset)| + others
    ensures i < |Onward(s, events).w.transfers| && Onward(s, events).w.transfers[i].isAssigned
  {
    OnwardKeeps(s, events);
    if !Onward(s, events).w.transfers[i].isAssigned {
      TriesMerge(s, events, i);
      MergesAreBounded(s, events, s.w.transfers[i].asset);
    }
  }

  // ---- The first hundred -----------------------------------------------------------------------------------------

  lemma FirstSmaller(f: seq<nat>, g: seq<nat>, i: nat)
    requires BATCH <= |g| <= |f| && f[..|g|] == g && forall k :: 0 <= k < |g| ==> g[k] < i
    ensures i !in f[..BATCH]
  {
    forall k | 0 <= k < BATCH
      ensures f[..BATCH][k] != i
    {
      assert f[..|g|][k] == g[k];
    }
  }

  lemma {:induction false} WaitingPrefix(transfers: seq<Transfer>, i: nat)
    requires i <= |transfers|
    ensures |Waiting(transfers[..i])| <= |Waiting(transfers)|
    ensures Waiting(transfers)[..|Waiting(transfers[..i])|] == Waiting(transfers[..i])
    decreases |transfers|
  {
    if i == |transfers| {
      assert transfers[..i] == transfers;
    } else {
      var front := transfers[..|transfers| - 1];
      WaitingPrefix(front, i);
      assert front[..i] == transfers[..i];
    }
  }

  /** A pending transfer is listed exactly if fewer than a hundred pending ones come before it. */
  lemma ListedExactlyIfWithinBatch(transfers: seq<Transfer>, i: nat)
    requires i < |transfers| && Pending(transfers[i])
    ensures i in ListPending(transfers) <==> |Waiting(transfers[..i])| < 100
  {
    var f, g := Waiting(transfers), Waiting(transfers[..i]);
    WaitingPrefix(transfers, i);
    if |g| < BATCH {
      WaitingPrefix(transfers, i + 1);
      assert transfers[..i + 1][..i] == transfers[..i];
      assert Waiting(transfers[..i + 1]) == g + [i];
      assert f[|g|] == f[..|g| + 1][|g|] == i;
      assert ListPending(transfers)[|g|] == i;
    } else {
      FirstSmaller(f, g, i);
    }
  }

  /** The pending transfers before a given one never grow in number: once within reach, always so. */
  lemma {:induction false} WaitingShrinks(w: Wallet, e: Wallet, i: nat)
    requires Kept(w, e) && i <= |w.transfers|
    ensures |Waiting(e.transfers[..i])| <= |Waiting(w.transfers[..i])|
    decreases i
  {
    if i > 0 {
      WaitingShrinks(w, e, i - 1);
      assert w.transfers[..i][..i - 1] == w.transfers[..i - 1] && e.transfers[..i][..i - 1] == e.transfers[..i - 1];
      assert TransferKept(w.transfers[i - 1], e.transfers[i - 1]);
    }
  }

  // ---- Passes ----------------------------------------------------------------------------------------------------

  /** In the middle of a pass: transfer i is on the list behind q others, and is the first of its asset
      that is not assigned. */
  predicate Waits(s: System, i: nat, q: nat)
  {
    && Inv(s.w) && Listed(s) && q < |s.list| && s.list[q] == i && Foremost(s.w.transfers, i)
    && s.w.transfers[i].asset !in s.aborted
  }

  /** Outputs carry positive amounts; the assigner does not start over in the middle of a pass. */
  predicate Goes(e: Event) { !e.Start? && (e.Receive? ==> e.amount >= 0.0) }

  /** The transfers tried before i in the pass are of other assets. */
  lemma OthersFirst(s: System, i: nat, q: nat)
    requires Waits(s, i, q) && q > 0
    ensures s.w.transfers[s.list[0]].asset != s.w.transfers[i].asset
  {
    assert s.list[0] < s.list[q];
    assert !s.w.transfers[s.list[0]].merge && !s.w.transfers[i].merge;
  }

  lemma WaitNext(s: System, i: nat, q: nat)
    requires Waits(s, i, q) && q > 0
    ensures var e := Happened(s, Next);
      && Waits(e, i, q - 1) && e.w.transfers[i] == s.w.transfers[i]
      && Balance(e.w.outputs, s.w.transfers[i].asset) == Balance(s.w.outputs, s.w.transfers[i].asset)
  {
    var next, j := Happened(s, Next), s.list[0];
    OthersFirst(s, i, q);
    EventKeepsInv(s, Next);
    EventKeepsListed(s, Next);
    if s.w.transfers[j].asset !in s.aborted {
      TriedElsewhere(s.w, j, s.w.transfers[i].asset);
      TriedTransfers(s.w, j);
    }
    assert next.list[q - 1] == i && next.w.transfers[i] == s.w.transfers[i];
  }

  lemma WaitOther(s: System, e: Event, i: nat, q: nat)
    requires Waits(s, i, q) && Goes(e) && !e.Next?
    ensures var next := Happened(s, e);
      && Waits(next, i, q) && next.w.transfers[i] == s.w.transfers[i]
      && Balance(next.w.outputs, s.w.transfers[i].asset) >= Balance(s.w.outputs, s.w.transfers[i].asset)
  {
    EventKeepsInv(s, e);
    EventKeepsListed(s, e);
    match e
    case Receive(a, amount) => FreeReceived(s.w.outputs, Utxo(a, amount, Nobody), s.w.transfers[i].asset);
    case _ =>
  }

  function Nexts(events: seq<Event>): nat
  {
    if events == [] then 0 else (if events[0].Next? then 1 else 0) + Nexts(events[1..])
  }

  /** The attempts at transfer i. */
  function AttemptsAt(s: System, events: seq<Event>, i: nat): nat
    decreases |events|
  {
    if events == [] then 0
    else (if Attempts(s, events[0], i) then 1 else 0) + AttemptsAt(Happened(s, events[0]), events[1..], i)
  }

  /** A pass that is long enough gets to the transfer, whatever happens in between. */
  lemma {:induction false} PassTries(s: System, events: seq<Event>, i: nat, q: nat)
    requires Waits(s, i, q) && (forall e :: e in events ==> Goes(e)) && Nexts(events) > q
    ensures AttemptsAt(s, events, i) >= 1
    ensures Balance(s.w.outputs, s.w.transfers[i].asset) >= s.w.transfers[i].amount ==> Tries(s, events, i) >= 1
    decreases |events|
  {
    var e := events[0];
    if e.Next? && q == 0 {
      assert Attempts(s, e, i);
    } else if e.Next? {
      WaitNext(s, i, q);
      PassTries(Happened(s, e), events[1..], i, q - 1);
    } else {
      WaitOther(s, e, i, q);
      PassTries(Happened(s, e), events[1..], i, q);
    }
  }

  /** A whole pass: it starts, and then takes as many steps as a list can hold. */
  predicate Pass(events: seq<Event>)
  {
    events != [] && events[0].Start? && (forall e :: e in events[1..] ==> Goes(e)) && Nexts(events[1..]) >= BATCH
  }

  lemma {:induction false} UnlistedIsNotTried(s: System, events: seq<Event>, i: nat)
    requires i !in s.list && forall e :: e in events ==> Goes(e)
    ensures AttemptsAt(s, events, i) == 0
    decreases |events|
  {
    if events != [] {
      assert Goes(events[0]);
      UnlistedIsNotTried(Happened(s, events[0]), events[1..], i);
    }
  }

  lemma StartWaits(s: System, i: nat) returns (q: nat)
    requires Inv(s.w) && i < |s.w.transfers| && Foremost(s.w.transfers, i) && i in ListPending(s.w.transfers)
    ensures Waits(Happened(s, Start), i, q) && q < BATCH
  {
    var list := ListPending(s.w.transfers);
    StartListed(s);
    q :| 0 <= q < |list| && list[q] == i;
  }

  lemma PendingIfUnassigned(w: Wallet, i: nat)
    requires Inv(w) && i < |w.transfers| && !w.transfers[i].isAssigned
    ensures Pending(w.transfers[i])
  {
    assert Staged(w.transfers[i]);
  }

  /** Next in line for its asset, a transfer is tried in a pass exactly if fewer than a hundred pending
      transfers come before it. */
  lemma TriedExactlyIfWithinBatch(s: System, events: seq<Event>, i: nat)
    requires Inv(s.w) && Pass(events) && i < |s.w.transfers|
    requires Foremost(s.w.transfers, i) && !s.w.transfers[i].isAssigned
    ensures AttemptsAt(s, events, i) >= 1 <==> |Waiting(s.w.transfers[..i])| < 100
    ensures AttemptsAt(s, events, i) >= 1 && Balance(s.w.outputs, s.w.transfers[i].asset) >= s.w.transfers[i].amount
      ==> Tries(s, events, i) >= 1
  {
    var next := Happened(s, Start);
    PendingIfUnassigned(s.w, i);
    ListedExactlyIfWithinBatch(s.w.transfers, i);
    if i in next.list {
      var q := StartWaits(s, i);
      PassTries(next, events[1..], i, q);
    } else {
      UnlistedIsNotTried(next, events[1..], i);
    }
  }

  // ---- What becomes of the balance -------------------------------------------------------------------------------

  /** The value merged, and the value received, of one asset. */
  function MergedValue(s: System, events: seq<Event>, asset: nat): real
    decreases |events|
  {
    if events == [] then 0.0
    else MergedNow(s, events[0], asset) + MergedValue(Happened(s, events[0]), events[1..], asset)
  }

  function MergedNow(s: System, e: Event, asset: nat): real
  {
    if MergesNow(s, e, asset) then Sum(s.w.outputs, Selected(s.w.outputs, s.w.transfers[s.list[0]])) else 0.0
  }

  function ReceivedValue(events: seq<Event>, asset: nat): real
  {
    if events == [] then 0.0 else ReceivedNow(events[0], asset) + ReceivedValue(events[1..], asset)
  }

  function ReceivedNow(e: Event, asset: nat): real
  {
    if e.Receive? && e.asset == asset then e.amount else 0.0
  }

  /** In the middle of a pass: no transfer of the asset but i will be tried. */
  predicate First(s: System, i: nat)
  {
    && Inv(s.w) && Listed(s) && i < |s.w.transfers| && Foremost(s.w.transfers, i) && !s.w.transfers[i].isAssigned
    && (s.w.transfers[i].asset in s.aborted || i in s.list
        || forall k :: 0 <= k < |s.list| ==> s.w.transfers[s.list[k]].asset != s.w.transfers[i].asset)
  }

  lemma FirstIsHead(s: System, i: nat)
    requires First(s, i) && s.list != [] && s.w.transfers[i].asset !in s.aborted
    requires s.w.transfers[s.list[0]].asset == s.w.transfers[i].asset
    ensures s.list[0] == i
  {
    var q :| 0 <= q < |s.list| && s.list[q] == i;
    assert s.list[0] <= s.list[q];
  }

  lemma FirstStays(s: System, e: Event, i: nat)
    requires First(s, i) && !e.Start? && !Happened(s, e).w.transfers[i].isAssigned
    ensures First(Happened(s, e), i)
  {
    var next := Happened(s, e);
    EventKeepsInv(s, e);
    EventKeepsListed(s, e);
    EventKeeps(s, e);
    StaysForemost(s.w, next.w, i);
    assert TransferKept(s.w.transfers[i], next.w.transfers[i]);
    if e.Next? && s.list != [] {
      if s.w.transfers[i].asset !in s.aborted && i in s.list && i !in next.list { assert s.list[0] == i; }
      TailKept(s, next);
    }
  }

  lemma TailKept(s: System, next: System)
    requires Listed(s) && s.list != [] && next == Happened(s, Next)
    ensures next.list == s.list[1..] && |s.w.transfers| <= |next.w.transfers|
    ensures forall k :: 0 <= k < |next.list| ==>
      s.list[k + 1] < |s.w.transfers| && next.w.transfers[next.list[k]].asset == s.w.transfers[s.list[k + 1]].asset
  {
    TryKeeps(s.w, s.list[0]);
    forall k | 0 <= k < |s.w.transfers|
      ensures next.w.transfers[k].asset == s.w.transfers[k].asset
    {
      assert TransferKept(s.w.transfers[k], Tried(s.w, s.list[0]).transfers[k]);
    }
  }

  lemma TriedBalance(w: Wallet, i: nat)
    requires i < |w.transfers| && !Judge(w, i).Assigned?
    ensures var t := w.transfers[i];
      Balance(Tried(w, i).outputs, t.asset)
        + (if Judge(w, i).Merging? then Sum(w.outputs, Selected(w.outputs, t)) else 0.0)
        == Balance(w.outputs, t.asset)
  {
    var t := w.transfers[i];
    var sel, f := Selected(w.outputs, t), Free(w.outputs, t.asset);
    if Judge(w, i).Merging? {
      FreeAfterSpend(w.outputs, t.asset, sel, MergeFor(t.trace, sel));
      SumSplit(w.outputs, f, |sel|);
      SumFrame(w.outputs, Tried(w, i).outputs, f[|sel|..]);
    }
  }

  lemma EventBalance(s: System, e: Event, i: nat)
    requires First(s, i) && !e.Start? && !Happened(s, e).w.transfers[i].isAssigned
    ensures var asset := s.w.transfers[i].asset;
      Balance(Happened(s, e).w.outputs, asset) + MergedNow(s, e, asset)
        == Balance(s.w.outputs, asset) + ReceivedNow(e, asset)
  {
    var asset := s.w.transfers[i].asset;
    match e
    case Receive(a, amount) => FreeReceived(s.w.outputs, Utxo(a, amount, Nobody), asset);
    case Next =>
      if s.list != [] && Attempts(s, e, s.list[0]) {
        if s.w.transfers[s.list[0]].asset == asset {
          FirstIsHead(s, i);
          TriedTransfers(s.w, i);
          TriedBalance(s.w, i);
        } else {
          TriedElsewhere(s.w, s.list[0], asset);
        }
      }
    case _ =>
  }

  /** While a transfer is next in line and not assigned, the balance of its asset changes by what is
      received and what is merged. */
  lemma {:induction false} BalanceChanges(s: System, events: seq<Event>, i: nat)
    requires First(s, i) && forall e :: e in events ==> Goes(e)
    requires i < |Onward(s, events).w.transfers| && !Onward(s, events).w.transfers[i].isAssigned
    ensures var asset := s.w.transfers[i].asset;
      Balance(Onward(s, events).w.outputs, asset) + MergedValue(s, events, asset)
        == Balance(s.w.outputs, asset) + ReceivedValue(events, asset)
    decreases |events|
  {
    if events != [] {
      var e := events[0];
      var next := Happened(s, e);
      EventKeeps(s, e);
      OnwardKeeps(next, events[1..]);
      assert TransferKept(s.w.transfers[i], next.w.transfers[i]);
      assert TransferKept(next.w.transfers[i], Onward(s, events).w.transfers[i]);
      assert Goes(e);
      FirstStays(s, e, i);
      EventBalance(s, e, i);
      BalanceChanges(next, events[1..], i);
    }
  }

  lemma StartFirst(s: System, i: nat)
    requires Inv(s.w) && i < |s.w.transfers| && Foremost(s.w.transfers, i) && !s.w.transfers[i].isAssigned
    requires |Waiting(s.w.transfers[..i])| < BATCH
    ensures First(Happened(s, Start), i)
  {
    StartListed(s);
    PendingIfUnassigned(s.w, i);
    ListedExactlyIfWithinBatch(s.w.transfers, i);
  }

  lemma PassBalance(s: System, events: seq<Event>, i: nat)
    requires Inv(s.w) && Pass(events) && i < |s.w.transfers|
    requires Foremost(s.w.transfers, i) && |Waiting(s.w.transfers[..i])| < BATCH
    requires i < |Onward(s, events).w.transfers| && !Onward(s, events).w.transfers[i].isAssigned
    ensures var asset := s.w.transfers[i].asset;
      Balance(Onward(s, events).w.outputs, asset) + MergedValue(s, events, asset)
        == Balance(s.w.outputs, asset) + ReceivedValue(events, asset)
  {
    OnwardKeeps(s, events);
    assert TransferKept(s.w.transfers[i], Onward(s, events).w.transfers[i]);
    StartFirst(s, i);
    BalanceChanges(Happened(s, Start), events[1..], i);
  }

  // ---- Any number of passes --------------------------------------------------------------------------------------

  function Joined(passes: seq<seq<Event>>): seq<Event> { if passes == [] then [] else passes[0] + Joined(passes[1..]) }

  /** Before each pass, at least as much of the asset has been received as has been merged, `owed` aside. */
  ghost predicate MergesReturn(s: System, passes: seq<seq<Event>>, asset: nat, owed: real)
    decreases |passes|
  {
    passes == []
    || (var more := MergedValue(s, passes[0], asset) - ReceivedValue(passes[0], asset);
        owed <= 0.0 && MergesReturn(Onward(s, passes[0]), passes[1..], asset, owed + more))
  }

  lemma {:induction false} TriesSplit(s: System, front: seq<Event>, back: seq<Event>, i: nat)
    ensures Tries(s, front + back, i) == Tries(s, front, i) + Tries(Onward(s, front), back, i)
    decreases |front|
  {
    if front == [] {
      assert front + back == back;
    } else {
      assert (front + back)[1..] == front[1..] + back;
      TriesSplit(Happened(s, front[0]), front[1..], back, i);
    }
  }

  lemma {:induction false} OnwardInv(s: System, events: seq<Event>)
    requires Inv(s.w) && Listed(s)
    ensures Inv(Onward(s, events).w) && Listed(Onward(s, events))
    decreases |events|
  {
    if events != [] {
      EventKeepsInv(s, events[0]);
      EventKeepsListed(s, events[0]);
      OnwardInv(Happened(s, events[0]), events[1..]);
    }
  }

  lemma StaysForemost(w: Wallet, e: Wallet, i: nat)
    requires Kept(w, e) && i < |w.transfers| && Foremost(w.transfers, i)
    ensures Foremost(e.transfers, i)
  {
    forall j | 0 <= j < i && !e.transfers[j].merge && e.transfers[j].asset == e.transfers[i].asset
      ensures e.transfers[j].isAssigned
    {
      assert TransferKept(w.transfers[j], e.transfers[j]) && TransferKept(w.transfers[i], e.transfers[i]);
    }
  }

  /** A pass and what follows it: the transfer, not assigned at the end, keeps its place in between. */
  lemma PassKeepsPlace(s: System, pass: seq<Event>, rest: seq<Event>, i: nat)
    requires Inv(s.w) && Listed(s) && i < |s.w.transfers| && Foremost(s.w.transfers, i)
    requires i < |Onward(s, pass + rest).w.transfers| && !Onward(s, pass + rest).w.transfers[i].isAssigned
    ensures var e := Onward(s, pass);
      && Inv(e.w) && Listed(e) && i < |e.w.transfers| && Foremost(e.w.transfers, i)
      && TransferKept(s.w.transfers[i], e.w.transfers[i]) && !e.w.transfers[i].isAssigned
      && |Waiting(e.w.transfers[..i])| <= |Waiting(s.w.transfers[..i])|
      && Onward(s, pass + rest) == Onward(e, rest)
  {
    var e := Onward(s, pass);
    OnwardInv(s, pass);
    OnwardKeeps(s, pass);
    StaysForemost(s.w, e.w, i);
    WaitingShrinks(s.w, e.w, i);
    OnwardSplit(s, pass, rest);
    OnwardKeeps(e, rest);
    assert TransferKept(s.w.transfers[i], e.w.transfers[i]);
    assert TransferKept(e.w.transfers[i], Onward(e, rest).w.transfers[i]);
  }

  lemma {:induction false} EveryPassTries(s: System, passes: seq<seq<Event>>, i: nat, owed: real)
    requires Inv(s.w) && Listed(s) && i < |s.w.transfers| && Foremost(s.w.transfers, i)
    requires |Waiting(s.w.transfers[..i])| < BATCH && forall p :: p in passes ==> Pass(p)
    requires var asset := s.w.transfers[i].asset;
      Balance(s.w.outputs, asset) + owed >= s.w.transfers[i].amount && MergesReturn(s, passes, asset, owed)
    requires i < |Onward(s, Joined(passes)).w.transfers| && !Onward(s, Joined(passes)).w.transfers[i].isAssigned
    ensures Tries(s, Joined(passes), i) >= |passes|
    decreases |passes|
  {
    if passes != [] {
      var pass, rest, asset := passes[0], Joined(passes[1..]), s.w.transfers[i].asset;
      PassKeepsPlace(s, pass, rest, i);
      TriedExactlyIfWithinBatch(s, pass, i);
      PassBalance(s, pass, i);
      var more := MergedValue(s, pass, asset) - ReceivedValue(pass, asset);
      EveryPassTries(Onward(s, pass), passes[1..], i, owed + more);
      TriesSplit(s, pass, rest, i);
    }
  }

  /** Assigner progress: among all workers, with any events in between, a transfer that is next in line
      for its asset, among the first hundred pending and covered by the unspent outputs, is assigned
      after finitely many passes, as long as the value merged is received again before the next pass.
      The bound is one pass for every 31 outputs the asset had unspent or received besides its merges. */
  lemma TransfersGetAssigned(s: System, passes: seq<seq<Event>>, i: nat, others: nat)
    requires Inv(s.w) && Listed(s) && i < |s.w.transfers| && Foremost(s.w.transfers, i)
    requires |Waiting(s.w.transfers[..i])| < BATCH
    requires Balance(s.w.outputs, s.w.transfers[i].asset) >= s.w.transfers[i].amount
    requires (forall p :: p in passes ==> Pass(p)) && MergesReturn(s, passes, s.w.transfers[i].asset, 0.0)
    requires var asset, events := s.w.transfers[i].asset, Joined(passes);
      && Receipts(events, asset) <= Merges(s, events, asset) + others
      && 31 * |passes| > |Free(s.w.outputs, asset)| + others
    ensures var e := Onward(s, Joined(passes)); i < |e.w.transfers| && e.w.transfers[i].isAssigned
  {
    OnwardKeeps(s, Joined(passes));
    if !Onward(s, Joined(passes)).w.transfers[i].isAssigned {
      EveryPassTries(s, passes, i, 0.0);
      EnoughTriesAssign(s, Joined(passes), i, others);
    }
  }
}
