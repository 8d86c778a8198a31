/** Coin selection and the transfer pipeline: worker/assigner/assigner.go, store/wallet/wallet.go,
    worker/cashier/cashier.go, worker/spentsync. */
module Assigner {

  /** Trace ids; a merge is named after the transfer it serves and the outputs it merges. */
  datatype Trace = Named(n: nat) | MergeFor(of: Trace, outputs: seq<nat>)

  datatype Spender = Nobody | By(trace: Trace)

  datatype Utxo = Utxo(asset: nat, amount: real, spentBy: Spender)

  datatype Transfer = Transfer(
    trace: Trace,
    asset: nat,
    amount: real,
    version: int,
    merge: bool,
    isAssigned: bool,
    isHandled: bool,
    isPassed: bool)

  /** The two tables. Rows are never deleted, so a row's id is its position plus one. */
  datatype Wallet = Wallet(outputs: seq<Utxo>, transfers: seq<Transfer>)

  // ---- Queries ------------------------------------------------------------------------------------

  predicate IsFree(u: Utxo, asset: nat) { u.asset == asset && u.spentBy.Nobody? }

  /** The positions of the unspent outputs of an asset, in id order. */
  function Free(outputs: seq<Utxo>, asset: nat): (f: seq<nat>)
    ensures forall k :: 0 <= k < |f| ==> f[k] < |outputs| && IsFree(outputs[f[k]], asset)
    ensures forall j, k :: 0 <= j < k < |f| ==> f[j] < f[k]
  {
    if outputs == [] then []
    else
      var l := |outputs| - 1;
      Free(outputs[..l], asset) + (if IsFree(outputs[l], asset) then [l] else [])
  }

  function Sum(outputs: seq<Utxo>, sel: seq<nat>): real
    requires forall k :: 0 <= k < |sel| ==> sel[k] < |outputs|
  {
    if sel == [] then 0.0 else Sum(outputs, sel[..|sel| - 1]) + outputs[sel[|sel| - 1]].amount
  }

  function Balance(outputs: seq<Utxo>, asset: nat): real { Sum(outputs, Free(outputs, asset)) }

  /** The value of the outputs assigned to a transfer. */
  function SpentSum(outputs: seq<Utxo>, trace: Trace): real
  {
    if outputs == [] then 0.0
    else
      var l := |outputs| - 1;
      SpentSum(outputs[..l], trace) + (if outputs[l].spentBy == By(trace) then outputs[l].amount else 0.0)
  }

  const LIMIT: nat := 32

  function Page(outputs: seq<Utxo>, asset: nat): seq<nat>
  {
    var f := Free(outputs, asset);
    if |f| <= LIMIT then f else f[..LIMIT]
  }

  predicate Pending(t: Transfer) { !t.isHandled && !t.isAssigned }

  // ---- Selection ---------------------------------------------------------------------------------------

  /** Spend a full page if all of it is older than the transfer. */
  predicate Wipes(page: seq<nat>, t: Transfer) { |page| == LIMIT && page[LIMIT - 1] + 1 <= t.version }

  /** How many outputs of the page to take, starting from n: the first that cover the amount, or
      all of them. */
  function Enough(outputs: seq<Utxo>, page: seq<nat>, t: Transfer, n: nat): (k: nat)
    requires n <= |page| && forall k :: 0 <= k < |page| ==> page[k] < |outputs|
    ensures n <= k <= |page|
    decreases |page| - n
  {
    if n == |page| then n
    else if !Wipes(page, t) && Sum(outputs, page[..n + 1]) >= t.amount then n + 1
    else Enough(outputs, page, t, n + 1)
  }

  function Selected(outputs: seq<Utxo>, t: Transfer): (sel: seq<nat>)
    ensures forall k :: 0 <= k < |sel| ==> sel[k] < |outputs| && IsFree(outputs[sel[k]], t.asset)
    ensures |sel| <= LIMIT && |sel| <= |Free(outputs, t.asset)| && sel == Free(outputs, t.asset)[..|sel|]
  {
    var page := Page(outputs, t.asset);
    page[..Enough(outputs, page, t, 0)]
  }

  function Spend(outputs: seq<Utxo>, sel: seq<nat>, trace: Trace): seq<Utxo>
  {
    seq(|outputs|, i requires 0 <= i < |outputs| => if i in sel then outputs[i].(spentBy := By(trace)) else outputs[i])
  }

  function MergeOf(t: Transfer, sel: seq<nat>, sum: real): Transfer
  {
    Transfer(MergeFor(t.trace, sel), t.asset, sum, t.version, true, true, false, false)
  }

  predicate HasTrace(transfers: seq<Transfer>, trace: Trace)
  {
    exists k :: 0 <= k < |transfers| && transfers[k].trace == trace
  }

  datatype Verdict = Assigned | Merging | Insufficient | Duplicate

  /** What an attempt at transfer i decides. */
  function Judge(w: Wallet, i: nat): Verdict
    requires i < |w.transfers|
  {
    var t := w.transfers[i];
    var sel := Selected(w.outputs, t);
    if Sum(w.outputs, sel) >= t.amount then Assigned
    else if |sel| < LIMIT then Insufficient
    else if HasTrace(w.transfers, MergeFor(t.trace, sel)) then Duplicate
    else Merging
  }

  /** The tables after an attempt at transfer i. Assigning is one transaction. */
  function Tried(w: Wallet, i: nat): Wallet
    requires i < |w.transfers|
  {
    var t := w.transfers[i];
    var sel := Selected(w.outputs, t);
    match Judge(w, i)
    case Assigned => Wallet(Spend(w.outputs, sel, t.trace), w.transfers[i := t.(isAssigned := true)])
    case Merging =>
      Wallet(Spend(w.outputs, sel, MergeFor(t.trace, sel)), w.transfers + [MergeOf(t, sel, Sum(w.outputs, sel))])
    case Insufficient => w
    case Duplicate => w
  }

  // ---- The workers -----------------------------------------------------------------------------------------

  const BATCH: nat := 100

  /** The positions of the pending transfers, in id order. */
  function Waiting(transfers: seq<Transfer>): (f: seq<nat>)
    ensures forall k :: 0 <= k < |f| ==> f[k] < |transfers| && Pending(transfers[f[k]])
    ensures forall j, k :: 0 <= j < k < |f| ==> f[j] < f[k]
  {
    if transfers == [] then []
    else
      var l := |transfers| - 1;
      Waiting(transfers[..l]) + (if Pending(transfers[l]) then [l] else [])
  }

  function ListPending(transfers: seq<Transfer>): seq<nat>
  {
    var f := Waiting(transfers);
    if |f| <= BATCH then f else f[..BATCH]
  }

  /** A pass over a list of transfers, skipping the assets of failed ones. */
  function Passed(w: Wallet, list: seq<nat>, aborted: set<nat>): (r: (Wallet, set<nat>))
    requires forall k :: 0 <= k < |list| ==> list[k] < |w.transfers|
    decreases |list|
  {
    if list == [] then (w, aborted)
    else
      var asset := w.transfers[list[0]].asset;
      if asset in aborted then Passed(w, list[1..], aborted)
      else Passed(Tried(w, list[0]), list[1..], if Judge(w, list[0]).Assigned? then aborted else aborted + {asset})
  }

  lemma SumNext(outputs: seq<Utxo>, page: seq<nat>, n: nat)
    requires n < |page| && forall k :: 0 <= k < |page| ==> page[k] < |outputs|
    ensures Sum(outputs, page[..n + 1]) == Sum(outputs, page[..n]) + outputs[page[n]].amount
  {
    assert page[..n + 1][..n] == page[..n];
  }

  /** Takes outputs from the page until they cover the amount, or all of them. */
  method SelectOutputs(outputs: seq<Utxo>, page: seq<nat>, t: Transfer) returns (traces: seq<nat>, sum: real)
    requires forall k :: 0 <= k < |page| ==> page[k] < |outputs|
    ensures traces == page[..Enough(outputs, page, t, 0)] && sum == Sum(outputs, traces)
  {
    var idx := 0;
    traces, sum := [], 0.0;
    var wipe := |page| == LIMIT && page[LIMIT - 1] + 1 <= t.version;
    while idx < |page|
      invariant idx <= |page| && traces == page[..idx] && sum == Sum(outputs, page[..idx])
      invariant Enough(outputs, page, t, 0) == Enough(outputs, page, t, idx)
    {
      SumNext(outputs, page, idx);
      sum := sum + outputs[page[idx]].amount;
      traces := traces + [page[idx]];
      idx := idx + 1;
      if wipe { continue; }
      if sum >= t.amount { break; }
    }
  }

  class Worker {
    var outputs: seq<Utxo>
    var transfers: seq<Transfer>

    function Stored(): Wallet
      reads this
    {
      Wallet(outputs, transfers)
    }

    /** Selects outputs for one transfer and commits them to it, or to a merge. */
    method HandleTransfer(i: nat) returns (ok: bool)
      requires i < |transfers|
      modifies this
      ensures Stored() == Tried(old(Stored()), i)
      ensures ok <==> Judge(old(Stored()), i).Assigned?
    {
      var t := transfers[i];
      var traces, sum := SelectOutputs(outputs, Page(outputs, t.asset), t);
      if sum < t.amount {
        if |traces| == LIMIT && !HasTrace(transfers, MergeFor(t.trace, traces)) {
          outputs := Spend(outputs, traces, MergeFor(t.trace, traces));
          transfers := transfers + [MergeOf(t, traces, sum)];
        }
        return false;
      }
      outputs := Spend(outputs, traces, t.trace);
      transfers := transfers[i := t.(isAssigned := true)];
      return true;
    }

    /** One pass over the first pending transfers. */
    method Run() returns (aborted: set<nat>)
      modifies this
      ensures (Stored(), aborted) == Passed(old(Stored()), ListPending(old(transfers)), {})
    {
      var list := ListPending(transfers);
      aborted := {};
      assert list[0..] == list;
      for k := 0 to |list|
        invariant |transfers| >= |old(transfers)|
        invariant Passed(old(Stored()), list, {}) == Passed(Stored(), list[k..], aborted)
      {
        assert list[k..][0] == list[k] && list[k..][1..] == list[k + 1..];
        var asset := transfers[list[k]].asset;
        if asset in aborted { continue; }
        var ok := HandleTransfer(list[k]);
        if !ok { aborted := aborted + {asset}; }
      }
    }
  }

  // ---- What an assignment does to the outputs -------------------------------------------------------------

  lemma {:induction false} SumFrame(outputs: seq<Utxo>, more: seq<Utxo>, sel: seq<nat>)
    requires forall k :: 0 <= k < |sel| ==> sel[k] < |outputs| && sel[k] < |more|
    requires forall k :: 0 <= k < |sel| ==> outputs[sel[k]].amount == more[sel[k]].amount
    ensures Sum(outputs, sel) == Sum(more, sel)
    decreases |sel|
  {
    if sel != [] { SumFrame(outputs, more, sel[..|sel| - 1]); }
  }

  /** Spending changes the outputs chosen and no others. */
  lemma SpendSplits(outputs: seq<Utxo>, sel: seq<nat>, trace: Trace)
    requires outputs != []
    ensures var l := |outputs| - 1;
      Spend(outputs, sel, trace)[..l] == Spend(outputs[..l], sel, trace)
  {
  }

  /** Outputs spent for one trace do not count for another. */
  lemma {:induction false} SpentElsewhere(outputs: seq<Utxo>, sel: seq<nat>, trace: Trace, other: Trace)
    requires trace != other && forall k :: 0 <= k < |sel| ==> sel[k] < |outputs| ==> outputs[sel[k]].spentBy.Nobody?
    ensures SpentSum(Spend(outputs, sel, trace), other) == SpentSum(outputs, other)
    decreases |outputs|
  {
    if outputs != [] {
      SpendSplits(outputs, sel, trace);
      SpentElsewhere(outputs[..|outputs| - 1], sel, trace, other);
    }
  }

  predicate Unused(outputs: seq<Utxo>, trace: Trace)
  {
    forall n :: 0 <= n < |outputs| ==> outputs[n].spentBy != By(trace)
  }

  /** Spending only looks at the positions it is given below the length of the table. */
  lemma SpendSame(outputs: seq<Utxo>, sel: seq<nat>, more: seq<nat>, trace: Trace)
    requires forall n: nat :: n < |outputs| ==> (n in sel <==> n in more)
    ensures Spend(outputs, sel, trace) == Spend(outputs, more, trace)
  {
  }

  lemma SpentLast(outputs: seq<Utxo>, sel: seq<nat>, trace: Trace)
    requires outputs != [] && outputs[|outputs| - 1].spentBy != By(trace)
    ensures var l := |outputs| - 1;
      SpentSum(Spend(outputs, sel, trace), trace)
        == SpentSum(Spend(outputs[..l], sel, trace), trace) + (if l in sel then outputs[l].amount else 0.0)
  {
    SpendSplits(outputs, sel, trace);
  }

  lemma FreeLast(outputs: seq<Utxo>, asset: nat, sel: seq<nat>)
    requires outputs != [] && |sel| <= |Free(outputs, asset)| && sel == Free(outputs, asset)[..|sel|]
    ensures var l := |outputs| - 1; var f := Free(outputs[..l], asset);
      if |sel| <= |f| then sel == f[..|sel|] && l !in sel else sel == f + [l] && sel[..|sel| - 1] == f == f[..|f|]
  {
  }

  lemma SumLast(outputs: seq<Utxo>, f: seq<nat>, l: nat)
    requires l < |outputs| && forall k :: 0 <= k < |f| ==> f[k] < |outputs|
    ensures Sum(outputs, f + [l]) == Sum(outputs, f) + outputs[l].amount
  {
    assert (f + [l])[..|f|] == f;
  }

  /** One more output, not selected or selected last. */
  lemma SpentSkip(outputs: seq<Utxo>, front: seq<Utxo>, sel: seq<nat>, trace: Trace)
    requires outputs != [] && front == outputs[..|outputs| - 1] && outputs[|front|].spentBy != By(trace)
    requires forall k :: 0 <= k < |sel| ==> sel[k] < |front|
    requires SpentSum(Spend(front, sel, trace), trace) == Sum(front, sel)
    ensures SpentSum(Spend(outputs, sel, trace), trace) == Sum(outputs, sel)
  {
    SpentLast(outputs, sel, trace);
    SumFrame(front, outputs, sel);
  }

  lemma SpentTake(outputs: seq<Utxo>, front: seq<Utxo>, f: seq<nat>, sel: seq<nat>, trace: Trace)
    requires outputs != [] && front == outputs[..|outputs| - 1] && outputs[|front|].spentBy != By(trace)
    requires (forall k :: 0 <= k < |f| ==> f[k] < |front|) && sel == f + [|front|]
    requires SpentSum(Spend(front, f, trace), trace) == Sum(front, f)
    ensures SpentSum(Spend(outputs, sel, trace), trace) == Sum(outputs, sel)
  {
    SpendSame(front, sel, f, trace);
    SpentLast(outputs, sel, trace);
    SumFrame(front, outputs, f);
    SumLast(outputs, f, |front|);
  }

  /** The outputs spent for a fresh trace add up to what was selected. */
  lemma {:induction false} SpentAdds(outputs: seq<Utxo>, asset: nat, sel: seq<nat>, trace: Trace)
    requires |sel| <= |Free(outputs, asset)| && sel == Free(outputs, asset)[..|sel|] && Unused(outputs, trace)
    ensures SpentSum(Spend(outputs, sel, trace), trace) == Sum(outputs, sel)
    decreases |outputs|
  {
    if outputs == [] {
      assert sel == [];
    } else {
      var f := Free(outputs[..|outputs| - 1], asset);
      FreeLast(outputs, asset, sel);
      if |sel| <= |f| {
        SpentAdds(outputs[..|outputs| - 1], asset, sel, trace);
        SpentSkip(outputs, outputs[..|outputs| - 1], sel, trace);
      } else {
        SpentAdds(outputs[..|outputs| - 1], asset, f, trace);
        SpentTake(outputs, outputs[..|outputs| - 1], f, sel, trace);
      }
    }
  }
}
