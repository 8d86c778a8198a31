/** Safety of the assigner and the transfer pipeline over every interleaving of its workers. */
module Pipeline {
  import opened Assigner

  // ---- The invariant ---------------------------------------------------------------------------------

  predicate Unique(transfers: seq<Transfer>)
  {
    forall j, k :: 0 <= j < k < |transfers| ==> transfers[j].trace != transfers[k].trace
  }

  /** The stages a transfer goes through: pending, assigned, handled, passed. Merges skip the first. */
  predicate Staged(t: Transfer)
  {
    && (t.isHandled ==> t.isAssigned) && (t.isPassed ==> t.isHandled)
    && (t.merge <==> t.trace.MergeFor?) && (t.merge ==> t.isAssigned && t.trace.outputs != [])
  }

  /** An assigned transfer has outputs of at least its amount, a merge of exactly its amount, and
      the outputs a merge names are its own; a pending transfer has none. */
  predicate Covered(outputs: seq<Utxo>, t: Transfer)
  {
    && (t.isAssigned ==> SpentSum(outputs, t.trace) >= t.amount)
    && (t.merge ==> SpentSum(outputs, t.trace) == t.amount)
    && (t.merge && t.trace.MergeFor? ==>
          forall k :: 0 <= k < |t.trace.outputs| ==>
            t.trace.outputs[k] < |outputs| && outputs[t.trace.outputs[k]].spentBy == By(t.trace))
    && (!t.isAssigned ==> Unused(outputs, t.trace))
  }

  predicate Owns(t: Transfer, u: Utxo) { u.spentBy == By(t.trace) && t.asset == u.asset && t.isAssigned }

  /** A spent output belongs to an assigned transfer of its asset. */
  predicate Accounted(u: Utxo, transfers: seq<Transfer>)
  {
    u.spentBy.By? ==>
      exists k :: 0 <= k < |transfers| && Owns(transfers[k], u)
  }

  predicate Rivals(t: Transfer, u: Transfer) { !t.merge && !u.merge && t.asset == u.asset }

  /** The transfers of one asset, merges aside, are assigned in the order of their ids. */
  predicate InOrder(transfers: seq<Transfer>)
  {
    forall j, k :: 0 <= j < k < |transfers| && Rivals(transfers[j], transfers[k]) && transfers[k].isAssigned
      ==> transfers[j].isAssigned
  }

  predicate Inv(w: Wallet)
  {
    && Unique(w.transfers) && InOrder(w.transfers)
    && (forall k :: 0 <= k < |w.transfers| ==> Staged(w.transfers[k]) && Covered(w.outputs, w.transfers[k]))
    && (forall n :: 0 <= n < |w.outputs| ==> Accounted(w.outputs[n], w.transfers))
  }

  // ---- One attempt -----------------------------------------------------------------------------------

  /** No transfer of the asset is left behind before i. */
  predicate Foremost(transfers: seq<Transfer>, i: nat)
    requires i < |transfers|
  {
    forall j :: 0 <= j < i && !transfers[j].merge && transfers[j].asset == transfers[i].asset
      ==> transfers[j].isAssigned
  }

  /** The outputs a transfer of another trace owns are not touched. */
  lemma OthersCovered(outputs: seq<Utxo>, sel: seq<nat>, trace: Trace, t: Transfer)
    requires Covered(outputs, t) && t.trace != trace
    requires forall k :: 0 <= k < |sel| ==> sel[k] < |outputs| && outputs[sel[k]].spentBy.Nobody?
    ensures Covered(Spend(outputs, sel, trace), t)
  {
    SpentElsewhere(outputs, sel, trace, t.trace);
  }

  /** A trace no transfer bears is on no output. */
  lemma NewTraceUnused(w: Wallet, trace: Trace)
    requires Inv(w) && !HasTrace(w.transfers, trace)
    ensures Unused(w.outputs, trace)
  {
    forall n | 0 <= n < |w.outputs|
      ensures w.outputs[n].spentBy != By(trace)
    {
      assert Accounted(w.outputs[n], w.transfers);
    }
  }

  lemma AssignKeepsCovered(w: Wallet, i: nat, k: nat)
    requires Inv(w) && i < |w.transfers| && Pending(w.transfers[i]) && Judge(w, i).Assigned? && k < |w.transfers|
    ensures Staged(Tried(w, i).transfers[k]) && Covered(Tried(w, i).outputs, Tried(w, i).transfers[k])
  {
    var t := w.transfers[i];
    var sel := Selected(w.outputs, t);
    assert Covered(w.outputs, t) && Staged(t);
    if k == i {
      SpentAdds(w.outputs, t.asset, sel, t.trace);
    } else {
      assert Covered(w.outputs, w.transfers[k]) && Staged(w.transfers[k]);
      OthersCovered(w.outputs, sel, t.trace, w.transfers[k]);
    }
  }

  lemma SpendAccounted(outputs: seq<Utxo>, sel: seq<nat>, trace: Trace, asset: nat, before: seq<Transfer>,
                       after: seq<Transfer>, n: nat)
    requires n < |outputs| && Accounted(outputs[n], before)
    requires n in sel ==> outputs[n].asset == asset
    requires exists k :: 0 <= k < |after| && after[k].trace == trace && after[k].asset == asset && after[k].isAssigned
    requires |before| <= |after| && forall k :: 0 <= k < |before| ==>
      after[k].trace == before[k].trace && after[k].asset == before[k].asset
        && (before[k].isAssigned ==> after[k].isAssigned)
    ensures Accounted(Spend(outputs, sel, trace)[n], after)
  {
    if n !in sel && outputs[n].spentBy.By? {
      var k :| 0 <= k < |before| && Owns(before[k], outputs[n]);
      assert Owns(after[k], outputs[n]);
    }
  }

  lemma AssignKeepsInv(w: Wallet, i: nat)
    requires Inv(w) && i < |w.transfers| && Pending(w.transfers[i]) && !w.transfers[i].merge && Foremost(w.transfers, i)
    requires Judge(w, i).Assigned?
    ensures Inv(Tried(w, i))
  {
    var e, t := Tried(w, i), w.transfers[i];
    var sel := Selected(w.outputs, t);
    forall k | 0 <= k < |e.transfers|
      ensures Staged(e.transfers[k]) && Covered(e.outputs, e.transfers[k])
    {
      AssignKeepsCovered(w, i, k);
    }
    assert e.transfers[i].trace == t.trace && e.transfers[i].asset == t.asset && e.transfers[i].isAssigned;
    forall n | 0 <= n < |e.outputs|
      ensures Accounted(e.outputs[n], e.transfers)
    {
      SpendAccounted(w.outputs, sel, t.trace, t.asset, w.transfers, e.transfers, n);
    }
  }

  /** A merge never repeats: the outputs it would name are free, those of an existing merge are not. */
  lemma NeverDuplicate(w: Wallet, i: nat)
    requires Inv(w) && i < |w.transfers|
    ensures !Judge(w, i).Duplicate?
  {
    var t := w.transfers[i];
    var sel := Selected(w.outputs, t);
    if |sel| == LIMIT {
      assert IsFree(w.outputs[sel[0]], t.asset);
      forall k | 0 <= k < |w.transfers|
        ensures w.transfers[k].trace != MergeFor(t.trace, sel)
      {
        assert Staged(w.transfers[k]) && Covered(w.outputs, w.transfers[k]);
      }
    }
  }

  lemma MergeKeepsCovered(w: Wallet, i: nat, k: nat)
    requires Inv(w) && i < |w.transfers| && Judge(w, i).Merging? && k <= |w.transfers|
    ensures Staged(Tried(w, i).transfers[k]) && Covered(Tried(w, i).outputs, Tried(w, i).transfers[k])
  {
    var t := w.transfers[i];
    var sel := Selected(w.outputs, t);
    var trace := MergeFor(t.trace, sel);
    if k == |w.transfers| {
      NewTraceUnused(w, trace);
      SpentAdds(w.outputs, t.asset, sel, trace);
    } else {
      assert Covered(w.outputs, w.transfers[k]) && Staged(w.transfers[k]);
      assert w.transfers[k].trace != trace;
      OthersCovered(w.outputs, sel, trace, w.transfers[k]);
    }
  }

  lemma MergeKeepsInv(w: Wallet, i: nat)
    requires Inv(w) && i < |w.transfers| && Judge(w, i).Merging?
    ensures Inv(Tried(w, i))
  {
    var e, t := Tried(w, i), w.transfers[i];
    var sel := Selected(w.outputs, t);
    forall k | 0 <= k < |e.transfers|
      ensures Staged(e.transfers[k]) && Covered(e.outputs, e.transfers[k])
    {
      MergeKeepsCovered(w, i, k);
    }
    var l := |w.transfers|;
    assert e.transfers[l].trace == MergeFor(t.trace, sel) && e.transfers[l].asset == t.asset
      && e.transfers[l].isAssigned;
    forall n | 0 <= n < |e.outputs|
      ensures Accounted(e.outputs[n], e.transfers)
    {
      SpendAccounted(w.outputs, sel, MergeFor(t.trace, sel), t.asset, w.transfers, e.transfers, n);
    }
    forall j, k | 0 <= j < k < |e.transfers|
      ensures e.transfers[j].trace != e.transfers[k].trace
    {
      assert k == l ==> e.transfers[j] == w.transfers[j];
    }
  }

  lemma TryKeepsInv(w: Wallet, i: nat)
    requires Inv(w) && i < |w.transfers| && Pending(w.transfers[i]) && !w.transfers[i].merge && Foremost(w.transfers, i)
    ensures Inv(Tried(w, i))
  {
    match Judge(w, i)
    case Assigned => AssignKeepsInv(w, i);
    case Merging => MergeKeepsInv(w, i);
    case Insufficient =>
    case Duplicate =>
  }

  // ---- All workers together ---------------------------------------------------------------------------

  /** The tables, and the assigner in the middle of a pass: the transfers it has listed and not yet
      tried, and the assets it has given up for this pass. */
  datatype System = System(w: Wallet, list: seq<nat>, aborted: set<nat>)

  /** What can happen next, in any order: the assigner starts a pass (again, if it died) or goes on
      with it, an output arrives, the payee creates a transfer, the cashier has a transfer signed,
      the spent worker sees it go through. */
  datatype Event =
    | Start
    | Next
    | Receive(asset: nat, amount: real)
    | Create(trace: nat, asset: nat, amount: real, version: int)
    | Handle(i: nat)
    | Pass(i: nat)

  function Happened(s: System, e: Event): System
  {
    var w := s.w;
    match e
    case Start => System(w, ListPending(w.transfers), {})
    case Next =>
      if s.list == [] || s.list[0] >= |w.transfers| then s
      else
        var i, asset := s.list[0], w.transfers[s.list[0]].asset;
        if asset in s.aborted then s.(list := s.list[1..])
        else System(Tried(w, i), s.list[1..], if Judge(w, i).Assigned? then s.aborted else s.aborted + {asset})
    case Receive(asset, amount) => s.(w := w.(outputs := w.outputs + [Utxo(asset, amount, Nobody)]))
    case Create(n, asset, amount, version) =>
      if HasTrace(w.transfers, Named(n)) then s
      else
        s.(w := w.(transfers :=
          w.transfers + [Transfer(Named(n), asset, amount, version, false, false, false, false)]))
    case Handle(i) =>
      if i < |w.transfers| && w.transfers[i].isAssigned && !w.transfers[i].isHandled
        && !Unused(w.outputs, w.transfers[i].trace)
      then s.(w := w.(transfers := w.transfers[i := w.transfers[i].(isHandled := true)])) else s
    case Pass(i) =>
      if i < |w.transfers| && w.transfers[i].isHandled && !w.transfers[i].isPassed
        && !Unused(w.outputs, w.transfers[i].trace)
      then s.(w := w.(transfers := w.transfers[i := w.transfers[i].(isPassed := true)])) else s
  }

  /** The rest of the list: pending transfers in id order, and before each one that still counts,
      every rival is assigned or also on the list. */
  predicate Listed(s: System)
  {
    var ts := s.w.transfers;
    && (forall k :: 0 <= k < |s.list| ==> s.list[k] < |ts| && Pending(ts[s.list[k]]) && !ts[s.list[k]].merge)
    && (forall j, k :: 0 <= j < k < |s.list| ==> s.list[j] < s.list[k])
    && (forall k, j ::
          0 <= k < |s.list| && 0 <= j < s.list[k] && Rivals(ts[j], ts[s.list[k]]) && ts[j].asset !in s.aborted
          ==> ts[j].isAssigned || j in s.list[..k])
  }

  /** The list of pending transfers misses none before its end. */
  lemma {:induction false} WaitingComplete(transfers: seq<Transfer>, j: nat)
    requires j < |transfers| && Pending(transfers[j])
    ensures j in Waiting(transfers)
    decreases |transfers|
  {
    if j < |transfers| - 1 { WaitingComplete(transfers[..|transfers| - 1], j); }
  }

  lemma EarlierInPrefix(f: seq<nat>, k: nat, j: nat)
    requires (forall a, b :: 0 <= a < b < |f| ==> f[a] < f[b]) && k < |f| && j in f && j < f[k]
    ensures j in f[..k]
  {
    var a :| 0 <= a < |f| && f[a] == j;
    assert f[..k][a] == j;
  }

  lemma StartListed(s: System)
    requires Inv(s.w)
    ensures Listed(Happened(s, Start))
  {
    var ts, e := s.w.transfers, Happened(s, Start);
    var f := Waiting(ts);
    forall k | 0 <= k < |e.list|
      ensures !ts[e.list[k]].merge
    {
      assert Staged(ts[e.list[k]]);
    }
    forall k, j | 0 <= k < |e.list| && 0 <= j < e.list[k] && Rivals(ts[j], ts[e.list[k]]) && !ts[j].isAssigned
      ensures j in e.list[..k]
    {
      assert Staged(ts[j]);
      WaitingComplete(ts, j);
      EarlierInPrefix(f, k, j);
      assert e.list[..k] == f[..k];
    }
  }

  /** What never changes: an output, once spent, keeps its transfer; a transfer keeps its terms and
      moves forward only. */
  predicate OutputKept(u: Utxo, v: Utxo) { v.asset == u.asset && v.amount == u.amount && (u.spentBy.By? ==> v == u) }

  predicate TransferKept(t: Transfer, u: Transfer)
  {
    && u.trace == t.trace && u.asset == t.asset && u.amount == t.amount && u.version == t.version && u.merge == t.merge
    && (t.isAssigned ==> u.isAssigned) && (t.isHandled ==> u.isHandled) && (t.isPassed ==> u.isPassed)
  }

  predicate Kept(w: Wallet, e: Wallet)
  {
    && |w.outputs| <= |e.outputs| && |w.transfers| <= |e.transfers|
    && (forall n :: 0 <= n < |w.outputs| ==> OutputKept(w.outputs[n], e.outputs[n]))
    && (forall k :: 0 <= k < |w.transfers| ==> TransferKept(w.transfers[k], e.transfers[k]))
  }

  lemma SpendKeeps(outputs: seq<Utxo>, sel: seq<nat>, trace: Trace)
    requires forall k :: 0 <= k < |sel| ==> sel[k] < |outputs| && outputs[sel[k]].spentBy.Nobody?
    ensures forall n :: 0 <= n < |outputs| ==> OutputKept(outputs[n], Spend(outputs, sel, trace)[n])
  {
  }

  lemma TryKeeps(w: Wallet, i: nat)
    requires i < |w.transfers|
    ensures Kept(w, Tried(w, i))
  {
    var t := w.transfers[i];
    var sel := Selected(w.outputs, t);
    SpendKeeps(w.outputs, sel, t.trace);
    SpendKeeps(w.outputs, sel, MergeFor(t.trace, sel));
    TriedTransfers(w, i);
  }

  lemma NextKeeps(s: System)
    ensures Kept(s.w, Happened(s, Next).w)
  {
    if s.list != [] && s.list[0] < |s.w.transfers| { TryKeeps(s.w, s.list[0]); }
  }

  lemma EventKeeps(s: System, e: Event)
    ensures Kept(s.w, Happened(s, e).w)
  {
    if e.Next? { NextKeeps(s); } else { OtherKeeps(s, e); }
  }

  lemma OtherKeeps(s: System, e: Event)
    requires !e.Next?
    ensures Kept(s.w, Happened(s, e).w)
  {
  }

  lemma KeptChain(a: Wallet, b: Wallet, c: Wallet)
    requires Kept(a, b) && Kept(b, c)
    ensures Kept(a, c)
  {
    forall n | 0 <= n < |a.outputs|
      ensures OutputKept(a.outputs[n], c.outputs[n])
    {
      assert OutputKept(a.outputs[n], b.outputs[n]) && OutputKept(b.outputs[n], c.outputs[n]);
    }
    forall k | 0 <= k < |a.transfers|
      ensures TransferKept(a.transfers[k], c.transfers[k])
    {
      assert TransferKept(a.transfers[k], b.transfers[k]) && TransferKept(b.transfers[k], c.transfers[k]);
    }
  }

  lemma NextForemost(s: System)
    requires Listed(s) && s.list != [] && s.w.transfers[s.list[0]].asset !in s.aborted
    ensures Foremost(s.w.transfers, s.list[0])
  {
    assert s.list[..0] == [];
  }

  /** What one attempt does to the transfers already in the table. */
  lemma TriedTransfers(w: Wallet, i: nat)
    requires i < |w.transfers|
    ensures |Tried(w, i).transfers| >= |w.transfers|
    ensures forall k :: 0 <= k < |w.transfers| ==>
      Tried(w, i).transfers[k] == if k == i && Judge(w, i).Assigned? then w.transfers[i].(isAssigned := true)
        else w.transfers[k]
  {
  }

  lemma TailPrefix(list: seq<nat>, k: nat, j: nat)
    requires 0 < k < |list| && j in list[..k] && j != list[0]
    ensures j in list[1..][..k - 1]
  {
    var a :| 0 <= a < k && list[a] == j;
    assert list[1..][..k - 1][a - 1] == j;
  }

  lemma NextListed(s: System)
    requires Listed(s) && s.list != []
    ensures Listed(Happened(s, Next))
  {
    var e, i := Happened(s, Next), s.list[0];
    var ts, us := s.w.transfers, e.w.transfers;
    if ts[i].asset !in s.aborted { TriedTransfers(s.w, i); }
    forall k, j | 0 <= k < |e.list| && 0 <= j < e.list[k] && Rivals(us[j], us[e.list[k]]) && us[j].asset !in e.aborted
      ensures us[j].isAssigned || j in e.list[..k]
    {
      assert e.list[k] == s.list[k + 1];
      assert ts[j].isAssigned || j in s.list[..k + 1];
      if j != i && !us[j].isAssigned { TailPrefix(s.list, k + 1, j); }
    }
  }

  /** Later rows do not disturb the list. */
  lemma StillListed(s: System, e: System)
    requires Listed(s) && e.list == s.list && e.aborted == s.aborted && |s.w.transfers| <= |e.w.transfers|
    requires forall k :: 0 <= k < |s.w.transfers| ==>
      TransferKept(s.w.transfers[k], e.w.transfers[k])
        && (Pending(s.w.transfers[k]) ==> e.w.transfers[k] == s.w.transfers[k])
    ensures Listed(e)
  {
  }

  lemma EventKeepsListed(s: System, e: Event)
    requires Inv(s.w) && Listed(s)
    ensures Listed(Happened(s, e))
  {
    match e
    case Start => StartListed(s);
    case Next => if s.list != [] { NextListed(s); }
    case _ => StillListed(s, Happened(s, e));
  }

  // ---- The other workers ---------------------------------------------------------------------------------

  lemma {:induction false} OneMoreOutput(outputs: seq<Utxo>, u: Utxo, trace: Trace)
    requires u.spentBy.Nobody?
    ensures SpentSum(outputs + [u], trace) == SpentSum(outputs, trace)
  {
    assert (outputs + [u])[..|outputs|] == outputs;
  }

  lemma ReceiveKeepsInv(w: Wallet, asset: nat, amount: real)
    requires Inv(w)
    ensures Inv(w.(outputs := w.outputs + [Utxo(asset, amount, Nobody)]))
  {
    var u := Utxo(asset, amount, Nobody);
    forall k | 0 <= k < |w.transfers|
      ensures Covered(w.outputs + [u], w.transfers[k])
    {
      assert Covered(w.outputs, w.transfers[k]);
      OneMoreOutput(w.outputs, u, w.transfers[k].trace);
    }
  }

  lemma CreateKeepsInv(w: Wallet, t: Transfer)
    requires Inv(w) && !HasTrace(w.transfers, t.trace) && t.trace.Named? && !t.merge && !t.isAssigned && !t.isHandled
    requires !t.isPassed
    ensures Inv(w.(transfers := w.transfers + [t]))
  {
    NewTraceUnused(w, t.trace);
    var us := w.transfers + [t];
    forall n | 0 <= n < |w.outputs|
      ensures Accounted(w.outputs[n], us)
    {
      assert Accounted(w.outputs[n], w.transfers);
      if w.outputs[n].spentBy.By? {
        var k :| 0 <= k < |w.transfers| && Owns(w.transfers[k], w.outputs[n]);
        assert Owns(us[k], w.outputs[n]);
      }
    }
  }

  /** Moving a transfer that is assigned to a later stage. */
  lemma AdvanceKeepsInv(w: Wallet, i: nat, t: Transfer)
    requires Inv(w) && i < |w.transfers| && w.transfers[i].isAssigned && Staged(t)
    requires t == w.transfers[i].(isHandled := t.isHandled, isPassed := t.isPassed)
    ensures Inv(w.(transfers := w.transfers[i := t]))
  {
    var us := w.transfers[i := t];
    forall n | 0 <= n < |w.outputs|
      ensures Accounted(w.outputs[n], us)
    {
      assert Accounted(w.outputs[n], w.transfers);
      if w.outputs[n].spentBy.By? {
        var k :| 0 <= k < |w.transfers| && Owns(w.transfers[k], w.outputs[n]);
        assert Owns(us[k], w.outputs[n]);
      }
    }
  }

  lemma EventKeepsInv(s: System, e: Event)
    requires Inv(s.w) && Listed(s)
    ensures Inv(Happened(s, e).w)
  {
    var w := s.w;
    match e
    case Start =>
    case Next =>
      if s.list != [] && w.transfers[s.list[0]].asset !in s.aborted {
        NextForemost(s);
        TryKeepsInv(w, s.list[0]);
      }
    case Receive(asset, amount) => ReceiveKeepsInv(w, asset, amount);
    case Create(n, asset, amount, version) =>
      if !HasTrace(w.transfers, Named(n)) {
        CreateKeepsInv(w, Transfer(Named(n), asset, amount, version, false, false, false, false));
      }
    case Handle(i) =>
      if i < |w.transfers| && w.transfers[i].isAssigned {
        assert Staged(w.transfers[i]);
        AdvanceKeepsInv(w, i, w.transfers[i].(isHandled := true));
      }
    case Pass(i) =>
      if i < |w.transfers| && w.transfers[i].isHandled {
        assert Staged(w.transfers[i]);
        AdvanceKeepsInv(w, i, w.transfers[i].(isPassed := true));
      }
  }

  // ---- Every run -------------------------------------------------------------------------------------------

  function Run(s: System, events: seq<Event>): System
  {
    if events == [] then s else Happened(Run(s, events[..|events| - 1]), events[|events| - 1])
  }

  const EMPTY := System(Wallet([], []), [], {})

  /** Assigner safety: however the workers interleave and die, every assigned transfer has outputs
      of at least its amount and every merge of exactly its amount, each spent output belongs to one
      assigned transfer of its asset, and transfers of an asset are assigned as a prefix in id order. */
  lemma {:induction false} AssignerIsSafe(events: seq<Event>)
    ensures var s := Run(EMPTY, events); Inv(s.w) && Listed(s)
    decreases |events|
  {
    if events != [] {
      var front := events[..|events| - 1];
      AssignerIsSafe(front);
      EventKeepsInv(Run(EMPTY, front), events[|events| - 1]);
      EventKeepsListed(Run(EMPTY, front), events[|events| - 1]);
    }
  }

  /** No output is ever assigned to two transfers: nothing that happens later changes the transfer
      of a spent output, or takes a transfer back a stage. */
  lemma {:induction false} AssignmentsAreFinal(s: System, events: seq<Event>)
    ensures Kept(s.w, Run(s, events).w)
    decreases |events|
  {
    if events != [] {
      var front := events[..|events| - 1];
      AssignmentsAreFinal(s, front);
      EventKeeps(Run(s, front), events[|events| - 1]);
      KeptChain(s.w, Run(s, front).w, Run(s, events).w);
    }
  }

  // ---- Progress ----------------------------------------------------------------------------------------------

  lemma {:induction false} SumSplit(outputs: seq<Utxo>, f: seq<nat>, k: nat)
    requires k <= |f| && forall j :: 0 <= j < |f| ==> f[j] < |outputs|
    ensures Sum(outputs, f) == Sum(outputs, f[..k]) + Sum(outputs, f[k..])
    decreases |f|
  {
    if k == |f| {
      assert f[..k] == f && f[k..] == [];
    } else {
      var front := f[..|f| - 1];
      SumSplit(outputs, front, k);
      assert front[..k] == f[..k];
      assert f[k..] == front[k..] + [f[|f| - 1]];
      SumLast(outputs, front[k..], f[|f| - 1]);
    }
  }

  lemma FreeStep(outputs: seq<Utxo>, asset: nat)
    requires outputs != []
    ensures var l := |outputs| - 1;
      Free(outputs, asset) == Free(outputs[..l], asset) + (if IsFree(outputs[l], asset) then [l] else [])
  {
  }

  /** Spending the first free outputs leaves the others free. */
  lemma {:induction false} FreeAfterSpend(outputs: seq<Utxo>, asset: nat, sel: seq<nat>, trace: Trace)
    requires |sel| <= |Free(outputs, asset)| && sel == Free(outputs, asset)[..|sel|]
    ensures Free(Spend(outputs, sel, trace), asset) == Free(outputs, asset)[|sel|..]
    decreases |outputs|
  {
    if outputs == [] {
      assert sel == [];
    } else {
      var l := |outputs| - 1;
      var front, f := outputs[..l], Free(outputs[..l], asset);
      SpendSplits(outputs, sel, trace);
      FreeLast(outputs, asset, sel);
      FreeStep(outputs, asset);
      FreeStep(Spend(outputs, sel, trace), asset);
      if |sel| <= |f| {
        FreeAfterSpend(front, asset, sel, trace);
        PrefixDropped(f, if IsFree(outputs[l], asset) then [l] else [], |sel|);
      } else {
        SpendSame(front, sel, f, trace);
        FreeAfterSpend(front, asset, f, trace);
        assert f[|f|..] == [] && (f + [l])[|sel|..] == [];
      }
    }
  }

  lemma PrefixDropped(f: seq<nat>, more: seq<nat>, k: nat)
    requires k <= |f|
    ensures (f + more)[k..] == f[k..] + more
  {
  }

  /** The tables once the output of a merge has come back. */
  function Returned(w: Wallet, i: nat): Wallet
    requires i < |w.transfers|
  {
    var t := w.transfers[i];
    var e := Tried(w, i);
    e.(outputs := e.outputs + [Utxo(t.asset, Sum(w.outputs, Selected(w.outputs, t)), Nobody)])
  }

  lemma FreeAppend(outputs: seq<Utxo>, u: Utxo, asset: nat)
    requires IsFree(u, asset)
    ensures Free(outputs + [u], asset) == Free(outputs, asset) + [|outputs|]
  {
    assert (outputs + [u])[..|outputs|] == outputs;
  }

  /** A merge keeps the balance and leaves 31 outputs fewer. */
  lemma MergeShrinks(w: Wallet, i: nat)
    requires i < |w.transfers| && Judge(w, i).Merging?
    ensures var asset, e := w.transfers[i].asset, Returned(w, i);
      |Free(e.outputs, asset)| == |Free(w.outputs, asset)| - 31
        && Balance(e.outputs, asset) == Balance(w.outputs, asset)
  {
    var t := w.transfers[i];
    var sel, f := Selected(w.outputs, t), Free(w.outputs, t.asset);
    var spent := Spend(w.outputs, sel, MergeFor(t.trace, sel));
    var u := Utxo(t.asset, Sum(w.outputs, sel), Nobody);
    FreeAfterSpend(w.outputs, t.asset, sel, MergeFor(t.trace, sel));
    FreeAppend(spent, u, t.asset);
    MergedBalance(w.outputs, spent, u, f, |sel|);
  }

  /** The merged output stands for the outputs it was made from. */
  lemma MergedBalance(outputs: seq<Utxo>, spent: seq<Utxo>, u: Utxo, f: seq<nat>, k: nat)
    requires |spent| == |outputs| && (forall n :: 0 <= n < |outputs| ==> spent[n].amount == outputs[n].amount)
    requires k <= |f| && (forall j :: 0 <= j < |f| ==> f[j] < |outputs|) && u.amount == Sum(outputs, f[..k])
    ensures Sum(spent + [u], f[k..] + [|spent|]) == Sum(outputs, f)
  {
    SumSplit(outputs, f, k);
    SumFrame(outputs, spent + [u], f[k..]);
    SumLast(spent + [u], f[k..], |spent|);
  }

  /** The selection: the shortest prefix of the page that covers the amount, or all of it if there is
      none or the whole page is older than the transfer. */
  lemma {:induction false} EnoughOrAll(outputs: seq<Utxo>, page: seq<nat>, t: Transfer, n: nat)
    requires n <= |page| && forall k :: 0 <= k < |page| ==> page[k] < |outputs|
    ensures var k := Enough(outputs, page, t, n);
      && (k == |page| || Sum(outputs, page[..k]) >= t.amount) && (Wipes(page, t) ==> k == |page|)
      && (!Wipes(page, t) ==> forall j :: n < j < k ==> Sum(outputs, page[..j]) < t.amount)
    decreases |page| - n
  {
    if n < |page| && (Wipes(page, t) || Sum(outputs, page[..n + 1]) < t.amount) {
      EnoughOrAll(outputs, page, t, n + 1);
    }
  }

  /** The asset has a full page of unspent outputs, none of them newer than the transfer: the id of an
      output is its position plus one. */
  predicate OldFullPage(f: seq<nat>, version: int)
  {
    |f| >= 32 && forall k :: 0 <= k < 32 ==> f[k] + 1 <= version
  }

  lemma WipesOldPages(outputs: seq<Utxo>, t: Transfer)
    ensures Wipes(Page(outputs, t.asset), t) <==> OldFullPage(Free(outputs, t.asset), t.version)
  {
    var f := Free(outputs, t.asset);
    if |f| >= 32 { assert Page(outputs, t.asset)[31] == f[31]; }
  }

  /** An old full page is spent whole, even if fewer outputs would do. */
  lemma SpendsOldPagesWhole(outputs: seq<Utxo>, t: Transfer)
    requires OldFullPage(Free(outputs, t.asset), t.version)
    ensures Selected(outputs, t) == Free(outputs, t.asset)[..32]
  {
    var page := Page(outputs, t.asset);
    WipesOldPages(outputs, t);
    EnoughOrAll(outputs, page, t, 0);
    assert page[..|page|] == page;
  }

  /** Any other selection is the shortest prefix of the first 32 unspent outputs that covers the transfer,
      or all of them if none does. */
  lemma SpendsShortestCover(outputs: seq<Utxo>, t: Transfer, page: seq<nat>)
    requires !OldFullPage(Free(outputs, t.asset), t.version)
    requires var f := Free(outputs, t.asset); page == if |f| <= 32 then f else f[..32]
    ensures var sel := Selected(outputs, t);
      && |sel| <= |page| && sel == page[..|sel|] && (sel == page || Sum(outputs, sel) >= t.amount)
      && (forall k :: 0 < k < |sel| ==> Sum(outputs, page[..k]) < t.amount)
  {
    WipesOldPages(outputs, t);
    EnoughOrAll(outputs, page, t, 0);
    assert page[..|page|] == page;
  }

  /** With the balance there, an attempt assigns the transfer or merges. */
  lemma NeverInsufficient(w: Wallet, i: nat)
    requires Inv(w) && i < |w.transfers| && Balance(w.outputs, w.transfers[i].asset) >= w.transfers[i].amount
    ensures Judge(w, i).Assigned? || Judge(w, i).Merging?
  {
    var t := w.transfers[i];
    var page := Page(w.outputs, t.asset);
    NeverDuplicate(w, i);
    EnoughOrAll(w.outputs, page, t, 0);
    assert page[..|page|] == page;
  }

  /** Trying a transfer again and again, each merge coming back as an output before the next try:
      the tables in the end and the number of merges. */
  ghost function Retried(w: Wallet, i: nat): (Wallet, nat)
    requires i < |w.transfers|
    decreases |Free(w.outputs, w.transfers[i].asset)|
  {
    if Judge(w, i).Merging? then
      MergeShrinks(w, i);
      assert Returned(w, i).transfers[i] == w.transfers[i];
      var (e, merges) := Retried(Returned(w, i), i);
      (e, merges + 1)
    else (Tried(w, i), 0)
  }

  lemma ReturnKeepsInv(w: Wallet, i: nat)
    requires Inv(w) && i < |w.transfers| && Judge(w, i).Merging?
    ensures Inv(Returned(w, i)) && Returned(w, i).transfers[i] == w.transfers[i] && i < |Returned(w, i).transfers|
  {
    var t := w.transfers[i];
    MergeKeepsInv(w, i);
    ReceiveKeepsInv(Tried(w, i), t.asset, Sum(w.outputs, Selected(w.outputs, t)));
  }

  /** Tried alone, a transfer that the unspent balance covers is assigned after finitely many merges,
      each costing 31 outputs. */
  lemma {:induction false} AloneGetsAssigned(w: Wallet, i: nat)
    requires Inv(w) && i < |w.transfers| && Balance(w.outputs, w.transfers[i].asset) >= w.transfers[i].amount
    ensures var (e, merges) := Retried(w, i);
      && i < |e.transfers| && e.transfers[i] == w.transfers[i].(isAssigned := true)
      && merges * 31 <= |Free(w.outputs, w.transfers[i].asset)|
    decreases |Free(w.outputs, w.transfers[i].asset)|
  {
    NeverInsufficient(w, i);
    if Judge(w, i).Merging? {
      MergeShrinks(w, i);
      ReturnKeepsInv(w, i);
      AloneGetsAssigned(Returned(w, i), i);
    }
  }
}
