/** The batched drain of raw outputs (store/wallet/recovery.go) and the order it must produce
    (internal/mixinet/utxo.go). */
module Drain {

  /** A raw output row with the UTXO it carries. */
  datatype Raw = Raw(id: int, trace: nat, createdAt: int, hash: seq<nat>, index: nat)

  // ---- The order of UTXOs ------------------------------------------------------------------------

  /** bytes.Compare. */
  function CompareBytes(a: seq<nat>, b: seq<nat>): int
  {
    if a == [] then (if b == [] then 0 else -1)
    else if b == [] then 1
    else if a[0] < b[0] then -1
    else if a[0] > b[0] then 1
    else CompareBytes(a[1..], b[1..])
  }

  function CmpUtxo(a: Raw, b: Raw): int
  {
    if a.createdAt > b.createdAt then 1
    else if a.createdAt < b.createdAt then -1
    else if CompareBytes(a.hash, b.hash) != 0 then CompareBytes(a.hash, b.hash)
    else if a.index == b.index then 0
    else if a.index > b.index then 1
    else -1
  }

  predicate AtMost(a: Raw, b: Raw) { CmpUtxo(a, b) <= 0 }

  lemma {:induction false} BytesSwap(a: seq<nat>, b: seq<nat>)
    ensures CompareBytes(a, b) == -CompareBytes(b, a)
    ensures CompareBytes(a, b) == 0 <==> a == b
  {
    if a != [] && b != [] && a[0] == b[0] {
      BytesSwap(a[1..], b[1..]);
      assert a == [a[0]] + a[1..] && b == [b[0]] + b[1..];
    }
  }

  lemma {:induction false} BytesChain(a: seq<nat>, b: seq<nat>, c: seq<nat>)
    requires CompareBytes(a, b) <= 0 && CompareBytes(b, c) <= 0
    ensures CompareBytes(a, c) <= 0
    ensures CompareBytes(a, b) < 0 || CompareBytes(b, c) < 0 ==> CompareBytes(a, c) < 0
  {
    if a != [] && b != [] && c != [] && a[0] == b[0] == c[0] { BytesChain(a[1..], b[1..], c[1..]); }
  }

  /** cmpUTXO is a total order on creation time, transaction hash and output index. */
  lemma CmpIsTotal(a: Raw, b: Raw)
    ensures CmpUtxo(a, b) == -CmpUtxo(b, a)
    ensures CmpUtxo(a, b) == 0 <==> a.createdAt == b.createdAt && a.hash == b.hash && a.index == b.index
  {
    BytesSwap(a.hash, b.hash);
  }

  lemma CmpIsTransitive(a: Raw, b: Raw, c: Raw)
    requires AtMost(a, b) && AtMost(b, c)
    ensures AtMost(a, c)
  {
    BytesSwap(a.hash, b.hash);
    BytesSwap(b.hash, c.hash);
    BytesSwap(a.hash, c.hash);
    if CompareBytes(a.hash, b.hash) <= 0 && CompareBytes(b.hash, c.hash) <= 0 { BytesChain(a.hash, b.hash, c.hash); }
  }

  /** The lexicographic order: the first difference decides, and a prefix comes first. */
  predicate BytesBefore(a: seq<nat>, b: seq<nat>)
  {
    exists k :: 0 <= k <= |a| && k < |b| && a[..k] == b[..k] && (k == |a| || a[k] < b[k])
  }

  lemma {:induction false} BytesOrder(a: seq<nat>, b: seq<nat>)
    ensures CompareBytes(a, b) < 0 <==> BytesBefore(a, b)
  {
    if a != [] && b != [] && a[0] == b[0] {
      BytesOrder(a[1..], b[1..]);
      var s, t := a[1..], b[1..];
      if k :| 0 <= k <= |s| && k < |t| && s[..k] == t[..k] && (k == |s| || s[k] < t[k]) {
        assert a[..k + 1] == [a[0]] + a[1..][..k] && b[..k + 1] == [b[0]] + b[1..][..k];
      }
      if k :| 0 <= k <= |a| && k < |b| && a[..k] == b[..k] && (k == |a| || a[k] < b[k]) {
        assert k > 0 && a[1..][..k - 1] == a[..k][1..] && b[1..][..k - 1] == b[..k][1..];
      }
    } else if a == [] && b != [] {
      assert a[..0] == b[..0];
    } else if a != [] && b != [] {
      assert a[..0] == b[..0];
      if k :| 0 <= k <= |a| && k < |b| && a[..k] == b[..k] && (k == |a| || a[k] < b[k]) {
        if k > 0 { assert a[..k][0] == b[..k][0]; }
      }
    }
  }

  /** The order is by time, then by hash, then by index. */
  lemma CmpIsByTimeHashIndex(a: Raw, b: Raw)
    ensures CmpUtxo(a, b) < 0 <==>
      || a.createdAt < b.createdAt
      || (a.createdAt == b.createdAt && BytesBefore(a.hash, b.hash))
      || (a.createdAt == b.createdAt && a.hash == b.hash && a.index < b.index)
  {
    BytesOrder(a.hash, b.hash);
    BytesSwap(a.hash, b.hash);
  }

  predicate InOrder(s: seq<Raw>) { forall i, j :: 0 <= i < j < |s| ==> AtMost(s[i], s[j]) }

  // ---- Sorting ---------------------------------------------------------------------------------------

  function Insert(x: Raw, s: seq<Raw>): seq<Raw>
  {
    if s == [] || AtMost(x, s[0]) then [x] + s else [s[0]] + Insert(x, s[1..])
  }

  /** SortOutputs. */
  function SortOutputs(s: seq<Raw>): seq<Raw>
  {
    if s == [] then [] else Insert(s[0], SortOutputs(s[1..]))
  }

  lemma Prepended(x: Raw, s: seq<Raw>)
    requires InOrder(s) && forall y :: y in s ==> AtMost(x, y)
    ensures InOrder([x] + s)
  {
  }

  lemma InsertFirst(x: Raw, s: seq<Raw>)
    requires InOrder(s) && s != [] && AtMost(x, s[0])
    ensures InOrder([x] + s)
  {
    forall y | y in s
      ensures AtMost(x, y)
    {
      HeadIsLeast(s, y);
      CmpIsTransitive(x, s[0], y);
    }
    Prepended(x, s);
  }

  lemma InsertLater(x: Raw, s: seq<Raw>, r: seq<Raw>)
    requires InOrder(s) && s != [] && AtMost(s[0], x) && InOrder(r) && multiset(r) == multiset{x} + multiset(s[1..])
    ensures InOrder([s[0]] + r)
  {
    HeadAndTail(s);
    forall y | y in r
      ensures AtMost(s[0], y)
    {
      assert y in multiset(r);
      if y != x { HeadIsLeast(s, y); }
    }
    Prepended(s[0], r);
  }

  lemma {:induction false} InsertKeepsOrder(x: Raw, s: seq<Raw>)
    requires InOrder(s)
    ensures InOrder(Insert(x, s)) && multiset(Insert(x, s)) == multiset{x} + multiset(s)
  {
    if s != [] {
      if AtMost(x, s[0]) {
        InsertFirst(x, s);
      } else {
        CmpIsTotal(x, s[0]);
        HeadAndTail(s);
        InsertKeepsOrder(x, s[1..]);
        InsertLater(x, s, Insert(x, s[1..]));
      }
    }
  }

  lemma {:induction false} SortSorts(s: seq<Raw>)
    ensures InOrder(SortOutputs(s)) && multiset(SortOutputs(s)) == multiset(s)
  {
    if s != [] {
      SortSorts(s[1..]);
      InsertKeepsOrder(s[0], SortOutputs(s[1..]));
      assert s == [s[0]] + s[1..];
    }
  }

  /** Rows that the order tells apart. */
  predicate Apart(m: multiset<Raw>) { forall x, y :: x in m && y in m && CmpUtxo(x, y) == 0 ==> x == y }

  lemma HeadAndTail(s: seq<Raw>)
    requires s != []
    ensures multiset(s[1..]) == multiset(s) - multiset{s[0]} && s[0] in multiset(s) && s == [s[0]] + s[1..]
  {
    assert s == [s[0]] + s[1..];
  }

  lemma HeadIsLeast(s: seq<Raw>, x: Raw)
    requires InOrder(s) && x in multiset(s)
    ensures s != [] && AtMost(s[0], x)
  {
    var i :| 0 <= i < |s| && s[i] == x;
    CmpIsTotal(x, x);
  }

  /** Whichever way it is sorted, a set of distinct UTXOs has one order. */
  lemma {:induction false} OneOrder(s: seq<Raw>, t: seq<Raw>)
    requires InOrder(s) && InOrder(t) && multiset(s) == multiset(t) && Apart(multiset(s))
    ensures s == t
    decreases |s|
  {
    assert |s| == |multiset(s)| == |multiset(t)| == |t|;
    if s != [] {
      HeadAndTail(s);
      HeadAndTail(t);
      HeadIsLeast(s, t[0]);
      HeadIsLeast(t, s[0]);
      CmpIsTotal(s[0], t[0]);
      OneOrder(s[1..], t[1..]);
    }
  }

  // ---- One page -----------------------------------------------------------------------------------------

  /** The index of the last row that does not share the given timestamp, from l down. */
  function Boundary(page: seq<Raw>, last: int, l: int): (b: int)
    requires l < |page|
    ensures b <= l
    decreases l + 1
  {
    if l < 0 || page[l].createdAt != last then l else Boundary(page, last, l - 1)
  }

  /** A page without its last timestamp group, unless that is all of it. */
  function Trimmed(page: seq<Raw>): seq<Raw>
    requires page != []
  {
    var l := Boundary(page, page[|page| - 1].createdAt, |page| - 2);
    if l >= 0 then page[..l + 1] else page
  }

  method TrimSuffix(page: seq<Raw>) returns (kept: seq<Raw>)
    requires page != []
    ensures kept == Trimmed(page)
  {
    var r := |page| - 1;
    var l := r - 1;
    while l >= 0
      invariant -1 <= l < |page|
      invariant Boundary(page, page[r].createdAt, r - 1) == Boundary(page, page[r].createdAt, l)
    {
      if page[l].createdAt != page[r].createdAt { break; }
      l := l - 1;
    }
    kept := page;
    if l >= 0 { kept := page[..l + 1]; }
  }

  predicate ByTime(page: seq<Raw>) { forall i, j :: 0 <= i < j < |page| ==> page[i].createdAt <= page[j].createdAt }

  lemma {:induction false} BoundaryFound(page: seq<Raw>, last: int, l: int)
    requires -1 <= l < |page|
    ensures -1 <= Boundary(page, last, l) <= l
    ensures Boundary(page, last, l) >= 0 ==> page[Boundary(page, last, l)].createdAt != last
    ensures forall i :: Boundary(page, last, l) < i <= l ==> page[i].createdAt == last
    decreases l + 1
  {
    if l >= 0 && page[l].createdAt == last { BoundaryFound(page, last, l - 1); }
  }

  /** What trimming leaves: a non-empty prefix, and either everything, all of one timestamp, or
      only rows older than every row it cut off. */
  lemma TrimmedIsClean(page: seq<Raw>)
    requires page != [] && ByTime(page)
    ensures var kept := Trimmed(page); var last := page[|page| - 1].createdAt;
      && 0 < |kept| <= |page| && kept == page[..|kept|]
      && (if |kept| == |page| then forall r :: r in page ==> r.createdAt == last
          else && (forall r :: r in kept ==> r.createdAt < last)
               && (forall i :: |kept| <= i < |page| ==> page[i].createdAt == last))
  {
    var last := page[|page| - 1].createdAt;
    BoundaryFound(page, last, |page| - 2);
  }

  /** The rows one sync takes from the page it read. */
  function Taken(page: seq<Raw>, limit: nat): seq<Raw> { if page != [] && |page| == limit then Trimmed(page) else page }

  // ---- The store -------------------------------------------------------------------------------------------

  /** The raw rows waiting, and the outputs in the order of their ids. */
  datatype Tables = Tables(raws: set<Raw>, outputs: seq<Raw>)

  predicate Known(outputs: seq<Raw>, trace: nat) { exists o :: o in outputs && o.trace == trace }

  /** Row ids and traces are unique, and a raw output is not an output yet. */
  predicate Valid(t: Tables)
  {
    && (forall x, y :: x in t.raws && y in t.raws && (x.id == y.id || x.trace == y.trace) ==> x == y)
    && (forall x :: x in t.raws ==> !Known(t.outputs, x.trace))
  }

  function Eligible(t: Tables, bound: int): set<Raw> { set r | r in t.raws && r.id <= bound }

  predicate Distinct(s: seq<Raw>) { forall i, j :: 0 <= i < j < |s| ==> s[i] != s[j] }

  /** An answer to the page query: up to limit eligible rows by creation time. Which rows of one
      timestamp come first, and which are cut off, is the database's choice. */
  predicate IsPage(t: Tables, bound: int, limit: nat, page: seq<Raw>)
  {
    && Distinct(page) && ByTime(page) && |page| <= limit
    && (forall r :: r in page ==> r in Eligible(t, bound))
    && (|page| < limit ==> forall r :: r in Eligible(t, bound) ==> r in page)
    && (forall r, p :: r in Eligible(t, bound) && p in page && r !in page ==> p.createdAt <= r.createdAt)
  }

  /** Save with ack: an output that is known is updated in place, a new one gets the next id. */
  function Saved(outputs: seq<Raw>, x: Raw): seq<Raw> { if Known(outputs, x.trace) then outputs else outputs + [x] }

  function SavedAll(outputs: seq<Raw>, batch: seq<Raw>): seq<Raw>
  {
    if batch == [] then outputs else Saved(SavedAll(outputs, batch[..|batch| - 1]), batch[|batch| - 1])
  }

  function Ids(rows: seq<Raw>): set<int> { set x | x in rows :: x.id }

  /** The rows left when the taken ids are deleted. */
  function Without(raws: set<Raw>, taken: seq<Raw>): set<Raw>
  {
    set r | r in raws && r.id !in Ids(taken)
  }

  lemma NothingTaken(t: Tables, limit: nat)
    ensures Synced(t, limit, []) == t
  {
    assert Ids([]) == {};
  }

  /** The tables after one sync. */
  function Synced(t: Tables, limit: nat, page: seq<Raw>): Tables
  {
    var taken := Taken(page, limit);
    Tables(Without(t.raws, taken), SavedAll(t.outputs, SortOutputs(taken)))
  }

  class WalletStore {
    var raws: set<Raw>
    var outputs: seq<Raw>

    function Stored(): Tables
      reads this
    {
      Tables(raws, outputs)
    }

    method SaveOutputs(batch: seq<Raw>)
      modifies this`outputs
      ensures outputs == SavedAll(old(outputs), batch)
    {
      var i := 0;
      while i < |batch|
        invariant 0 <= i <= |batch|
        invariant outputs == SavedAll(old(outputs), batch[..i])
      {
        assert batch[..i + 1][..i] == batch[..i];
        outputs := Saved(outputs, batch[i]);
        i := i + 1;
      }
      assert batch[..i] == batch;
    }

    /** Moves one page of raw outputs to the outputs, in one transaction. */
    method SyncRawOutputs(limit: nat, page: seq<Raw>) returns (n: nat)
      modifies this
      ensures Stored() == Synced(old(Stored()), limit, page)
      ensures n == |Taken(page, limit)|
    {
      if page == [] {
        NothingTaken(Stored(), limit);
        return 0;
      }
      var rows := page;
      if |rows| == limit { rows := TrimSuffix(rows); }
      var ids: set<int> := {};
      for i := 0 to |rows|
        invariant ids == Ids(rows[..i])
      {
        assert rows[..i + 1] == rows[..i] + [rows[i]];
        ids := ids + {rows[i].id};
      }
      assert rows[..|rows|] == rows;
      SaveOutputs(SortOutputs(rows));
      raws := set r | r in raws && r.id !in ids;
      return |rows|;
    }
  }

  // ---- The whole drain -----------------------------------------------------------------------------------

  /** Every page is an answer the database could give when it is asked. */
  ghost predicate Answers(t: Tables, bound: int, limit: nat, pages: seq<seq<Raw>>)
    decreases |pages|
  {
    pages == [] || (IsPage(t, bound, limit, pages[0]) && Answers(Synced(t, limit, pages[0]), bound, limit, pages[1..]))
  }

  ghost function SyncedAll(t: Tables, limit: nat, pages: seq<seq<Raw>>): Tables
    decreases |pages|
  {
    if pages == [] then t else SyncedAll(Synced(t, limit, pages[0]), limit, pages[1..])
  }

  function Group(rows: set<Raw>, time: int): set<Raw> { set r | r in rows && r.createdAt == time }

  /** No timestamp is shared by more than limit rows. */
  predicate GroupsFit(rows: set<Raw>, limit: nat)
  {
    forall x :: x in rows ==> |Group(rows, x.createdAt)| <= limit
  }

  /** Everything in s goes before everything in rows. */
  predicate Before(s: seq<Raw>, rows: set<Raw>) { forall x, y :: x in s && y in rows ==> AtMost(x, y) }

  function Rows(s: seq<Raw>): set<Raw> { set r | r in s }

  lemma {:induction false} DistinctRows(s: seq<Raw>)
    requires Distinct(s)
    ensures |Rows(s)| == |s|
  {
    if s != [] {
      var front, last := s[..|s| - 1], s[|s| - 1];
      DistinctRows(front);
      assert last !in front;
      assert Rows(s) == Rows(front) + {last};
    }
  }

  /** A full page of one timestamp holds the whole group of it, if groups fit. */
  lemma WholeGroup(rows: set<Raw>, page: seq<Raw>, limit: nat, y: Raw)
    requires GroupsFit(rows, limit) && Distinct(page) && |page| == limit && y in rows
    requires forall r :: r in page ==> r in rows && r.createdAt == y.createdAt
    ensures y in page
  {
    var group := Group(rows, y.createdAt);
    DistinctRows(page);
    SameSize(Rows(page), group);
    assert y in group;
  }

  lemma {:induction false} SubsetSize(a: set<Raw>, b: set<Raw>)
    requires a <= b
    ensures |a| <= |b|
    decreases a
  {
    if a != {} {
      var x :| x in a;
      SubsetSize(a - {x}, b - {x});
    }
  }

  lemma SameSize(a: set<Raw>, b: set<Raw>)
    requires a <= b && |b| <= |a|
    ensures a == b
  {
    assert |b - a| == |b| - |a|;
  }

  lemma TakenPrefix(page: seq<Raw>, limit: nat)
    requires ByTime(page)
    ensures var taken := Taken(page, limit);
      |taken| <= |page| && taken == page[..|taken|] && (page != [] ==> taken != [])
  {
    if page != [] && |page| == limit { TrimmedIsClean(page); }
  }

  /** What a sync takes is strictly older than all it leaves. */
  lemma TakenFirst(t: Tables, bound: int, limit: nat, page: seq<Raw>)
    requires IsPage(t, bound, limit, page) && GroupsFit(Eligible(t, bound), limit) && limit > 0
    ensures var taken := Taken(page, limit);
      && taken == page[..|taken|] && (Eligible(t, bound) != {} ==> taken != [])
      && (forall x, y :: x in taken && y in Eligible(t, bound) && y !in taken ==> x.createdAt < y.createdAt)
  {
    var rows := Eligible(t, bound);
    if rows != {} {
      var z :| z in rows;
      assert page != [];
    }
    if page != [] && |page| == limit {
      TrimmedIsClean(page);
      var taken, last := Taken(page, limit), page[|page| - 1].createdAt;
      forall x, y | x in taken && y in rows && y !in taken
        ensures x.createdAt < y.createdAt
      {
        assert page[|page| - 1] in page;
        if |taken| == |page| && y.createdAt == last { WholeGroup(rows, page, limit, y); }
      }
    }
  }

  /** New outputs in a batch of distinct traces are appended in its order. */
  lemma {:induction false} SavedAppends(outputs: seq<Raw>, batch: seq<Raw>)
    requires forall x :: x in batch ==> !Known(outputs, x.trace)
    requires forall i, j :: 0 <= i < j < |batch| ==> batch[i].trace != batch[j].trace
    ensures SavedAll(outputs, batch) == outputs + batch
  {
    if batch != [] {
      var front, last := batch[..|batch| - 1], batch[|batch| - 1];
      SavedAppends(outputs, front);
      assert !Known(outputs + front, last.trace);
      assert batch == front + [last];
    }
  }

  lemma SortedRows(s: seq<Raw>)
    requires Distinct(s)
    ensures var r := SortOutputs(s); InOrder(r) && Distinct(r) && |r| == |s| && Rows(r) == Rows(s)
  {
    SortSorts(s);
    var r := SortOutputs(s);
    assert |r| == |multiset(r)| == |multiset(s)| == |s|;
    forall x
      ensures x in r <==> x in s
    {
      assert x in multiset(r) <==> x in multiset(s);
    }
    forall i, j | 0 <= i < j < |r|
      ensures r[i] != r[j]
    {
      NotRepeated(r, s, i, j);
    }
  }

  lemma NotRepeated(r: seq<Raw>, s: seq<Raw>, i: int, j: int)
    requires 0 <= i < j < |r| && multiset(r) == multiset(s) && Distinct(s)
    ensures r[i] != r[j]
  {
    OnceEach(s, r[j]);
    assert r == r[..j] + [r[j]] + r[j + 1..];
    assert r[j] !in multiset(r[..j]);
    assert r[i] in multiset(r[..j]) by { assert r[..j][i] == r[i]; }
  }

  lemma {:induction false} OnceEach(s: seq<Raw>, x: Raw)
    requires Distinct(s)
    ensures multiset(s)[x] <= 1
  {
    if s != [] {
      var front, last := s[..|s| - 1], s[|s| - 1];
      assert s == front + [last];
      OnceEach(front, x);
      assert last !in front && last !in multiset(front);
    }
  }

  lemma SyncAppends(t: Tables, taken: seq<Raw>)
    requires Valid(t) && Distinct(taken) && Rows(taken) <= t.raws
    ensures SavedAll(t.outputs, SortOutputs(taken)) == t.outputs + SortOutputs(taken)
    ensures Valid(Tables(t.raws - Rows(taken), t.outputs + SortOutputs(taken)))
  {
    SortedRows(taken);
    var sorted := SortOutputs(taken);
    forall x | x in sorted
      ensures x in t.raws
    {
      assert x in Rows(sorted);
    }
    SavedAppends(t.outputs, sorted);
    StillValid(t, Tables(t.raws - Rows(taken), t.outputs + sorted), sorted);
  }

  lemma PrefixOfPage(page: seq<Raw>, taken: seq<Raw>, rows: set<Raw>)
    requires |taken| <= |page| && taken == page[..|taken|] && Distinct(page) && forall r :: r in page ==> r in rows
    ensures Distinct(taken) && Rows(taken) <= rows
  {
  }

  /** One sync on valid tables. */
  lemma SyncStep(t: Tables, bound: int, limit: nat, page: seq<Raw>)
    requires Valid(t) && IsPage(t, bound, limit, page)
    ensures var e, taken := Synced(t, limit, page), Taken(page, limit);
      && e.outputs == t.outputs + SortOutputs(taken) && Distinct(taken) && Rows(taken) <= Eligible(t, bound)
      && e.raws == t.raws - Rows(taken) && Valid(e)
  {
    var taken := Taken(page, limit);
    TakenPrefix(page, limit);
    PrefixOfPage(page, taken, Eligible(t, bound));
    SyncAppends(t, taken);
    LeftRows(t, taken);
  }

  lemma StillValid(t: Tables, e: Tables, sorted: seq<Raw>)
    requires Valid(t) && Rows(sorted) <= t.raws && e.raws == t.raws - Rows(sorted) && e.outputs == t.outputs + sorted
    ensures Valid(e)
  {
    forall x, o | x in e.raws && o in e.outputs
      ensures o.trace != x.trace
    {
      if o in sorted { assert o in Rows(sorted); } else { assert !Known(t.outputs, x.trace); }
    }
  }

  lemma LeftRows(t: Tables, taken: seq<Raw>)
    requires Valid(t) && Rows(taken) <= t.raws
    ensures Without(t.raws, taken) == t.raws - Rows(taken)
  {
    forall r | r in t.raws
      ensures r.id in Ids(taken) <==> r in Rows(taken)
    {
      if r.id in Ids(taken) {
        var x :| x in taken && x.id == r.id;
        assert x in Rows(taken);
      }
    }
  }

  lemma SmallerGroups(rows: set<Raw>, fewer: set<Raw>, limit: nat)
    requires GroupsFit(rows, limit) && fewer <= rows
    ensures GroupsFit(fewer, limit)
  {
    forall x | x in fewer
      ensures |Group(fewer, x.createdAt)| <= limit
    {
      SubsetSize(Group(fewer, x.createdAt), Group(rows, x.createdAt));
    }
  }

  /** What a drain has achieved: d was appended, in order, ahead of everything still waiting. */
  predicate Drained(t: Tables, e: Tables, bound: int, d: seq<Raw>)
  {
    && e.outputs == t.outputs + d && InOrder(d) && Distinct(d)
    && Rows(d) <= Eligible(t, bound) && e.raws == t.raws - Rows(d)
    && Before(d, Eligible(e, bound))
  }

  lemma OlderBefore(x: Raw, y: Raw)
    requires x.createdAt < y.createdAt
    ensures AtMost(x, y)
  {
  }

  /** Draining on: what comes next goes after what is already there. */
  lemma DrainedTwice(t: Tables, mid: Tables, e: Tables, bound: int, c: seq<Raw>, d: seq<Raw>)
    requires Drained(t, mid, bound, c) && Drained(mid, e, bound, d)
    ensures Drained(t, e, bound, c + d)
  {
    forall x, y | x in c && y in d
      ensures AtMost(x, y) && x != y
    {
      assert x in Rows(c) && y in Rows(d);
      assert y in Eligible(mid, bound);
    }
    assert Rows(c + d) == Rows(c) + Rows(d);
    assert t.outputs + (c + d) == (t.outputs + c) + d;
    assert Eligible(e, bound) <= Eligible(mid, bound);
  }

  lemma SyncDrains(t: Tables, bound: int, limit: nat, page: seq<Raw>)
    requires Valid(t) && IsPage(t, bound, limit, page) && GroupsFit(Eligible(t, bound), limit) && limit > 0
    ensures Drained(t, Synced(t, limit, page), bound, SortOutputs(Taken(page, limit)))
  {
    var e, taken := Synced(t, limit, page), Taken(page, limit);
    SyncStep(t, bound, limit, page);
    TakenFirst(t, bound, limit, page);
    SortedRows(taken);
    forall x, y | x in SortOutputs(taken) && y in Eligible(e, bound)
      ensures AtMost(x, y)
    {
      assert x in Rows(taken) && y !in Rows(taken);
      OlderBefore(x, y);
    }
  }

  /** The batched drain keeps the global order: whatever pages the database answers with, as long
      as no timestamp is shared by more than limit rows, the outputs appended are in cmpUTXO order,
      each row once, ahead of all that still waits. */
  lemma {:induction false} DrainInOrder(t: Tables, bound: int, limit: nat, pages: seq<seq<Raw>>) returns (d: seq<Raw>)
    requires Valid(t) && limit > 0 && GroupsFit(Eligible(t, bound), limit) && Answers(t, bound, limit, pages)
    ensures Drained(t, SyncedAll(t, limit, pages), bound, d) && Valid(SyncedAll(t, limit, pages))
    decreases |pages|
  {
    if pages == [] {
      d := [];
      assert t.outputs + d == t.outputs;
    } else {
      var mid := Synced(t, limit, pages[0]);
      SyncStep(t, bound, limit, pages[0]);
      SyncDrains(t, bound, limit, pages[0]);
      SmallerGroups(Eligible(t, bound), Eligible(mid, bound), limit);
      var rest := DrainInOrder(mid, bound, limit, pages[1..]);
      d := SortOutputs(Taken(pages[0], limit)) + rest;
      DrainedTwice(t, mid, SyncedAll(t, limit, pages), bound, SortOutputs(Taken(pages[0], limit)), rest);
    }
  }

  /** Every sync takes at least one row, so as many syncs as rows leave nothing behind. */
  lemma {:induction false} DrainTerminates(t: Tables, bound: int, limit: nat, pages: seq<seq<Raw>>)
    requires Valid(t) && limit > 0 && GroupsFit(Eligible(t, bound), limit) && Answers(t, bound, limit, pages)
    requires |Eligible(t, bound)| <= |pages|
    ensures Eligible(SyncedAll(t, limit, pages), bound) == {}
    decreases |pages|
  {
    if pages != [] {
      var mid, taken := Synced(t, limit, pages[0]), Taken(pages[0], limit);
      SyncStep(t, bound, limit, pages[0]);
      TakenFirst(t, bound, limit, pages[0]);
      SmallerGroups(Eligible(t, bound), Eligible(mid, bound), limit);
      assert Eligible(mid, bound) == Eligible(t, bound) - Rows(taken);
      if Eligible(t, bound) != {} {
        assert taken[0] in Rows(taken);
        SubsetSize(Eligible(mid, bound), Eligible(t, bound) - {taken[0]});
      }
      DrainTerminates(mid, bound, limit, pages[1..]);
    }
  }

  /** Batched drain equals one sort: once it is done, the drain has appended exactly what sorting
      all the rows at once would have. */
  lemma BatchedDrainIsOneSort(t: Tables, bound: int, limit: nat, pages: seq<seq<Raw>>, all: seq<Raw>)
    requires Valid(t) && limit > 0 && GroupsFit(Eligible(t, bound), limit) && Answers(t, bound, limit, pages)
    requires Distinct(all) && Rows(all) == Eligible(t, bound) && Apart(multiset(all)) && |all| <= |pages|
    ensures SyncedAll(t, limit, pages) == Tables(t.raws - Rows(all), t.outputs + SortOutputs(all))
  {
    DistinctRows(all);
    DrainTerminates(t, bound, limit, pages);
    var d := DrainInOrder(t, bound, limit, pages);
    assert Rows(d) == Rows(all) by { AllDrained(t, SyncedAll(t, limit, pages), bound, d); }
    SameMultiset(d, all);
    SortSorts(all);
    OneOrder(d, SortOutputs(all));
  }

  lemma AllDrained(t: Tables, e: Tables, bound: int, d: seq<Raw>)
    requires Drained(t, e, bound, d) && Eligible(e, bound) == {}
    ensures Rows(d) == Eligible(t, bound)
  {
    forall r | r in Eligible(t, bound)
      ensures r in Rows(d)
    {
      assert r !in Eligible(e, bound);
    }
  }

  lemma SameMultiset(s: seq<Raw>, t: seq<Raw>)
    requires Distinct(s) && Distinct(t) && Rows(s) == Rows(t)
    ensures multiset(s) == multiset(t)
  {
    forall x: Raw
      ensures multiset(s)[x] == multiset(t)[x]
    {
      OnceEach(s, x);
      OnceEach(t, x);
      assert x in Rows(s) <==> x in multiset(s);
      assert x in Rows(t) <==> x in multiset(t);
    }
  }

  // ---- Groups that do not fit ----------------------------------------------------------------------------

  lemma {:induction false} Listed(rows: set<Raw>) returns (s: seq<Raw>)
    ensures Distinct(s) && Rows(s) == rows
    decreases rows
  {
    s := [];
    if rows != {} {
      var x :| x in rows;
      var rest := Listed(rows - {x});
      assert x !in rest by { assert x !in Rows(rest); }
      s := [x] + rest;
      assert Rows(s) == {x} + Rows(rest);
    }
  }

  lemma Enumerate(rows: set<Raw>) returns (s: seq<Raw>)
    ensures Distinct(s) && Rows(s) == rows && |s| == |rows| && InOrder(s)
  {
    var all := Listed(rows);
    SortedRows(all);
    DistinctRows(all);
    s := SortOutputs(all);
  }

  lemma OrderedByTime(s: seq<Raw>)
    requires InOrder(s)
    ensures ByTime(s)
  {
    forall i, j | 0 <= i < j < |s|
      ensures s[i].createdAt <= s[j].createdAt
    {
      assert AtMost(s[i], s[j]);
    }
  }

  lemma PrefixOldest(s: seq<Raw>, limit: nat, r: Raw, p: Raw)
    requires ByTime(s) && limit <= |s| && r in s && r !in s[..limit] && p in s[..limit]
    ensures p.createdAt <= r.createdAt
  {
    assert s == s[..limit] + s[limit..];
    var i :| 0 <= i < |s| - limit && s[limit..][i] == r;
    var j :| 0 <= j < limit && s[..limit][j] == p;
    assert s[limit + i] == r && s[j] == p;
  }

  /** The first rows in cmpUTXO order are one of the pages the database may answer with. */
  lemma FirstPage(t: Tables, bound: int, limit: nat, s: seq<Raw>)
    requires Distinct(s) && InOrder(s) && Rows(s) == Eligible(t, bound) && limit <= |s|
    ensures IsPage(t, bound, limit, s[..limit])
  {
    OrderedByTime(s);
    var page := s[..limit];
    forall r | r in page
      ensures r in Eligible(t, bound)
    {
      assert r in Rows(s);
    }
    forall r, p | r in Eligible(t, bound) && p in page && r !in page
      ensures p.createdAt <= r.createdAt
    {
      assert r in Rows(s);
      PrefixOldest(s, limit, r, p);
    }
  }

  /** So are any limit rows of the oldest timestamp, if it has that many. */
  lemma GroupPage(t: Tables, bound: int, limit: nat, g: seq<Raw>, page: seq<Raw>, time: int)
    requires forall r :: r in Eligible(t, bound) ==> time <= r.createdAt
    requires Distinct(g) && Rows(g) <= Group(Eligible(t, bound), time) && limit < |g| && page == g[1..limit + 1]
    ensures IsPage(t, bound, limit, page)
  {
    forall r | r in page
      ensures r in Eligible(t, bound) && r.createdAt == time
    {
      assert r in Rows(g);
    }
  }

  /** A page that ends beyond a timestamp holds the whole group of it. */
  lemma GroupUntouched(t: Tables, bound: int, limit: nat, page: seq<Raw>, x: Raw)
    requires IsPage(t, bound, limit, page) && limit > 0 && x in Eligible(t, bound)
    requires |Group(Eligible(t, bound), x.createdAt)| > limit && page != [] && page[0].createdAt != x.createdAt
    ensures forall r :: r in Taken(page, limit) ==> r.createdAt != x.createdAt
  {
    var taken, group := Taken(page, limit), Group(Eligible(t, bound), x.createdAt);
    DistinctRows(page);
    if |page| < limit {
      SubsetSize(group, Rows(page));
    } else {
      TrimmedIsClean(page);
      assert page[0] in page;
      var last := page[|page| - 1];
      assert last in page;
      if |taken| < |page| && x.createdAt < last.createdAt {
        assert group <= Rows(page);
        SubsetSize(group, Rows(page));
      }
    }
  }

  /** The first page of a group that is too large and comes first can leave out its least row. */
  lemma BreakFront(t: Tables, bound: int, limit: nat, time: int) returns (page: seq<Raw>, x: Raw, y: Raw)
    requires Valid(t) && limit > 0 && (forall r :: r in Eligible(t, bound) ==> time <= r.createdAt)
    requires |Group(Eligible(t, bound), time)| > limit
    requires forall a, b :: a in Eligible(t, bound) && b in Eligible(t, bound) && CmpUtxo(a, b) == 0 ==> a == b
    ensures IsPage(t, bound, limit, page)
    ensures x in Synced(t, limit, page).outputs && y in Eligible(Synced(t, limit, page), bound) && CmpUtxo(y, x) < 0
  {
    var g := Enumerate(Group(Eligible(t, bound), time));
    page, x, y := g[1..limit + 1], g[1], g[0];
    assert x in Rows(g) && y in Rows(g);
    GroupPage(t, bound, limit, g, page, time);
    SyncStep(t, bound, limit, page);
    TakenPrefix(page, limit);
    var taken := Taken(page, limit);
    assert taken[0] == x;
    SortedRows(taken);
    assert x in Rows(taken) && x in SortOutputs(taken) by { assert x in Rows(SortOutputs(taken)); }
    assert y !in Rows(taken);
    CmpIsTotal(x, y);
  }

  /** Why groups must fit: if some timestamp is shared by more than limit rows, the database can
      answer so that a row is still waiting when a greater one has already become an output. */
  lemma {:induction false} OversizedGroupBreaksOrder(t: Tables, bound: int, limit: nat)
      returns (pages: seq<seq<Raw>>, x: Raw, y: Raw)
    requires Valid(t) && limit > 0 && !GroupsFit(Eligible(t, bound), limit)
    requires forall a, b :: a in Eligible(t, bound) && b in Eligible(t, bound) && CmpUtxo(a, b) == 0 ==> a == b
    ensures Answers(t, bound, limit, pages)
    ensures var e := SyncedAll(t, limit, pages); x in e.outputs && y in Eligible(e, bound) && CmpUtxo(y, x) < 0
    decreases |Eligible(t, bound)|
  {
    var rows := Eligible(t, bound);
    var z :| z in rows && |Group(rows, z.createdAt)| > limit;
    var s := Enumerate(rows);
    SubsetSize(Group(rows, z.createdAt), rows);
    OrderedByTime(s);
    forall r | r in rows
      ensures s[0].createdAt <= r.createdAt
    {
      assert r in Rows(s);
    }
    if s[0].createdAt == z.createdAt {
      var page;
      page, x, y := BreakFront(t, bound, limit, z.createdAt);
      pages := [page];
      assert pages[1..] == [];
    } else {
      var page := PastFront(t, bound, limit, s, z);
      var rest;
      rest, x, y := OversizedGroupBreaksOrder(Synced(t, limit, page), bound, limit);
      pages := [page] + rest;
      assert pages[1..] == rest;
    }
  }

  /** A page that takes other rows and leaves the large group whole. */
  lemma PastFront(t: Tables, bound: int, limit: nat, s: seq<Raw>, z: Raw) returns (page: seq<Raw>)
    requires Valid(t) && limit > 0 && Distinct(s) && InOrder(s) && Rows(s) == Eligible(t, bound) && limit <= |s|
    requires z in Eligible(t, bound) && |Group(Eligible(t, bound), z.createdAt)| > limit
    requires s[0].createdAt != z.createdAt
    ensures IsPage(t, bound, limit, page) && Valid(Synced(t, limit, page))
    ensures var rows, left := Eligible(t, bound), Eligible(Synced(t, limit, page), bound);
      left <= rows && |left| < |rows| && !GroupsFit(left, limit)
  {
    page := s[..limit];
    var rows, left := Eligible(t, bound), Eligible(Synced(t, limit, page), bound);
    FirstPage(t, bound, limit, s);
    SyncStep(t, bound, limit, page);
    TakenPrefix(page, limit);
    GroupUntouched(t, bound, limit, page, z);
    assert Group(left, z.createdAt) == Group(rows, z.createdAt);
    assert z in left;
    assert Taken(page, limit)[0] == s[0] && s[0] in Rows(s);
    FewerRows(rows, left, s[0]);
  }

  lemma FewerRows(rows: set<Raw>, fewer: set<Raw>, x: Raw)
    requires fewer <= rows && x in rows && x !in fewer
    ensures |fewer| < |rows|
  {
    SubsetSize(fewer, rows - {x});
  }
}
