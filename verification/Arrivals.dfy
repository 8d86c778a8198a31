/** The drain while raw outputs keep arriving: rows come in with ids above the bound, and the bound
    moves up when the syncer has caught up (store/wallet/wallet.go, store/wallet/recovery.go). */
module Arrivals {
  import opened Drain

  /** The tables and the id up to which raw rows may be drained. */
  datatype State = State(t: Tables, bound: int)

  datatype Event = Sync(page: seq<Raw>) | Arrive(rows: set<Raw>) | Advance(bound: int)

  function Happened(s: State, limit: nat, e: Event): State
  {
    match e
    case Sync(page) => s.(t := Synced(s.t, limit, page))
    case Arrive(rows) => s.(t := s.t.(raws := s.t.raws + rows))
    case Advance(bound) => s.(bound := bound)
  }

  /** Pages are answers the database could give; rows arrive with new ids and traces; the bound only
      grows. No timestamp is shared by more rows than a page holds. */
  ghost predicate CanHappen(s: State, limit: nat, e: Event)
  {
    match e
    case Sync(page) => IsPage(s.t, s.bound, limit, page) && GroupsFit(Eligible(s.t, s.bound), limit)
    case Arrive(rows) => Valid(Happened(s, limit, e).t) && forall r :: r in rows ==> r.id > s.bound
    case Advance(bound) => s.bound <= bound
  }

  ghost predicate Proper(s: State, limit: nat, events: seq<Event>)
    decreases |events|
  {
    events == [] || (CanHappen(s, limit, events[0]) && Proper(Happened(s, limit, events[0]), limit, events[1..]))
  }

  ghost function Run(s: State, limit: nat, events: seq<Event>): State
    decreases |events|
  {
    if events == [] then s else Run(Happened(s, limit, events[0]), limit, events[1..])
  }

  /** Whenever the bound moves, what becomes eligible goes after all that has been drained since the
      first `start` outputs. */
  ghost predicate OnTime(s: State, start: nat, limit: nat, events: seq<Event>)
    requires start <= |s.t.outputs|
    decreases |events|
  {
    events == []
    || (var next := Happened(s, limit, events[0]);
        && (events[0].Advance? ==> Before(s.t.outputs[start..], Eligible(s.t, events[0].bound)))
        && start <= |next.t.outputs| && OnTime(next, start, limit, events[1..]))
  }

  /** The outputs since start are in order and ahead of all that is eligible. */
  ghost predicate Ahead(s: State, start: nat)
  {
    && Valid(s.t) && start <= |s.t.outputs| && InOrder(s.t.outputs[start..])
    && Before(s.t.outputs[start..], Eligible(s.t, s.bound))
  }

  lemma JoinInOrder(d: seq<Raw>, c: seq<Raw>)
    requires InOrder(d) && InOrder(c) && Before(d, Rows(c))
    ensures InOrder(d + c)
  {
    forall i, j | 0 <= i < j < |d + c|
      ensures AtMost((d + c)[i], (d + c)[j])
    {
      if i < |d| <= j { assert d[i] in d && c[j - |d|] in Rows(c); }
    }
  }

  lemma DrainedKeepsAhead(t: Tables, e: Tables, bound: int, start: nat, c: seq<Raw>)
    requires Drained(t, e, bound, c) && start <= |t.outputs|
    requires InOrder(t.outputs[start..]) && Before(t.outputs[start..], Eligible(t, bound))
    ensures start <= |e.outputs| && InOrder(e.outputs[start..]) && Before(e.outputs[start..], Eligible(e, bound))
  {
    var d := t.outputs[start..];
    assert e.outputs[start..] == d + c;
    JoinInOrder(d, c);
    assert Eligible(e, bound) <= Eligible(t, bound);
  }

  lemma SyncKeepsAhead(s: State, start: nat, limit: nat, page: seq<Raw>)
    requires Ahead(s, start) && CanHappen(s, limit, Sync(page)) && limit > 0
    ensures Ahead(Happened(s, limit, Sync(page)), start)
  {
    SyncStep(s.t, s.bound, limit, page);
    SyncDrains(s.t, s.bound, limit, page);
    DrainedKeepsAhead(s.t, Synced(s.t, limit, page), s.bound, start, SortOutputs(Taken(page, limit)));
  }

  lemma EventKeepsAhead(s: State, start: nat, limit: nat, e: Event)
    requires Ahead(s, start) && CanHappen(s, limit, e) && limit > 0
    requires e.Advance? ==> Before(s.t.outputs[start..], Eligible(s.t, e.bound))
    ensures Ahead(Happened(s, limit, e), start)
  {
    match e
    case Sync(page) => SyncKeepsAhead(s, start, limit, page);
    case Arrive(rows) => assert Eligible(Happened(s, limit, e).t, s.bound) == Eligible(s.t, s.bound);
    case Advance(_) =>
  }

  /** With arrivals, the outputs appended are still in cmpUTXO order and ahead of all that is eligible,
      whatever pages are answered and whenever the bound moves, as long as no row becomes eligible that
      belongs before one already drained. */
  lemma {:induction false} DrainWithArrivals(s: State, start: nat, limit: nat, events: seq<Event>)
    requires Ahead(s, start) && limit > 0 && Proper(s, limit, events) && OnTime(s, start, limit, events)
    ensures Ahead(Run(s, limit, events), start)
    decreases |events|
  {
    if events != [] {
      EventKeepsAhead(s, start, limit, events[0]);
      DrainWithArrivals(Happened(s, limit, events[0]), start, limit, events[1..]);
    }
  }

  // ---- Rows that come too late ------------------------------------------------------------------------------

  lemma {:induction false} SavedExtends(outputs: seq<Raw>, batch: seq<Raw>)
    ensures |outputs| <= |SavedAll(outputs, batch)| && SavedAll(outputs, batch)[..|outputs|] == outputs
  {
    if batch != [] { SavedExtends(outputs, batch[..|batch| - 1]); }
  }

  /** Outputs are only ever appended. */
  lemma {:induction false} OutputsExtend(s: State, limit: nat, events: seq<Event>)
    ensures var e := Run(s, limit, events);
      |s.t.outputs| <= |e.t.outputs| && e.t.outputs[..|s.t.outputs|] == s.t.outputs
    decreases |events|
  {
    if events != [] {
      var next := Happened(s, limit, events[0]);
      if events[0].Sync? { SavedExtends(s.t.outputs, SortOutputs(Taken(events[0].page, limit))); }
      OutputsExtend(next, limit, events[1..]);
      var e, n := Run(s, limit, events), |s.t.outputs|;
      assert e.t.outputs[..n] == e.t.outputs[..|next.t.outputs|][..n];
    }
  }

  /** Why rows must not come too late: a row that waits behind a greater one already drained leaves the
      outputs out of order as soon as it becomes one. */
  lemma LateRowBreaksOrder(s: State, start: nat, limit: nat, events: seq<Event>, x: Raw, y: Raw)
    requires Valid(s.t) && start <= |s.t.outputs| && x in s.t.outputs[start..] && y in s.t.raws && CmpUtxo(y, x) < 0
    requires y in Run(s, limit, events).t.outputs
    ensures start <= |Run(s, limit, events).t.outputs| && !InOrder(Run(s, limit, events).t.outputs[start..])
  {
    var before, after := s.t.outputs, Run(s, limit, events).t.outputs;
    OutputsExtend(s, limit, events);
    var i :| 0 <= i < |before| - start && before[start..][i] == x;
    var j :| 0 <= j < |after| && after[j] == y;
    assert !Known(before, y.trace);
    assert forall k :: 0 <= k < |before| ==> after[k] == before[k] && before[k] in before;
    assert j >= |before|;
    assert after[start..][i] == x && after[start..][j - start] == y;
    CmpIsTotal(x, y);
  }

  // ---- The order is kept exactly if rows are on time --------------------------------------------------------

  /** Every row that could be drained has been. */
  predicate CaughtUp(s: State) { Eligible(s.t, s.bound) == {} }

  lemma EventKeepsValid(s: State, limit: nat, e: Event)
    requires Valid(s.t) && CanHappen(s, limit, e) && limit > 0
    ensures Valid(Happened(s, limit, e).t)
  {
    if e.Sync? { SyncStep(s.t, s.bound, limit, e.page); }
  }

  lemma SyncMoves(s: State, limit: nat, page: seq<Raw>, y: Raw)
    requires Valid(s.t) && IsPage(s.t, s.bound, limit, page) && y in s.t.raws
    ensures var e := Synced(s.t, limit, page); y in e.raws || y in e.outputs
  {
    SyncStep(s.t, s.bound, limit, page);
    var taken := Taken(page, limit);
    SortedRows(taken);
    if y in taken { assert y in Rows(taken) && y in Rows(SortOutputs(taken)); }
  }

  /** A row that may be drained is drained by the time the drain has caught up. */
  lemma {:induction false} EligibleIsDrained(s: State, limit: nat, events: seq<Event>, y: Raw)
    requires Valid(s.t) && limit > 0 && Proper(s, limit, events) && CaughtUp(Run(s, limit, events))
    requires y in Eligible(s.t, s.bound)
    ensures y in Run(s, limit, events).t.outputs
    decreases |events|
  {
    var e, next := events[0], Happened(s, limit, events[0]);
    EventKeepsValid(s, limit, e);
    if e.Sync? { SyncMoves(s, limit, e.page, y); }
    if y in next.t.outputs {
      OutputsExtend(next, limit, events[1..]);
      var i :| 0 <= i < |next.t.outputs| && next.t.outputs[i] == y;
      assert Run(s, limit, events).t.outputs[i] == y;
    } else {
      EligibleIsDrained(next, limit, events[1..], y);
    }
  }

  /** When all rows below the bound have been drained, the outputs appended are in cmpUTXO order exactly
      if, whenever the bound moved, no row became eligible that belongs before one already drained. */
  lemma {:induction false} InOrderExactlyIfOnTime(s: State, start: nat, limit: nat, events: seq<Event>)
    requires Ahead(s, start) && limit > 0 && Proper(s, limit, events) && CaughtUp(Run(s, limit, events))
    ensures start <= |Run(s, limit, events).t.outputs|
    ensures InOrder(Run(s, limit, events).t.outputs[start..]) <==> OnTime(s, start, limit, events)
    decreases |events|
  {
    if events != [] {
      var e, next := events[0], Happened(s, limit, events[0]);
      if e.Advance? && !Before(s.t.outputs[start..], Eligible(s.t, e.bound)) {
        var x, y :| x in s.t.outputs[start..] && y in Eligible(s.t, e.bound) && !AtMost(x, y);
        CmpIsTotal(x, y);
        EligibleIsDrained(next, limit, events[1..], y);
        LateRowBreaksOrder(next, start, limit, events[1..], x, y);
      } else {
        EventKeepsAhead(s, start, limit, e);
        InOrderExactlyIfOnTime(next, start, limit, events[1..]);
      }
    }
  }

  // ---- A late row -------------------------------------------------------------------------------------------

  /** A row arrives, the bound moves up to it, and it is drained. */
  function OneByOne(x: Raw): seq<Event> { [Arrive({x}), Advance(x.id), Sync([x])] }

  lemma SyncOne(t: Tables, bound: int, x: Raw, limit: nat)
    requires limit > 1 && t.raws == {x} && x.id <= bound && !Known(t.outputs, x.trace)
    ensures CanHappen(State(t, bound), limit, Sync([x]))
    ensures Happened(State(t, bound), limit, Sync([x])) == State(Tables({}, t.outputs + [x]), bound)
  {
    assert Eligible(t, bound) == {x};
    assert Group({x}, x.createdAt) == {x};
    assert SortOutputs([x]) == [x];
    assert SavedAll(t.outputs, [x]) == Saved(t.outputs, x) by { assert [x][..0] == []; }
    assert x.id in Ids([x]);
    assert Without({x}, [x]) == {};
  }

  lemma ArriveOne(outputs: seq<Raw>, bound: int, x: Raw, limit: nat)
    requires x.id > bound && !Known(outputs, x.trace)
    ensures var s := State(Tables({}, outputs), bound);
      CanHappen(s, limit, Arrive({x})) && Happened(s, limit, Arrive({x})) == State(Tables({x}, outputs), bound)
  {
  }

  lemma Step(s: State, limit: nat, events: seq<Event>, e: Event, rest: seq<Event>)
    requires events == [e] + rest && CanHappen(s, limit, e)
    ensures Proper(s, limit, events) == Proper(Happened(s, limit, e), limit, rest)
    ensures Run(s, limit, events) == Run(Happened(s, limit, e), limit, rest)
  {
    assert events[1..] == rest;
  }

  lemma OutOfOrder(x: Raw, y: Raw)
    requires x.createdAt > y.createdAt
    ensures !InOrder([x, y])
  {
    assert !AtMost([x, y][0], [x, y][1]);
  }

  lemma OneRow(outputs: seq<Raw>, bound: int, x: Raw, rest: seq<Event>, limit: nat)
    requires limit > 1 && x.id > bound && !Known(outputs, x.trace)
    ensures var s, e := State(Tables({}, outputs), bound), State(Tables({}, outputs + [x]), x.id);
      && Proper(s, limit, OneByOne(x) + rest) == Proper(e, limit, rest)
      && Run(s, limit, OneByOne(x) + rest) == Run(e, limit, rest)
  {
    var s, arrived := State(Tables({}, outputs), bound), State(Tables({x}, outputs), bound);
    ArriveOne(outputs, bound, x, limit);
    Step(s, limit, OneByOne(x) + rest, Arrive({x}), [Advance(x.id), Sync([x])] + rest);
    Step(arrived, limit, [Advance(x.id), Sync([x])] + rest, Advance(x.id), [Sync([x])] + rest);
    SyncOne(Tables({x}, outputs), x.id, x, limit);
    Step(State(Tables({x}, outputs), x.id), limit, [Sync([x])] + rest, Sync([x]), rest);
  }

  lemma TwoRows(x: Raw, y: Raw, limit: nat)
    requires limit > 1 && 0 < x.id < y.id && x.trace != y.trace
    ensures var s, run := State(Tables({}, []), 0), OneByOne(x) + OneByOne(y);
      Proper(s, limit, run) && Run(s, limit, run) == State(Tables({}, [x, y]), y.id)
  {
    OneRow([], 0, x, OneByOne(y), limit);
    assert [] + [x] == [x] && [x] + [y] == [x, y];
    OneRow([x], x.id, y, [], limit);
    assert OneByOne(y) + [] == OneByOne(y);
  }

  /** The syncer reads by the time of the last update, so an output y can come in after one x that was
      created later has been drained. From empty tables, with any such two, the outputs end up out of order. */
  lemma ALateRowBreaksOrder(x: Raw, y: Raw, limit: nat)
    requires limit > 1 && 0 < x.id < y.id && x.trace != y.trace && y.createdAt < x.createdAt
    ensures var s, run := State(Tables({}, []), 0), OneByOne(x) + OneByOne(y);
      && Ahead(s, 0) && Proper(s, limit, run) && CaughtUp(Run(s, limit, run))
      && Run(s, limit, run).t.outputs == [x, y] && !InOrder([x, y])
  {
    TwoRows(x, y, limit);
    OutOfOrder(x, y);
  }
}
