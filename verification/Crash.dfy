/** Whole runs of the payee with crashes: the checkpoint is saved only after an output is
    handled, a crash may fall between any two store writes, and the worker then starts over
    from the last checkpoint. */
module Crash {
  import opened Core
  import opened Handlers
  import opened Replay

  // ---- Runs of one batch ---------------------------------------------------------------------

  ghost function RunFrom(db: Db, s: Batch, n: nat): Db
    decreases 9 - n
  {
    if n >= 9 then db else RunFrom(Apply(db, s.At(n)), s, n + 1)
  }

  lemma RunToNext(db: Db, s: Batch, n: nat)
    requires n < 9
    ensures RunTo(db, s, n + 1) == Apply(RunTo(db, s, n), s.At(n))
  {
  }

  lemma {:induction false} RunSplit(db: Db, s: Batch, n: nat)
    requires n <= 9
    ensures RunFrom(RunTo(db, s, n), s, n) == RunAll(db, s)
    decreases 9 - n
  {
    if n < 9 {
      RunToNext(db, s, n);
      RunSplit(db, s, n + 1);
    }
  }

  /** A slot of s and of t that is planned alike or done in both plans. */
  predicate Agree(db: Db, s: Batch, t: Batch, i: nat)
    requires i < 9
  {
    s.At(i) == t.At(i) || (Done(db, s.At(i)) && Done(db, t.At(i)))
  }

  lemma ResumedAt(db: Db, s: Batch, t: Batch, n: nat, i: nat)
    requires i < 9 && Resumed(db, s, t, n)
    ensures if i < n then Done(db, t.At(i)) else Agree(db, s, t, i)
  {
  }

  lemma ResumedFrom(db: Db, s: Batch, t: Batch, n: nat)
    requires forall i: nat :: i < 9 ==> if i < n then Done(db, t.At(i)) else Agree(db, s, t, i)
    ensures Resumed(db, s, t, n)
  {
    assert t.At(0) == t.a && t.At(1) == t.b && t.At(2) == t.c && t.At(3) == t.d && t.At(4) == t.e;
    assert t.At(5) == t.f && t.At(6) == t.g && t.At(7) == t.h && t.At(8) == t.i;
    assert s.At(0) == s.a && s.At(1) == s.b && s.At(2) == s.c && s.At(3) == s.d && s.At(4) == s.e;
    assert s.At(5) == s.f && s.At(6) == s.g && s.At(7) == s.h && s.At(8) == s.i;
  }

  /** Following t after following s is following s. */
  lemma ResumedTwice(db: Db, x: Write, s: Batch, t: Batch, u: Batch, n: nat)
    requires n < 9 && Resumed(db, s, t, n) && Resumed(Apply(db, x), t, u, n + 1)
    ensures Resumed(Apply(db, x), s, u, n + 1)
  {
    var db' := Apply(db, x);
    forall i: nat | i < 9
      ensures if i < n + 1 then Done(db', u.At(i)) else Agree(db', s, u, i)
    {
      ResumedAt(db, s, t, n, i);
      ResumedAt(db', t, u, n + 1, i);
      DoneKept(db, x, s.At(i));
      DoneKept(db, x, t.At(i));
    }
    ResumedFrom(db', s, u, n + 1);
  }

  lemma ResumedSelf(db: Db, s: Batch, t: Batch, n: nat)
    requires n < 9 && Resumed(db, s, t, n)
    ensures Resumed(db, t, t, n)
    ensures Done(db, s.At(n)) ==> Resumed(db, s, t, n + 1)
    ensures !Done(db, s.At(n)) ==> t.At(n) == s.At(n)
  {
    forall i: nat | i < 9
      ensures if i < n then Done(db, t.At(i)) else Agree(db, t, t, i)
      ensures Done(db, s.At(n)) ==> if i < n + 1 then Done(db, t.At(i)) else Agree(db, s, t, i)
    {
      ResumedAt(db, s, t, n, i);
    }
    ResumedFrom(db, t, t, n);
    if Done(db, s.At(n)) { ResumedFrom(db, s, t, n + 1); }
    ResumedAt(db, s, t, n, n);
  }

  /** After any number of writes, planning again gives the rest of the original plan. */
  lemma {:induction false} PrefixResumed(db: Db, o: Output, n: nat)
    requires n <= 9
    ensures var s := Slots(db, o); Resumed(RunTo(db, s, n), s, Slots(RunTo(db, s, n), o), n)
  {
    var s := Slots(db, o);
    if n == 0 {
      ResumedFrom(db, s, s, 0);
    } else {
      PrefixResumed(db, o, n - 1);
      var mid := RunTo(db, s, n - 1);
      var t := Slots(mid, o);
      RunToNext(db, s, n - 1);
      ResumedSelf(mid, s, t, n - 1);
      if !Done(mid, s.At(n - 1)) {
        SlotsResume(mid, o, n - 1);
        ResumedTwice(mid, s.At(n - 1), s, t, Slots(RunTo(db, s, n), o), n - 1);
      }
    }
  }

  /** What is left of s and of a plan that resumes it does the same, write by write. */
  lemma {:induction false} AgreeRuns(db: Db, s: Batch, t: Batch, n: nat)
    requires n <= 9
    requires forall i: nat :: n <= i < 9 ==> Agree(db, s, t, i)
    ensures RunFrom(db, s, n) == RunFrom(db, t, n)
    decreases 9 - n
  {
    if n < 9 {
      var db' := Apply(db, s.At(n));
      assert Agree(db, s, t, n);
      assert db' == Apply(db, t.At(n));
      forall i: nat | n + 1 <= i < 9
        ensures Agree(db', s, t, i)
      {
        assert Agree(db, s, t, i);
        DoneKept(db, s.At(n), s.At(i));
        DoneKept(db, s.At(n), t.At(i));
      }
      AgreeRuns(db', s, t, n + 1);
    }
  }

  lemma {:induction false} DoneRuns(db: Db, t: Batch, n: nat, j: nat)
    requires j <= n <= 9
    requires forall i: nat :: j <= i < n ==> Done(db, t.At(i))
    ensures RunFrom(db, t, j) == RunFrom(db, t, n)
    decreases n - j
  {
    if j < n {
      assert Done(db, t.At(j));
      DoneRuns(db, t, n, j + 1);
    }
  }

  /** Crash/replay of one output: whichever prefix of its writes survived the crash, handling it
      again leaves exactly the database of one uninterrupted run. */
  lemma ReplayCompletes(db: Db, o: Output, n: nat)
    requires n <= 9
    ensures Step(RunTo(db, Slots(db, o), n), o) == Step(db, o)
  {
    var s := Slots(db, o);
    var mid := RunTo(db, s, n);
    var t := Slots(mid, o);
    PrefixResumed(db, o, n);
    forall i: nat | i < 9
      ensures if i < n then Done(mid, t.At(i)) else Agree(mid, s, t, i)
    {
      ResumedAt(mid, s, t, n, i);
    }
    RunSplit(mid, t, 0);
    DoneRuns(mid, t, n, 0);
    AgreeRuns(mid, s, t, n);
    RunSplit(db, s, n);
  }

  lemma {:induction false} DoneStays(db: Db, s: Batch, n: nat, j: nat, x: Write)
    requires n <= j <= 9 && Done(RunTo(db, s, n), x)
    ensures Done(RunTo(db, s, j), x)
    decreases j - n
  {
    if n < j {
      RunToNext(db, s, n);
      DoneKept(RunTo(db, s, n), s.At(n), x);
      DoneStays(db, s, n + 1, j, x);
    }
  }

  /** A second attempt that is interrupted too ends on a prefix of the first plan: the longer of
      what survived and of what it got done. */
  lemma {:induction false} RerunIsPrefix(db: Db, o: Output, n: nat, j: nat)
    requires n <= 9 && j <= 9
    ensures var s := Slots(db, o); var mid := RunTo(db, s, n);
      RunTo(mid, Slots(mid, o), j) == RunTo(db, s, if j < n then n else j)
    decreases j
  {
    var s := Slots(db, o);
    var mid := RunTo(db, s, n);
    var t := Slots(mid, o);
    if j > 0 {
      RerunIsPrefix(db, o, n, j - 1);
      RunToNext(mid, t, j - 1);
      PrefixResumed(db, o, n);
      ResumedAt(mid, s, t, n, j - 1);
      if n <= j - 1 {
        RunToNext(db, s, j - 1);
        if s.At(j - 1) != t.At(j - 1) {
          DoneStays(db, s, n, j - 1, s.At(j - 1));
          DoneStays(db, s, n, j - 1, t.At(j - 1));
        }
      }
    }
  }

  // ---- Runs over a queue of outputs ------------------------------------------------------------

  /** The worker: its database and the outputs after its checkpoint. */
  datatype Worker = Worker(db: Db, queue: seq<Output>)

  /** Every output of the queue handled in order, with no crash. */
  ghost function Run(db: Db, queue: seq<Output>): Db
    decreases |queue|
  {
    if queue == [] then db else Run(Step(db, queue[0]), queue[1..])
  }

  /** One life of the process: it gets through `fuse` writes before it dies, counting the nine
      slots of each output and the save of its checkpoint. */
  ghost function Attempt(w: Worker, fuse: nat): Worker
    decreases |w.queue|
  {
    if w.queue == [] then w
    else if fuse <= 9 then Worker(RunTo(w.db, Slots(w.db, w.queue[0]), fuse), w.queue)
    else Attempt(Worker(Step(w.db, w.queue[0]), w.queue[1..]), fuse - 10)
  }

  /** Any number of lives, each ending wherever it ends. */
  ghost function Attempts(w: Worker, fuses: seq<nat>): Worker
    decreases |fuses|
  {
    if fuses == [] then w else Attempts(Attempt(w, fuses[0]), fuses[1..])
  }

  lemma {:induction false} AttemptKeepsRun(w: Worker, fuse: nat)
    ensures var x := Attempt(w, fuse); Run(x.db, x.queue) == Run(w.db, w.queue)
    decreases |w.queue|
  {
    if w.queue != [] {
      if fuse <= 9 {
        ReplayCompletes(w.db, w.queue[0], fuse);
      } else {
        AttemptKeepsRun(Worker(Step(w.db, w.queue[0]), w.queue[1..]), fuse - 10);
      }
    }
  }

  /** Crash/replay refinement over whole runs: wherever and however often the process dies, what
      the remaining queue leads to is the database of one uninterrupted run; once the queue is
      empty, that is the database. */
  lemma {:induction false} CrashesAreInvisible(w: Worker, fuses: seq<nat>)
    ensures var x := Attempts(w, fuses);
      && Run(x.db, x.queue) == Run(w.db, w.queue)
      && (x.queue == [] ==> x.db == Run(w.db, w.queue))
    decreases |fuses|
  {
    if fuses != [] {
      AttemptKeepsRun(w, fuses[0]);
      CrashesAreInvisible(Attempt(w, fuses[0]), fuses[1..]);
    }
  }

  /** x is what remains of w after finishing some outputs and part of the next. */
  ghost predicate Midway(w: Worker, x: Worker, done: nat, part: nat)
  {
    && done <= |w.queue| && part <= 9 && x.queue == w.queue[done..]
    && var db := Run(w.db, w.queue[..done]);
       if x.queue == [] then x.db == db else x.db == RunTo(db, Slots(db, x.queue[0]), part)
  }

  lemma {:induction false} RunAppend(db: Db, queue: seq<Output>, o: Output)
    ensures Run(db, queue + [o]) == Step(Run(db, queue), o)
    decreases |queue|
  {
    if queue == [] {
      assert [o][1..] == [];
      assert (queue + [o])[0] == o && (queue + [o])[1..] == [];
    } else {
      assert (queue + [o])[1..] == queue[1..] + [o];
      RunAppend(Step(db, queue[0]), queue[1..], o);
    }
  }

  lemma {:induction false} AttemptMidway(w: Worker, x: Worker, done: nat, part: nat, fuse: nat)
      returns (done': nat, part': nat)
    requires Midway(w, x, done, part)
    ensures Midway(w, Attempt(x, fuse), done', part')
    decreases |x.queue|
  {
    done', part' := done, part;
    if x.queue != [] {
      var db := Run(w.db, w.queue[..done]);
      var o := x.queue[0];
      if fuse <= 9 {
        RerunIsPrefix(db, o, part, fuse);
        part' := if fuse < part then part else fuse;
      } else {
        ReplayCompletes(db, o, part);
        RunAppend(w.db, w.queue[..done], o);
        assert w.queue[..done] + [o] == w.queue[..done + 1];
        var y := Worker(Step(x.db, o), x.queue[1..]);
        if y.queue != [] { assert RunTo(y.db, Slots(y.db, y.queue[0]), 0) == y.db; }
        done', part' := AttemptMidway(w, y, done + 1, 0, fuse - 10);
      }
    }
  }

  /** Every state a crashing worker can be found in is an uninterrupted run of some of its outputs
      followed by a prefix of the writes of the next one. */
  lemma {:induction false} ReachableStates(w: Worker, x: Worker, done: nat, part: nat, fuses: seq<nat>)
      returns (done': nat, part': nat)
    requires Midway(w, x, done, part)
    ensures Midway(w, Attempts(x, fuses), done', part')
    decreases |fuses|
  {
    done', part' := done, part;
    if fuses != [] {
      done', part' := AttemptMidway(w, x, done, part, fuses[0]);
      done', part' := ReachableStates(w, Attempt(x, fuses[0]), done', part', fuses[1..]);
    }
  }
}
