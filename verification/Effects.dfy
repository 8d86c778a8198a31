/** Whether the effect of a passed proposal is invoked: always, but for a proposal to raise the system
    version whose passing output dies before its effect, in a pass that has already raised it. */
module Effects {
  import opened Voting

  /** How the worker goes on: in the order of ids; an output that did not go through is tried again;
      and trying an output again takes a new pass, which loads the stored version. */
  predicate Retried(run: seq<Attempt>)
  {
    forall i :: 0 <= i < |run| - 1 ==> Follows(run[i], run[i + 1])
  }

  predicate Follows(a: Attempt, next: Attempt)
  {
    && a.output.id <= next.output.id && (a.output.id == next.output.id ==> next.output == a.output && next.first)
    && (!a.end.Through? ==> next.output == a.output)
  }

  lemma {:induction false} RetriedInOrder(run: seq<Attempt>)
    requires Retried(run)
    ensures InOrder(run)
    decreases |run|
  {
    if |run| > 1 {
      var front, n := run[..|run| - 1], |run| - 1;
      RetriedInOrder(front);
      assert Follows(run[n - 1], run[n]);
      forall i | 0 <= i < n
        ensures run[i].output.id <= run[n].output.id
      {
        assert front[i].output.id <= front[n - 1].output.id;
      }
    }
  }

  /** The stored version is already as new as the proposal's. */
  predicate TooOld(c: Content, stored: int) { c.NewVersion? && c.ver <= stored }

  /** Attempt i passes the proposal and dies before its effect, while the stored version, which the next
      pass will load, is already as new. */
  predicate DoomedAt(s: System, version: int, run: seq<Attempt>, i: nat, t: nat)
  {
    && PassesAt(s, version, run, i, t) && run[i].end.BeforeEffect?
    && var b := Before(s, version, run, i); t in b.proposals && TooOld(b.proposals[t].content, b.stored)
  }

  predicate Doomed(s: System, version: int, run: seq<Attempt>, t: nat)
  {
    exists i: nat :: i < |run| && DoomedAt(s, version, run, i, t)
  }

  lemma DoomedFront(s: System, version: int, run: seq<Attempt>, t: nat)
    requires run != []
    ensures Doomed(s, version, run, t)
       <==> Doomed(s, version, run[..|run| - 1], t) || DoomedAt(s, version, run, |run| - 1, t)
  {
    var front := run[..|run| - 1];
    forall i: nat | i < |front|
      ensures DoomedAt(s, version, front, i, t) <==> DoomedAt(s, version, run, i, t)
    {
      BeforeFront(s, version, run, i);
      assert front[..i + 1] == run[..i + 1];
    }
    if Doomed(s, version, run, t) {
      var i: nat :| i < |run| && DoomedAt(s, version, run, i, t);
      assert i < |front| ==> DoomedAt(s, version, front, i, t);
    }
    if Doomed(s, version, front, t) {
      var i: nat :| i < |front| && DoomedAt(s, version, front, i, t);
      assert DoomedAt(s, version, run, i, t);
    }
  }

  // ---- One attempt ---------------------------------------------------------------------------------

  /** The attempt handles a vote on the proposal at the output that passed it, far enough. */
  predicate Fires(b: Board, s: System, a: Attempt, t: nat, p: Proposal)
  {
    a.output.request == Vote(t) && a.output.id == p.version && Handled(Begun(b, a.first), s, a.output) && Reaches(a.end)
  }

  /** An attempt after the proposal has passed. */
  lemma StepAfterPassing(b: Board, s: System, a: Attempt, t: nat)
    requires Passes(b, t)
    ensures var e, p := Attempted(b, s, a), b.proposals[t];
      && t in e.proposals && e.proposals[t] == p
      && (Effect(t, p.version) in e.effects <==> Effect(t, p.version) in b.effects || Fires(b, s, a, t, p))
      && (a.output.request == Vote(t) && !Fires(b, s, a, t, p) && a.output.id == p.version ==> e.stored == b.stored)
  {
  }

  /** The attempt that passes the proposal. */
  lemma StepPassing(b: Board, s: System, a: Attempt, t: nat)
    requires !Passes(b, t) && Passes(Attempted(b, s, a), t)
    ensures var e := Attempted(b, s, a);
      && t in b.proposals && a.output.request == Vote(t) && Handled(Begun(b, a.first), s, a.output)
      && e.proposals[t].version == a.output.id && e.proposals[t].content == b.proposals[t].content
      && !a.end.BeforeUpdate?
      && (a.end.BeforeEffect? ==> e.effects == b.effects && e.stored == b.stored)
      && (!a.end.BeforeEffect? ==> Effect(t, a.output.id) in e.effects)
  {
  }

  // ---- Every run -----------------------------------------------------------------------------------

  /** The last attempt is at the output that passed the proposal and did not go through, and the next
      one will find it valid. */
  predicate Unfinished(b: Board, s: System, a: Attempt, t: nat, p: Proposal)
  {
    && !a.end.Through? && a.output.request == Vote(t) && a.output.id == p.version && IsMember(s, a.output.sender)
    && !TooOld(p.content, b.stored)
  }

  /** What becomes of the effect. */
  ghost predicate Settled(s: System, version: int, run: seq<Attempt>, t: nat)
    requires run != [] && Passes(Run(Empty(version), s, run), t)
  {
    var b, a := Run(Empty(version), s, run), run[|run| - 1];
    var p := b.proposals[t];
    if Doomed(s, version, run, t) then
      && Effect(t, p.version) !in b.effects
      && (a.output.id == p.version ==> a.output.request == Vote(t) && TooOld(p.content, b.stored))
    else Effect(t, p.version) in b.effects || Unfinished(b, s, a, t, p)
  }

  lemma RunSound(s: System, version: int, run: seq<Attempt>)
    requires InOrder(run) && run != []
    ensures Inv(Run(Empty(version), s, run), s, Last(run))
  {
    forall i | 0 <= i < |run|
      ensures run[0].output.id <= run[i].output.id
    {
    }
    VotingIsSound(s, version, run, run[0].output.id);
  }

  /** The proposal had passed before the last attempt. */
  lemma SettledLater(s: System, version: int, run: seq<Attempt>, t: nat)
    requires Retried(run) && |run| >= 2
    requires var front := run[..|run| - 1];
      Passes(Run(Empty(version), s, front), t) && Settled(s, version, front, t)
    requires Passes(Run(Empty(version), s, run), t)
    ensures Settled(s, version, run, t)
  {
    var front, a, last := run[..|run| - 1], run[|run| - 1], run[|run| - 2];
    var b := Run(Empty(version), s, front);
    assert Follows(last, a) && front[|front| - 1] == last;
    assert Retried(front);
    RetriedInOrder(front);
    RunSound(s, version, front);
    StepAfterPassing(b, s, a, t);
    DoomedFront(s, version, run, t);
    assert run[..|run|] == run;
    assert !DoomedAt(s, version, run, |run| - 1, t);
  }

  /** The last attempt passes the proposal. */
  lemma SettledNow(s: System, version: int, run: seq<Attempt>, t: nat)
    requires Retried(run) && run != []
    requires !Passes(Run(Empty(version), s, run[..|run| - 1]), t) && Passes(Run(Empty(version), s, run), t)
    ensures Settled(s, version, run, t)
  {
    var front, a := run[..|run| - 1], run[|run| - 1];
    var b := Run(Empty(version), s, front);
    assert Retried(front);
    RetriedInOrder(front);
    if front != [] { RunSound(s, version, front); }
    StepPassing(b, s, a, t);
    DoomedFront(s, version, run, t);
    NotDoomedYet(s, version, front, t);
    assert run[..|run|] == run;
    assert PassesAt(s, version, run, |run| - 1, t);
    assert forall e :: e in b.effects ==> e.proposal != t;
  }

  lemma NotDoomedYet(s: System, version: int, run: seq<Attempt>, t: nat)
    requires !Passes(Run(Empty(version), s, run), t)
    ensures !Doomed(s, version, run, t)
  {
    assert run[..|run|] == run;
    forall i: nat | i < |run|
      ensures !PassesAt(s, version, run, i, t)
    {
      if Passes(Before(s, version, run, i + 1), t) { PassedStays(s, version, run, i + 1, |run|, t); }
    }
  }

  /** After every run, a doomed proposal has no effect, and any other passed one has had its effect
      invoked for the output that passed it, unless that output is still to be tried again and will then
      be found valid. */
  lemma {:induction false} EffectsAreSettled(s: System, version: int, run: seq<Attempt>, t: nat)
    requires Retried(run) && Passes(Run(Empty(version), s, run), t)
    ensures run != [] && Settled(s, version, run, t)
    decreases |run|
  {
    assert run != [];
    var front := run[..|run| - 1];
    if Passes(Run(Empty(version), s, front), t) {
      assert Retried(front);
      EffectsAreSettled(s, version, front, t);
      SettledLater(s, version, run, t);
    } else {
      SettledNow(s, version, run, t);
    }
  }

  /** A doomed proposal raises the system version, and the attempt that passed it was in a pass that had
      stored a version as new since it loaded one. */
  lemma DoomedOnlyAfterAnUpgrade(s: System, version: int, run: seq<Attempt>, i: nat, t: nat)
    requires DoomedAt(s, version, run, i, t)
    ensures var b, c := Before(s, version, run, i), Before(s, version, run, i).proposals[t].content;
      !run[i].first && c.NewVersion? && b.loaded < c.ver <= b.stored
  {
    BeforeNext(s, version, run, i);
    StepPassing(Before(s, version, run, i), s, run[i], t);
  }

  /** Once the last attempt went through, an effect has been invoked exactly if it is not doomed; that of
      a proposal of any kind but a new version always has been. */
  lemma EffectsAreLostExactlyIfDoomed(s: System, version: int, run: seq<Attempt>, t: nat)
    requires Retried(run) && Passes(Run(Empty(version), s, run), t)
    requires run != [] && run[|run| - 1].end.Through?
    ensures var b := Run(Empty(version), s, run);
      && (Effect(t, b.proposals[t].version) in b.effects <==> !Doomed(s, version, run, t))
      && (b.proposals[t].content.Fixed? ==> Effect(t, b.proposals[t].version) in b.effects)
  {
    EffectsAreSettled(s, version, run, t);
    assert run[..|run|] == run;
    if i: nat :| i < |run| && DoomedAt(s, version, run, i, t) {
      DoomedOnlyAfterAnUpgrade(s, version, run, i, t);
      BeforeNext(s, version, run, i);
      StepPassing(Before(s, version, run, i), s, run[i], t);
      PassedStays(s, version, run, i + 1, |run|, t);
    }
  }

  // ---- Two proposals to raise the version ----------------------------------------------------------

  /** A member proposes version 5 and version 4, and votes on both. */
  const NEWER := Output(1, 10, 0, 0, Make(NewVersion(5)))
  const NEW := Output(2, 11, 0, 0, Make(NewVersion(4)))
  const FOR_NEWER := Output(3, 12, 0, 0, Vote(10))
  const FOR_NEW := Output(4, 13, 0, 0, Vote(11))
  const ALONE := System({0}, {}, 1)

  /** One pass over the first three outputs, from version 3. */
  function Opening(): seq<Attempt>
  {
    [Attempt(NEWER, true, Through), Attempt(NEW, false, Through), Attempt(FOR_NEWER, false, Through)]
  }

  /** Version 5 is stored, version 3 is still loaded, and the second proposal is open. */
  lemma AfterTheOpening() returns (b: Board)
    ensures b == Run(Empty(3), ALONE, Opening())
    ensures b.stored == 5 && b.loaded == 3 && b.effects == [Effect(10, 3)]
    ensures 11 in b.proposals && b.proposals[11] == Proposal(NewVersion(4), [], NotPassed, 2)
  {
    var run := Opening();
    assert run[..1] == [] + [run[0]] && run[..2] == run[..1] + [run[1]] && run == run[..2] + [run[2]];
    var b1 := Run(Empty(3), ALONE, run[..1]);
    assert Run(Empty(3), ALONE, []) == Empty(3);
    assert b1 == Attempted(Empty(3), ALONE, run[0]);
    assert b1.proposals == map[10 := Proposal(NewVersion(5), [], NotPassed, 1)];
    var b2 := Run(Empty(3), ALONE, run[..2]);
    assert b2 == Attempted(b1, ALONE, run[1]);
    assert b2.proposals[10] == Proposal(NewVersion(5), [], NotPassed, 1);
    b := Run(Empty(3), ALONE, run);
    assert b == Attempted(b2, ALONE, run[2]);
    assert WithVote(b2.proposals[10], FOR_NEWER, 1) == Proposal(NewVersion(5), [0], Passed(0), 3);
  }

  /** The second vote goes through. */
  lemma TheSecondVote(b: Board) returns (c: Board)
    requires b.stored == 5 && b.loaded == 3 && b.effects == [Effect(10, 3)]
    requires 11 in b.proposals && b.proposals[11] == Proposal(NewVersion(4), [], NotPassed, 2)
    ensures c == Attempted(b, ALONE, Attempt(FOR_NEW, false, Through))
    ensures Passes(c, 11) && c.effects == [Effect(10, 3), Effect(11, 4)] && c.stored == 4
  {
    assert WithVote(b.proposals[11], FOR_NEW, 1) == Proposal(NewVersion(4), [0], Passed(0), 4);
    c := Attempted(b, ALONE, Attempt(FOR_NEW, false, Through));
  }

  /** The worker dies before its effect, and tries again in the next pass. */
  lemma TheSecondVoteRetried(b: Board) returns (c: Board, d: Board)
    requires b.stored == 5 && b.loaded == 3 && b.effects == [Effect(10, 3)]
    requires 11 in b.proposals && b.proposals[11] == Proposal(NewVersion(4), [], NotPassed, 2)
    ensures c == Attempted(b, ALONE, Attempt(FOR_NEW, false, BeforeEffect))
    ensures d == Attempted(c, ALONE, Attempt(FOR_NEW, true, Through))
    ensures Passes(d, 11) && d.effects == [Effect(10, 3)] && d.stored == 5
  {
    assert WithVote(b.proposals[11], FOR_NEW, 1) == Proposal(NewVersion(4), [0], Passed(0), 4);
    c := Attempted(b, ALONE, Attempt(FOR_NEW, false, BeforeEffect));
    d := Attempted(c, ALONE, Attempt(FOR_NEW, true, Through));
  }

  lemma RunOne(s: System, version: int, run: seq<Attempt>, a: Attempt)
    ensures Run(Empty(version), s, run + [a]) == Attempted(Run(Empty(version), s, run), s, a)
  {
    assert (run + [a])[..|run|] == run;
  }

  /** If the second vote goes through, both effects are invoked and version 4 replaces version 5. If the
      worker dies between that vote and its effect, the proposal has passed, the next pass refuses it,
      and version 5 stays. */
  lemma ACrashDecidesTheVersion()
    ensures var through := Opening() + [Attempt(FOR_NEW, false, Through)];
      var b := Run(Empty(3), ALONE, through);
      Retried(through) && Passes(b, 11) && b.effects == [Effect(10, 3), Effect(11, 4)] && b.stored == 4
    ensures var crashed := Opening() + [Attempt(FOR_NEW, false, BeforeEffect)] + [Attempt(FOR_NEW, true, Through)];
      var b := Run(Empty(3), ALONE, crashed);
      Retried(crashed) && Passes(b, 11) && b.effects == [Effect(10, 3)] && b.stored == 5
  {
    var a := AfterTheOpening();
    var dies, again := Attempt(FOR_NEW, false, BeforeEffect), Attempt(FOR_NEW, true, Through);
    RunOne(ALONE, 3, Opening(), Attempt(FOR_NEW, false, Through));
    RunOne(ALONE, 3, Opening(), dies);
    RunOne(ALONE, 3, Opening() + [dies], again);
    var b := TheSecondVote(a);
    var c, d := TheSecondVoteRetried(a);
  }
}
