/** Threshold voting on proposals: worker/payee/proposal_v2.go, worker/payee/proposal.go,
    worker/payee/sysversion.go, worker/payee/proposal_sys.go, store/proposal/proposal.go. */
module Voting {

  datatype PassedAt = NotPassed | Passed(time: int)

  /** What validation looks at: for most proposals only their own content, decided once and for all;
      for one that raises the system version, also the version the worker has loaded. */
  datatype Content = Fixed(ok: bool) | NewVersion(ver: int)

  datatype Proposal = Proposal(content: Content, votes: seq<nat>, passedAt: PassedAt, version: int)

  /** One invocation of a passed proposal's effect. */
  datatype Effect = Effect(proposal: nat, output: int)

  /** Members vote; staff only have their outputs forwarded to the members. */
  datatype System = System(members: set<nat>, staff: set<nat>, threshold: nat)

  /** The proposals, the effects so far, the stored system version, and the one in the worker's memory. */
  datatype Board = Board(proposals: map<nat, Proposal>, effects: seq<Effect>, stored: int, loaded: int)

  datatype Request = Make(content: Content) | Vote(proposal: nat)

  datatype Output = Output(id: int, trace: nat, sender: nat, time: int, request: Request)

  /** Where an attempt at an output ends: it dies before the proposal is updated, after that but before
      the effect, after the effect but before the checkpoint, or it goes through. */
  datatype End = BeforeUpdate | BeforeEffect | AfterEffect | Through

  /** One attempt; the first one of a pass loads the stored version. */
  datatype Attempt = Attempt(output: Output, first: bool, end: End)

  // ---- Validation ----------------------------------------------------------------------------------

  /** The newest system version the program supports. */
  const SUPPORTED := 5

  /** A refusal moves on to the next output; any other error has the same output tried again. */
  datatype Answer = Valid | Refused | Stuck

  function Validate(c: Content, loaded: int): Answer
  {
    match c
    case Fixed(ok) => if ok then Valid else Refused
    case NewVersion(ver) => if ver <= loaded then Refused else if ver > SUPPORTED then Stuck else Valid
  }

  // ---- One attempt ---------------------------------------------------------------------------------

  function WithVote(p: Proposal, o: Output, threshold: nat): Proposal
  {
    var votes := p.votes + [o.sender];
    Proposal(p.content, votes, if |votes| >= threshold then Passed(o.time) else p.passedAt, o.id)
  }

  predicate Counted(p: Proposal, sender: nat) { p.passedAt.Passed? || sender in p.votes }

  predicate Triggers(p: Proposal, o: Output) { p.passedAt.Passed? && p.version == o.id }

  /** The effect: it is recorded, and a new version is stored, but not loaded. */
  function Invoked(b: Board, t: nat, o: Output, c: Content): Board
  {
    b.(effects := b.effects + [Effect(t, o.id)], stored := if c.NewVersion? then c.ver else b.stored)
  }

  predicate Reaches(end: End) { end.AfterEffect? || end.Through? }

  /** The attempt at a vote by a member on a valid proposal. */
  function Voted(b: Board, s: System, o: Output, t: nat, end: End): Board
    requires t in b.proposals
  {
    var counted := Counted(b.proposals[t], o.sender);
    if !counted && end.BeforeUpdate? then b
    else
      var p := if counted then b.proposals[t] else WithVote(b.proposals[t], o, s.threshold);
      var updated := b.(proposals := b.proposals[t := p]);
      if Triggers(p, o) && Reaches(end) then Invoked(updated, t, o, p.content) else updated
  }

  function Begun(b: Board, first: bool): Board { if first then b.(loaded := b.stored) else b }

  predicate IsMember(s: System, sender: nat) { sender in s.members && sender !in s.staff }

  /** A vote that is handled: by a member, on a proposal that is found valid. */
  predicate Handled(b: Board, s: System, o: Output)
  {
    && o.request.Vote? && o.request.proposal in b.proposals && IsMember(s, o.sender)
    && Validate(b.proposals[o.request.proposal].content, b.loaded).Valid?
  }

  function Attempted(before: Board, s: System, a: Attempt): Board
  {
    var b, o := Begun(before, a.first), a.output;
    match o.request
    case Make(content) =>
      if Validate(content, b.loaded).Valid? && !a.end.BeforeUpdate? && o.trace !in b.proposals
      then b.(proposals := b.proposals[o.trace := Proposal(content, [], NotPassed, o.id)]) else b
    case Vote(t) => if Handled(b, s, o) then Voted(b, s, o, t, a.end) else b
  }

  /** The proposal store, the property store and the worker's memory. */
  class Payee {
    var proposals: map<nat, Proposal>
    var effects: seq<Effect>
    var stored: int
    var loaded: int
    const system: System

    constructor (system: System, version: int)
      ensures proposals == map[] && effects == [] && stored == loaded == version && this.system == system
    {
      proposals, effects, stored, loaded, this.system := map[], [], version, version, system;
    }

    function Stored(): Board
      reads this
    {
      Board(proposals, effects, stored, loaded)
    }

    /** At the start of a pass. */
    method LoadSysVersion()
      modifies this`loaded
      ensures Stored() == Begun(old(Stored()), true)
    {
      loaded := stored;
    }

    method ValidateProposal(c: Content) returns (answer: Answer)
      ensures answer == Validate(c, loaded)
    {
      match c
      case Fixed(ok) => answer := if ok then Valid else Refused;
      case NewVersion(ver) =>
        if ver <= loaded { return Refused; }
        if ver > SUPPORTED { return Stuck; }
        return Valid;
    }

    /** First-or-create by trace. */
    method HandleMakeProposal(a: Attempt)
      requires a.output.request.Make?
      modifies this
      ensures Stored() == Attempted(old(Stored()), system, a)
    {
      if a.first { LoadSysVersion(); }
      var o := a.output;
      var answer := ValidateProposal(o.request.content);
      if !answer.Valid? { return; }
      if a.end.BeforeUpdate? { return; }
      if o.trace !in proposals {
        proposals := proposals[o.trace := Proposal(o.request.content, [], NotPassed, o.id)];
      }
    }

    method HandleVoteProposal(a: Attempt)
      requires a.output.request.Vote?
      modifies this
      ensures Stored() == Attempted(old(Stored()), system, a)
    {
      if a.first { LoadSysVersion(); }
      var o, t := a.output, a.output.request.proposal;
      if t !in proposals { return; }
      var proposal := proposals[t];
      if o.sender in system.staff { return; }
      if o.sender in system.members {
        var answer := ValidateProposal(proposal.content);
        if !answer.Valid? { return; }
        var handled := proposal.passedAt.Passed? || o.sender in proposal.votes;
        if !handled {
          proposal := proposal.(votes := proposal.votes + [o.sender]);
          if |proposal.votes| >= system.threshold { proposal := proposal.(passedAt := Passed(o.time)); }
          if a.end.BeforeUpdate? { return; }
          proposal := proposal.(version := o.id);
          proposals := proposals[t := proposal];
        }
        assert proposals == old(proposals)[t := proposal];
        if (a.end.AfterEffect? || a.end.Through?) && proposal.passedAt.Passed? && proposal.version == o.id {
          HandlePassedProposal(t, proposal, o);
        }
      }
    }

    /** Invokes the effect; a new version is validated once more, with the same answer. */
    method HandlePassedProposal(t: nat, p: Proposal, o: Output)
      requires Validate(p.content, loaded).Valid?
      modifies this`effects, this`stored
      ensures Stored() == Invoked(old(Stored()), t, o, p.content)
    {
      effects := effects + [Effect(t, o.id)];
      if p.content.NewVersion? {
        var answer := ValidateProposal(p.content);
        if answer.Valid? { stored := p.content.ver; }
      }
    }
  }

  // ---- Every run -----------------------------------------------------------------------------------

  function Run(b: Board, s: System, run: seq<Attempt>): Board
  {
    if run == [] then b else Attempted(Run(b, s, run[..|run| - 1]), s, run[|run| - 1])
  }

  /** The board with no proposals, at a system version. */
  function Empty(version: int): Board { Board(map[], [], version, version) }

  /** Outputs are taken in the order of their ids. */
  predicate InOrder(run: seq<Attempt>)
  {
    forall i, j :: 0 <= i < j < |run| ==> run[i].output.id <= run[j].output.id
  }

  /** The id of the last output attempted. */
  function Last(run: seq<Attempt>): int
    requires run != []
  {
    run[|run| - 1].output.id
  }

  predicate NoDuplicates(votes: seq<nat>) { forall i, j :: 0 <= i < j < |votes| ==> votes[i] != votes[j] }

  /** Enough votes to pass; a threshold of zero still takes one. */
  predicate Meets(votes: seq<nat>, s: System) { votes != [] && |votes| >= s.threshold }

  /** A proposal as every run leaves it: the votes are distinct members, it has passed exactly if they
      meet the threshold, which they then do not exceed, and its version is a supported one. */
  predicate Sound(p: Proposal, s: System)
  {
    && NoDuplicates(p.votes) && (forall v :: v in p.votes ==> IsMember(s, v))
    && (p.passedAt.Passed? <==> Meets(p.votes, s))
    && (p.passedAt.Passed? ==> |p.votes| == if s.threshold == 0 then 1 else s.threshold)
    && (p.content.Fixed? ==> p.content.ok) && (p.content.NewVersion? ==> p.content.ver <= SUPPORTED)
  }

  predicate Inv(b: Board, s: System, last: int)
  {
    && (forall t :: t in b.proposals ==> Sound(b.proposals[t], s) && b.proposals[t].version <= last)
    && (forall e :: e in b.effects ==> Passes(b, e.proposal) && b.proposals[e.proposal].version == e.output)
  }

  predicate Passes(b: Board, t: nat) { t in b.proposals && b.proposals[t].passedAt.Passed? }

  lemma VoteKeepsSound(p: Proposal, s: System, o: Output)
    requires Sound(p, s) && !Counted(p, o.sender) && IsMember(s, o.sender)
    ensures Sound(WithVote(p, o, s.threshold), s)
  {
    var q := WithVote(p, o, s.threshold);
    forall v | v in q.votes
      ensures IsMember(s, v)
    {
      assert v in p.votes || v == o.sender;
    }
  }

  lemma LaterInv(b: Board, s: System, last: int, loaded: int, later: int)
    requires Inv(b, s, last) && last <= later
    ensures Inv(b.(loaded := loaded), s, later)
  {
  }

  /** One proposal is replaced by a sound one; it had not passed, or nothing changes. */
  lemma PutKeepsInv(b: Board, s: System, last: int, t: nat, p: Proposal)
    requires Inv(b, s, last) && Sound(p, s) && p.version <= last
    requires t in b.proposals && b.proposals[t].passedAt.Passed? ==> p == b.proposals[t]
    ensures Inv(b.(proposals := b.proposals[t := p]), s, last)
  {
    var c := b.(proposals := b.proposals[t := p]);
    forall e | e in c.effects
      ensures Passes(c, e.proposal) && c.proposals[e.proposal].version == e.output
    {
      assert Passes(b, e.proposal);
    }
  }

  lemma EffectKeepsInv(b: Board, s: System, last: int, t: nat, o: Output, c: Content)
    requires Inv(b, s, last) && t in b.proposals && Triggers(b.proposals[t], o)
    ensures Inv(Invoked(b, t, o, c), s, last)
  {
    var e := Invoked(b, t, o, c);
    forall x | x in e.effects
      ensures Passes(e, x.proposal) && e.proposals[x.proposal].version == x.output
    {
      if x in b.effects { assert Passes(b, x.proposal); }
    }
  }

  lemma VotedKeepsInv(b: Board, s: System, o: Output, t: nat, end: End)
    requires Inv(b, s, o.id) && t in b.proposals && IsMember(s, o.sender)
    ensures Inv(Voted(b, s, o, t, end), s, o.id)
  {
    var counted := Counted(b.proposals[t], o.sender);
    if !counted { VoteKeepsSound(b.proposals[t], s, o); }
    if counted || !end.BeforeUpdate? {
      var p := if counted then b.proposals[t] else WithVote(b.proposals[t], o, s.threshold);
      PutKeepsInv(b, s, o.id, t, p);
      if Triggers(p, o) { EffectKeepsInv(b.(proposals := b.proposals[t := p]), s, o.id, t, o, p.content); }
    }
  }

  lemma AttemptKeepsInv(b: Board, s: System, a: Attempt, last: int)
    requires Inv(b, s, last) && last <= a.output.id
    ensures Inv(Attempted(b, s, a), s, a.output.id)
  {
    var o, c := a.output, Begun(b, a.first);
    LaterInv(b, s, last, c.loaded, o.id);
    if o.request.Make? {
      if Validate(o.request.content, c.loaded).Valid? && o.trace !in c.proposals {
        PutKeepsInv(c, s, o.id, o.trace, Proposal(o.request.content, [], NotPassed, o.id));
      }
    } else if Handled(c, s, o) {
      VotedKeepsInv(c, s, o, o.request.proposal, a.end);
    }
  }

  /** Threshold voting: in every run with any number of crashes and retries, votes are distinct
      members, a proposal has passed exactly when the threshold is met, and its effect has only
      ever been invoked for one output, the one whose vote passed it. */
  lemma {:induction false} VotingIsSound(s: System, version: int, run: seq<Attempt>, start: int)
    requires InOrder(run) && (forall i :: 0 <= i < |run| ==> start <= run[i].output.id)
    ensures Inv(Run(Empty(version), s, run), s, if run == [] then start else Last(run))
    decreases |run|
  {
    if run != [] {
      var front := run[..|run| - 1];
      VotingIsSound(s, version, front, start);
      AttemptKeepsInv(Run(Empty(version), s, front), s, run[|run| - 1], if front == [] then start else Last(front));
    }
  }

  /** The effect of a proposal is never invoked for two outputs. */
  lemma OneOutputPerEffect(s: System, version: int, run: seq<Attempt>, d: Effect, e: Effect)
    requires InOrder(run)
    requires var b := Run(Empty(version), s, run); d in b.effects && e in b.effects && d.proposal == e.proposal
    ensures d == e
  {
    if run != [] {
      forall i | 0 <= i < |run|
        ensures run[0].output.id <= run[i].output.id
      {
      }
      VotingIsSound(s, version, run, run[0].output.id);
    }
  }

  /** Once passed, a proposal never changes again. */
  lemma {:induction false} VotesFreeze(s: System, b: Board, run: seq<Attempt>, t: nat)
    requires Passes(b, t)
    ensures var e := Run(b, s, run); t in e.proposals && e.proposals[t] == b.proposals[t]
    decreases |run|
  {
    if run != [] { VotesFreeze(s, b, run[..|run| - 1], t); }
  }

  // ---- What one attempt does -------------------------------------------------------------------------

  /** A content acceptable to a worker that has loaded a version. */
  predicate Acceptable(c: Content, loaded: int)
  {
    match c
    case Fixed(ok) => ok
    case NewVersion(ver) => loaded < ver <= 5
  }

  /** A vote counts if it comes from a member, staff aside, who has not voted yet, on an acceptable
      proposal that has not passed; it is added, and passes the proposal at the threshold. Any other
      vote leaves all proposals as they are. */
  lemma VoteOutcome(b: Board, s: System, a: Attempt, t: nat)
    requires a.output.request == Vote(t) && !a.end.BeforeUpdate?
    ensures var o, e := a.output, Attempted(b, s, a);
      e.proposals ==
        if && t in b.proposals && o.sender in s.members && o.sender !in s.staff
           && Acceptable(b.proposals[t].content, if a.first then b.stored else b.loaded)
           && !b.proposals[t].passedAt.Passed? && o.sender !in b.proposals[t].votes
        then b.proposals[t := Proposal(b.proposals[t].content, b.proposals[t].votes + [o.sender],
                                       if |b.proposals[t].votes| + 1 >= s.threshold then Passed(o.time) else NotPassed,
                                       o.id)]
        else b.proposals
  {
    if t in b.proposals { assert b.proposals[t := b.proposals[t]] == b.proposals; }
  }

  /** An acceptable proposal is created under the trace of its output, open and without votes, unless
      there is one; it never replaces another. */
  lemma MakeOutcome(b: Board, s: System, a: Attempt, c: Content)
    requires a.output.request == Make(c) && !a.end.BeforeUpdate?
    ensures var o, e := a.output, Attempted(b, s, a);
      && e.effects == b.effects && e.stored == b.stored
      && e.proposals ==
           if Acceptable(c, if a.first then b.stored else b.loaded) && o.trace !in b.proposals
           then b.proposals[o.trace := Proposal(c, [], NotPassed, o.id)] else b.proposals
  {
  }

  // ---- When a proposal passes ----------------------------------------------------------------------

  /** The board before attempt i. */
  function Before(s: System, version: int, run: seq<Attempt>, i: nat): Board
    requires i <= |run|
  {
    Run(Empty(version), s, run[..i])
  }

  /** Attempt i passes the proposal. */
  predicate PassesAt(s: System, version: int, run: seq<Attempt>, i: nat, t: nat)
  {
    i < |run| && !Passes(Before(s, version, run, i), t) && Passes(Before(s, version, run, i + 1), t)
  }

  lemma BeforeNext(s: System, version: int, run: seq<Attempt>, i: nat)
    requires i < |run|
    ensures Before(s, version, run, i + 1) == Attempted(Before(s, version, run, i), s, run[i])
  {
    assert run[..i + 1][..i] == run[..i];
  }

  lemma BeforeFront(s: System, version: int, run: seq<Attempt>, i: nat)
    requires i < |run|
    ensures Before(s, version, run[..|run| - 1], i) == Before(s, version, run, i)
  {
    assert run[..|run| - 1][..i] == run[..i];
  }

  lemma {:induction false} PassedStays(s: System, version: int, run: seq<Attempt>, i: nat, k: nat, t: nat)
    requires i <= k <= |run| && Passes(Before(s, version, run, i), t)
    ensures Passes(Before(s, version, run, k), t)
    ensures Before(s, version, run, k).proposals[t] == Before(s, version, run, i).proposals[t]
    decreases k
  {
    if i < k {
      PassedStays(s, version, run, i, k - 1, t);
      BeforeNext(s, version, run, k - 1);
    }
  }

  lemma {:induction false} SomeAttemptPasses(s: System, version: int, run: seq<Attempt>, k: nat, t: nat)
      returns (i: nat)
    requires k <= |run| && Passes(Before(s, version, run, k), t)
    ensures i < k && PassesAt(s, version, run, i, t)
    decreases k
  {
    if Passes(Before(s, version, run, k - 1), t) {
      i := SomeAttemptPasses(s, version, run, k - 1, t);
    } else {
      i := k - 1;
    }
  }

  /** A proposal passes exactly when the threshold is first reached: there is one attempt before which
      the votes never met the threshold, and from which on they do and never change. */
  lemma PassesWhenThresholdIsFirstMet(s: System, version: int, run: seq<Attempt>, t: nat) returns (i: nat)
    requires InOrder(run) && Passes(Run(Empty(version), s, run), t)
    ensures i < |run|
    ensures forall k: nat :: k <= i && t in Before(s, version, run, k).proposals ==>
      var p := Before(s, version, run, k).proposals[t]; !p.passedAt.Passed? && !Meets(p.votes, s)
    ensures forall k: nat :: i < k <= |run| ==>
      && Passes(Before(s, version, run, k), t) && Meets(Before(s, version, run, k).proposals[t].votes, s)
      && Before(s, version, run, k).proposals[t] == Run(Empty(version), s, run).proposals[t]
  {
    assert run[..|run|] == run;
    i := SomeAttemptPasses(s, version, run, |run|, t);
    forall k: nat | k <= |run| && t in Before(s, version, run, k).proposals
      ensures var p := Before(s, version, run, k).proposals[t]; p.passedAt.Passed? <==> Meets(p.votes, s)
    {
      PrefixSound(s, version, run, k, t);
    }
    forall k: nat | k <= i
      ensures !Passes(Before(s, version, run, k), t)
    {
      if Passes(Before(s, version, run, k), t) { PassedStays(s, version, run, k, i, t); }
    }
    forall k: nat | i < k <= |run|
      ensures Passes(Before(s, version, run, k), t)
      ensures Before(s, version, run, k).proposals[t] == Run(Empty(version), s, run).proposals[t]
    {
      PassedStays(s, version, run, i + 1, k, t);
      PassedStays(s, version, run, i + 1, |run|, t);
    }
  }

  lemma PrefixSound(s: System, version: int, run: seq<Attempt>, k: nat, t: nat)
    requires InOrder(run) && k <= |run| && t in Before(s, version, run, k).proposals
    ensures Sound(Before(s, version, run, k).proposals[t], s)
  {
    if k > 0 {
      forall i | 0 <= i < |run[..k]|
        ensures run[0].output.id <= run[..k][i].output.id
      {
      }
      VotingIsSound(s, version, run[..k], run[0].output.id);
    }
  }
}
