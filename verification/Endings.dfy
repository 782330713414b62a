/** How every run ends: the final state of the orchestrator, after any requests from outside. */
module Endings {
  import opened Prelude
  import opened TaskGraph
  import opened AgentModels
  import opened Recovery
  import opened Orchestrator

  /** Where a run that is left alone from `start` on, and has ended in `end`, must have arrived: a failure shows in
      any case; a run stopped at a wave boundary is cancelled; one that got through all waves is completed, unless
      it was marked cancelled when it was left alone. */
  function FinalStatus(c: Setup, start: State, end: State): AgentState {
    if end.ledger.failed != [] then Failed
    else if start.phase == Stopping then if start.ledger.status == Cancelled then Cancelled else Failed
    else if end.wave < |c.waves| then Cancelled
    else if start.ledger.status == Cancelled then Cancelled
    else Completed
  }

  /** A run left alone since it was in a wave of `start`. */
  ghost predicate LeftAlone(c: Setup, start: State, s: State) {
    && s.cancelled == start.cancelled && s.wave <= |c.waves|
    && (s.phase == InWave ==> s.ledger.status == start.ledger.status && start.wave <= s.wave)
    && (s.phase == Stopping ==> s.cancelled && s.wave < |c.waves| && s.ledger.status == Cancelled)
    && (s.phase == Finished ==> s.ledger.status == FinalStatus(c, start, s))
    && (s.phase == Finished && s.ledger.failed == [] && s.wave < |c.waves| ==> s.cancelled)
    && (s.cancelled ==> s.wave <= start.wave + 1)
  }

  /** All waves are through and nothing failed: the plan verifies. */
  lemma ThroughMeansPassed(c: Setup, l: Ledger, n: nat)
    requires Books(c, l, n) && l.failed == [] && n >= |c.waves|
    requires c.level.Keys == c.g.Keys && forall t :: t in c.level ==> c.level[t] < |c.waves|
    ensures AllPassed(c, l.verdicts)
  {
  }

  /** A wave is missing: the plan does not verify. */
  lemma MissingMeansUnproven(c: Setup, l: Ledger, n: nat)
    requires ValidSetup(c) && Books(c, l, n) && n < |c.waves|
    ensures !AllPassed(c, l.verdicts)
  {
    var t := c.waves[n][0];
    assert ListsLevel(c.waves[n], c.level, n) && t in c.waves[n];
    assert t !in l.verdicts && t in c.g;
  }

  lemma LeaveAlone(c: Setup, start: State, s: State)
    requires ValidSetup(c) && start.phase == InWave && start.wave < s.wave <= |c.waves|
    requires Books(c, s.ledger, s.wave) && s.cancelled == start.cancelled
    requires s.ledger.status == (if s.ledger.failed != [] then Failed else start.ledger.status)
    requires start.ledger.status != Failed && (s.cancelled ==> s.wave <= start.wave + 1)
    ensures LeftAlone(c, start, Leave(c, s))
  {
    if s.ledger.failed == [] && s.wave >= |c.waves| {
      ThroughMeansPassed(c, s.ledger, s.wave);
    }
  }

  lemma GatherAlone(c: Setup, start: State, s: State)
    requires ValidSetup(c) && Inv(c, s) && Enabled(c, s, Gather)
    requires start.phase == InWave && start.ledger.status != Failed && LeftAlone(c, start, s)
    requires s.cancelled ==> s.wave == start.wave
    ensures LeftAlone(c, start, Apply(c, s, Gather))
  {
    assert ListsLevel(c.waves[s.wave], c.level, s.wave);
    BooksGather(c, s);
    LeaveAlone(c, start, Gathered(s, RecordAll(s.ledger, c.waves[s.wave], Outcomes(s.co))));
  }

  lemma StopAlone(c: Setup, start: State, s: State)
    requires start.phase == InWave && LeftAlone(c, start, s) && s.phase == Stopping && s.ledger.failed == []
    ensures LeftAlone(c, start, Finish(c, s))
  {
  }

  /** Between two gatherings nothing that matters here moves. */
  lemma CoroutineAlone(c: Setup, start: State, s: State, l: Label)
    requires LeftAlone(c, start, s) && Enabled(c, s, l) && !External(l) && !l.Gather? && !l.Stop?
    ensures var s' := Apply(c, s, l);
            && s'.phase == s.phase && s'.wave == s.wave && s'.ledger == s.ledger && s'.cancelled == s.cancelled
            && LeftAlone(c, start, s')
  {
  }

  /** Cancelled runs stay in the wave they are in. */
  ghost predicate Bound(start: State, s: State) {
    s.cancelled && s.phase == InWave ==> s.wave == start.wave
  }

  lemma BoundStep(c: Setup, start: State, s: State, l: Label)
    requires Bound(start, s) && Enabled(c, s, l) && !External(l)
    ensures Bound(start, Apply(c, s, l))
  {
  }

  lemma StepAlone(c: Setup, start: State, s: State, l: Label)
    requires ValidSetup(c) && Inv(c, s) && Enabled(c, s, l) && !External(l)
    requires start.phase == InWave && start.ledger.status != Failed && LeftAlone(c, start, s) && Bound(start, s)
    ensures LeftAlone(c, start, Apply(c, s, l))
  {
    match l
    case Gather => GatherAlone(c, start, s);
    case Stop => StopAlone(c, start, s);
    case _ => CoroutineAlone(c, start, s, l);
  }

  lemma {:induction false} RunAlone(c: Setup, start: State, s: State, ls: seq<Label>)
    requires ValidSetup(c) && Inv(c, s) && Run(c, s, ls).Some? && forall l :: l in ls ==> !External(l)
    requires start.phase == InWave && start.ledger.status != Failed && LeftAlone(c, start, s) && Bound(start, s)
    ensures LeftAlone(c, start, Run(c, s, ls).value)
    decreases |ls|
  {
    if ls != [] {
      assert ls[0] in ls && forall l :: l in ls[1..] ==> l in ls;
      StepAlone(c, start, s, ls[0]);
      BoundStep(c, start, s, ls[0]);
      StepKeeps(c, s, ls[0]);
      RunAlone(c, start, Apply(c, s, ls[0]), ls[1..]);
    }
  }

  /** A run about to stop has only that left to do. */
  lemma StoppingEnds(c: Setup, s: State, ls: seq<Label>)
    requires ValidSetup(c) && Inv(c, s) && s.phase == Stopping
    requires Run(c, s, ls).Some? && Run(c, s, ls).value.phase == Finished && forall l :: l in ls ==> !External(l)
    ensures var end := Run(c, s, ls).value;
            end.ledger.failed == [] && end.ledger.status == FinalStatus(c, s, end) && end.wave == s.wave < |c.waves|
  {
    assert ls != [] && ls[0] in ls;
    assert ls[0] == Stop;
    MissingMeansUnproven(c, s.ledger, s.wave);
    assert forall i :: 0 <= i < |ls| ==> ls[i] in ls;
    FinishedStays(c, Finish(c, s), ls[1..]);
  }

  lemma FinishedStays(c: Setup, s: State, ls: seq<Label>)
    requires s.phase == Finished && Run(c, s, ls).Some? && forall i :: 0 <= i < |ls| ==> !External(ls[i])
    ensures ls == []
  {
  }

  /** Every run: whatever was requested until `s`, if nothing more is and the run ends in `end`, this is its final
      state, and a run cancelled by then has gathered no wave but the one it was in. */
  lemma RunsEnd(c: Setup, cancelled: bool, before: seq<Label>, s: State, after: seq<Label>, end: State)
    requires ValidSetup(c) && Run(c, Init(c, cancelled), before) == Some(s) && s.phase != Finished
    requires Run(c, s, after) == Some(end) && end.phase == Finished && forall l :: l in after ==> !External(l)
    ensures end.ledger.status == FinalStatus(c, s, end)
    ensures s.cancelled ==> end.wave <= s.wave + 1
    ensures end.ledger.failed == [] && end.wave < |c.waves| ==> s.cancelled || s.phase == Stopping
  {
    InitInv(c, cancelled);
    RunKeeps(c, Init(c, cancelled), before);
    EndFrom(c, s, after, end);
  }

  lemma EndFrom(c: Setup, s: State, after: seq<Label>, end: State)
    requires ValidSetup(c) && Inv(c, s) && s.phase != Finished
    requires Run(c, s, after) == Some(end) && end.phase == Finished && forall l :: l in after ==> !External(l)
    ensures end.ledger.status == FinalStatus(c, s, end)
    ensures s.cancelled ==> end.wave <= s.wave + 1
    ensures end.ledger.failed == [] && end.wave < |c.waves| ==> s.cancelled || s.phase == Stopping
  {
    if s.phase == Stopping {
      StoppingEnds(c, s, after);
    } else {
      RunAlone(c, s, s, after);
    }
  }

  /** A cancellation that nothing follows ends the run CANCELLED, unless a task of the wave under way fails. */
  lemma CancelledRunsEndCancelled(c: Setup, cancelled: bool, before: seq<Label>, s: State,
                                  after: seq<Label>, end: State)
    requires ValidSetup(c) && Run(c, Init(c, cancelled), before) == Some(s) && s.phase != Finished
    requires Run(c, Apply(c, s, Cancel), after) == Some(end) && end.phase == Finished
    requires forall l :: l in after ==> !External(l)
    ensures end.ledger.status == if end.ledger.failed != [] then Failed else Cancelled
    ensures end.wave <= s.wave + 1
  {
    InitInv(c, cancelled);
    RunKeeps(c, Init(c, cancelled), before);
    StepKeeps(c, s, Cancel);
    EndFrom(c, Apply(c, s, Cancel), after, end);
  }

  /** A pause after it does not lift the cancellation, but overwrites the mark: cancelled in its last wave, the run
      still ends COMPLETED, and cancelled at a boundary it ends FAILED without any failure. */
  lemma PausedCancellationEnds(c: Setup, cancelled: bool, before: seq<Label>, s: State, after: seq<Label>, end: State)
    requires ValidSetup(c) && Run(c, Init(c, cancelled), before) == Some(s) && s.phase != Finished
    requires Run(c, Apply(c, Apply(c, s, Cancel), Pause), after) == Some(end) && end.phase == Finished
    requires forall l :: l in after ==> !External(l)
    ensures end.ledger.status ==
              if end.ledger.failed != [] || s.phase == Stopping then Failed
              else if end.wave < |c.waves| then Cancelled
              else Completed
    ensures end.wave <= s.wave + 1
  {
    InitInv(c, cancelled);
    RunKeeps(c, Init(c, cancelled), before);
    StepKeeps(c, s, Cancel);
    StepKeeps(c, Apply(c, s, Cancel), Pause);
    EndFrom(c, Apply(c, Apply(c, s, Cancel), Pause), after, end);
  }

  /** A resume lifts it: from within a wave the run ends as if it had never been cancelled. */
  lemma ResumedCancellationEnds(c: Setup, cancelled: bool, before: seq<Label>, s: State, after: seq<Label>, end: State)
    requires ValidSetup(c) && Run(c, Init(c, cancelled), before) == Some(s) && s.phase != Finished
    requires Run(c, Apply(c, Apply(c, s, Cancel), Resume), after) == Some(end) && end.phase == Finished
    requires forall l :: l in after ==> !External(l)
    ensures end.ledger.status == if end.ledger.failed != [] || s.phase == Stopping then Failed else Completed
    ensures s.phase == InWave && end.ledger.failed == [] ==> end.wave == |c.waves|
  {
    InitInv(c, cancelled);
    RunKeeps(c, Init(c, cancelled), before);
    StepKeeps(c, s, Cancel);
    StepKeeps(c, Apply(c, s, Cancel), Resume);
    EndFrom(c, Apply(c, Apply(c, s, Cancel), Resume), after, end);
    RunKeeps(c, Apply(c, Apply(c, s, Cancel), Resume), after);
  }
}
