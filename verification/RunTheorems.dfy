/** What holds of every run of the orchestrator, under every interleaving. */
module RunTheorems {
  import opened Prelude
  import opened TaskGraph
  import opened AgentModels
  import opened Recovery
  import opened Verifier
  import opened Orchestrator
  import opened Provenance
  import opened Budgets

  // ---------- order of execution ----------

  /** The executor is called on a task only when all it transitively depends on is recorded as PASSED. */
  lemma ExecutesAfterDependencies(c: Setup, cancelled: bool, ls: seq<Label>, s: State, l: Label, d: string)
    requires ValidSetup(c) && Run(c, Init(c, cancelled), ls) == Some(s)
    requires Enabled(c, s, l) && Calls(s, l) && Reaches(c.g, l.t, d)
    ensures d in s.ledger.verdicts && s.ledger.verdicts[d] == VerdictPassed
  {
    InitInv(c, cancelled);
    RunKeeps(c, Init(c, cancelled), ls);
    DependenciesPassed(c, s, l.t, d);
  }

  lemma DependenciesPassed(c: Setup, s: State, t: string, d: string)
    requires ValidSetup(c) && s.phase == InWave && s.wave < |c.waves| && t in c.waves[s.wave]
    requires Books(c, s.ledger, s.wave) && s.ledger.failed == [] && Reaches(c.g, t, d)
    ensures d in s.ledger.verdicts && s.ledger.verdicts[d] == VerdictPassed
  {
    assert ListsLevel(c.waves[s.wave], c.level, s.wave);
    assert c.level[t] == s.wave;
    var p :| IsPath(c.g, p) && |p| >= 2 && p[0] == t && p[|p| - 1] == d;
    PathDescends(c.g, c.level, p);
    assert d !in s.ledger.failed;
  }

  lemma {:induction false} CancelSticks(c: Setup, s: State, ls: seq<Label>)
    requires s.cancelled && Resume !in ls && Run(c, s, ls).Some?
    ensures Run(c, s, ls).value.cancelled && Started(Run(c, s, ls).value) == Started(s)
    decreases |ls|
  {
    if ls != [] {
      assert ls[0] in ls && forall l :: l in ls[1..] ==> l in ls;
      CancelSticks(c, Apply(c, s, ls[0]), ls[1..]);
    }
  }

  /** After a cancellation that is not resumed, only waves that had started by then are ever executed. */
  lemma CancelStartsNoWave(c: Setup, cancelled: bool, before: seq<Label>, s: State,
                           after: seq<Label>, s': State, l: Label)
    requires ValidSetup(c) && Run(c, Init(c, cancelled), before) == Some(s)
    requires Run(c, Apply(c, s, Cancel), after) == Some(s') && Resume !in after
    requires Enabled(c, s', l) && Calls(s', l)
    ensures l.t in c.level && c.level[l.t] < Started(s)
  {
    InitInv(c, cancelled);
    RunKeeps(c, Init(c, cancelled), before);
    StepKeeps(c, s, Cancel);
    RunKeeps(c, Apply(c, s, Cancel), after);
    CancelSticks(c, Apply(c, s, Cancel), after);
    assert ListsLevel(c.waves[s'.wave], c.level, s'.wave);
  }

  // ---------- termination ----------

  function CoRank(k: Coroutine): nat {
    match k
    case Ready => 5
    case Executing => 4
    case Executed(_) => 3
    case Verified(_, _) => 2
    case Recovering(_, _, a) => if a == Retrying then 5 else 1
    case Done(_, _) => 0
  }

  function WaveRank(wave: seq<string>, co: map<string, Coroutine>): nat {
    if wave == [] then 0
    else (if wave[0] in co then CoRank(co[wave[0]]) else 0) + WaveRank(wave[1..], co)
  }

  /** Steps that the waves from index `i` on can still cost, retries aside. */
  function Future(waves: seq<seq<string>>, i: nat): nat
    decreases |waves| - i
  {
    if i >= |waves| then 0 else 5 * |waves[i]| + 1 + Future(waves, i + 1)
  }

  /** Strictly decreases with every step of the run itself. */
  function Rank(c: Setup, s: State): int {
    4 * (Max(0, c.budget.maxRecoveryAttempts) - |s.attempts|) +
    match s.phase
    case InWave => (if s.wave < |c.waves| then WaveRank(c.waves[s.wave], s.co) else 0) + Future(c.waves, s.wave + 1) + 2
    case Stopping => 1
    case Finished => 0
  }

  lemma {:induction false} WaveRankUpdate(wave: seq<string>, co: map<string, Coroutine>, t: string, k: Coroutine)
    requires Distinct(wave) && t in co
    ensures WaveRank(wave, co[t := k]) == WaveRank(wave, co) + if t in wave then CoRank(k) - CoRank(co[t]) else 0
  {
    if wave != [] {
      assert wave == [wave[0]] + wave[1..];
      assert wave[0] !in wave[1..];
      WaveRankUpdate(wave[1..], co, t, k);
    }
  }

  lemma {:induction false} WaveRankReady(wave: seq<string>, co: map<string, Coroutine>)
    requires forall t :: t in wave ==> t in co && co[t] == Ready
    ensures WaveRank(wave, co) == 5 * |wave|
  {
    if wave != [] { WaveRankReady(wave[1..], co); }
  }

  lemma EnterRank(c: Setup, s: State)
    ensures Rank(c, Enter(c, s)) <=
              4 * (Max(0, c.budget.maxRecoveryAttempts) - |s.attempts|) + Future(c.waves, s.wave) + 1
  {
    if s.wave < |c.waves| && !s.cancelled {
      WaveRankReady(c.waves[s.wave], Created(c.waves[s.wave]));
    }
  }

  lemma MoveRank(c: Setup, s: State, s': State, t: string, k: Coroutine)
    requires s'.phase == s.phase && s'.wave == s.wave && s'.co == s.co[t := k]
    requires s.phase == InWave && s.wave < |c.waves| && t in s.co && t in c.waves[s.wave] && Distinct(c.waves[s.wave])
    ensures Rank(c, s') - Rank(c, s) == 4 * (|s.attempts| - |s'.attempts|) + CoRank(k) - CoRank(s.co[t])
  {
    WaveRankUpdate(c.waves[s.wave], s.co, t, k);
  }

  lemma TaskStepRank(c: Setup, s: State, l: Label)
    requires s.phase == InWave && s.wave < |c.waves| && Distinct(c.waves[s.wave]) && Enabled(c, s, l)
    requires l.Start? || l.Return? || l.Verify? || l.Settle? || l.Continue?
    requires l.t in c.waves[s.wave]
    ensures Rank(c, Apply(c, s, l)) < Rank(c, s)
  {
    var s' := Apply(c, s, l);
    MoveRank(c, s, s', l.t, s'.co[l.t]);
  }

  lemma GatherRank(c: Setup, s: State)
    requires |s.attempts| <= Max(0, c.budget.maxRecoveryAttempts) && Enabled(c, s, Gather)
    ensures Rank(c, Apply(c, s, Gather)) < Rank(c, s)
  {
    var ledger := RecordAll(s.ledger, c.waves[s.wave], Outcomes(s.co));
    EnterRank(c, Gathered(s, ledger));
  }

  lemma ExternalRank(c: Setup, s: State, l: Label)
    requires External(l)
    ensures Rank(c, Apply(c, s, l)) == Rank(c, s)
  {
  }

  lemma StepRank(c: Setup, s: State, l: Label)
    requires ValidSetup(c) && Inv(c, s) && Enabled(c, s, l)
    ensures !External(l) ==> Rank(c, Apply(c, s, l)) < Rank(c, s)
    ensures External(l) ==> Rank(c, Apply(c, s, l)) == Rank(c, s)
  {
    if External(l) {
      ExternalRank(c, s, l);
    } else if l.Gather? {
      GatherRank(c, s);
    } else if !l.Stop? {
      assert ListsLevel(c.waves[s.wave], c.level, s.wave);
      TaskStepRank(c, s, l);
    }
  }

  function InternalSteps(ls: seq<Label>): nat {
    if ls == [] then 0 else (if External(ls[0]) then 0 else 1) + InternalSteps(ls[1..])
  }

  lemma {:induction false} StepsAreBounded(c: Setup, s: State, ls: seq<Label>)
    requires ValidSetup(c) && Inv(c, s) && Run(c, s, ls).Some?
    ensures InternalSteps(ls) <= Rank(c, s)
    decreases |ls|
  {
    if ls == [] {
      assert WithinBudget(c.budget, s.attempts);
    } else {
      StepRank(c, s, ls[0]);
      StepKeeps(c, s, ls[0]);
      StepsAreBounded(c, Apply(c, s, ls[0]), ls[1..]);
    }
  }

  /** No run takes more steps than five per task, one per wave and four per recovery attempt, plus one. */
  lemma RunsTerminate(c: Setup, cancelled: bool, ls: seq<Label>)
    requires ValidSetup(c) && Run(c, Init(c, cancelled), ls).Some?
    ensures InternalSteps(ls) <= 4 * Max(0, c.budget.maxRecoveryAttempts) + Future(c.waves, 0) + 1
  {
    InitInv(c, cancelled);
    StepsAreBounded(c, Init(c, cancelled), ls);
    EnterRank(c, State(Stopping, 0, map[], c.initialRetries, [], Ledger([], [], map[], map[], Running), cancelled,
                       map t | t in c.g :: 0));
  }

  lemma TaskCanMove(c: Setup, s: State, t: string, w: World)
    requires s.phase == InWave && t in s.co && !s.co[t].Done? && t in c.artifacts && t in s.retries
    ensures exists l :: !External(l) && Enabled(c, s, l)
  {
    var l := match s.co[t]
      case Ready => Start(t)
      case Executing => Return(t, REFUSED)
      case Executed(_) => Verify(t, w)
      case Verified(_, _) => Settle(t, "")
      case _ => Continue(t);
    assert !External(l) && Enabled(c, s, l);
  }

  /** A run that has not finished can always take a step of its own. */
  lemma NeverStuck(c: Setup, s: State, w: World)
    requires ValidSetup(c) && Inv(c, s) && s.phase != Finished
    ensures exists l :: !External(l) && Enabled(c, s, l)
  {
    if s.phase == InWave {
      assert ListsLevel(c.waves[s.wave], c.level, s.wave);
      SomeTaskMovesOrGather(c, s, w);
    } else {
      assert !External(Stop) && Enabled(c, s, Stop);
    }
  }

  lemma SomeTaskMovesOrGather(c: Setup, s: State, w: World)
    requires s.phase == InWave && s.wave < |c.waves|
    requires forall t :: t in s.co <==> t in c.waves[s.wave]
    requires forall t :: t in s.co ==> t in c.artifacts && t in s.retries
    ensures exists l :: !External(l) && Enabled(c, s, l)
  {
    if exists t :: t in s.co && !s.co[t].Done? {
      var t :| t in s.co && !s.co[t].Done?;
      TaskCanMove(c, s, t, w);
    } else {
      assert !External(Gather) && Enabled(c, s, Gather);
    }
  }

  // ---------- final state ----------

  /** Everything a PASSED verification rests on. */
  ghost predicate Evidenced(c: Setup, t: string, r: StepResult, w: World)
    requires t in c.artifacts
  {
    && r.status == TaskCompleted
    && (forall o :: o in r.observations ==> !ToolFailed(o))
    && (forall a :: a in r.artifacts || a in c.artifacts[t] ==> Present(w, a))
    && (HasOutput(r) || r.artifacts != [] || c.artifacts[t] != [])
  }

  /** `r` is the executor's last answer for `t` in the run, and the verifier, when it last looked, saw all evidence
      for it. */
  ghost predicate Proven(c: Setup, ls: seq<Label>, t: string, r: StepResult) {
    t in c.artifacts && exists j, i :: LastReturn(ls, t, r, j) && SawEvidence(c, ls, t, r, i) && j < i
  }

  ghost predicate SawEvidence(c: Setup, ls: seq<Label>, t: string, r: StepResult, i: int)
    requires t in c.artifacts
  {
    && 0 <= i < |ls| && ls[i].Verify? && ls[i].t == t && Evidenced(c, t, r, ls[i].world)
    && forall k :: i < k < |ls| ==> !(ls[k].Verify? && ls[k].t == t)
  }

  /** COMPLETED is claimed only of plans that passed in full. */
  ghost predicate Honest(c: Setup, s: State) {
    s.ledger.status == Completed ==> AllPassed(c, s.ledger.verdicts)
  }

  ghost predicate Unclaimed(s: State) {
    s.phase != Finished ==> s.ledger.status != Completed
  }

  lemma HonestStep(c: Setup, s: State, l: Label)
    requires Honest(c, s) && Unclaimed(s) && Enabled(c, s, l)
    ensures Honest(c, Apply(c, s, l)) && Unclaimed(Apply(c, s, l))
  {
    if l.Gather? {
      StatusAfterWave(s.ledger, c.waves[s.wave], Outcomes(s.co));
    }
  }

  lemma {:induction false} HonestRun(c: Setup, s: State, ls: seq<Label>)
    requires Honest(c, s) && Unclaimed(s) && Run(c, s, ls).Some?
    ensures Honest(c, Run(c, s, ls).value)
    decreases |ls|
  {
    if ls != [] {
      HonestStep(c, s, ls[0]);
      HonestRun(c, Apply(c, s, ls[0]), ls[1..]);
    }
  }

  lemma {:induction false} StatusAfterWave(l: Ledger, wave: seq<string>, outcomes: map<string, Outcome>)
    requires forall t :: t in wave ==> t in outcomes
    ensures RecordAll(l, wave, outcomes).status in {l.status, Failed}
  {
    if wave != [] { StatusAfterWave(l, wave[..|wave| - 1], outcomes); }
  }

  /** In every run, with or without outside interference: COMPLETED means that each task's result is the last one it
      returned, and that the verifier then saw its tools succeed and its artifacts on disk, non-empty. */
  lemma CompletedIsProven(c: Setup, cancelled: bool, ls: seq<Label>, s: State)
    requires ValidSetup(c) && Run(c, Init(c, cancelled), ls) == Some(s) && s.ledger.status == Completed
    ensures forall t :: t in c.g ==> t in s.ledger.results && Proven(c, ls, t, s.ledger.results[t])
  {
    HonestRun(c, Init(c, cancelled), ls);
    FiledMeansWitnessed(c, cancelled, ls, s);
    forall t | t in c.g
      ensures t in s.ledger.results && Proven(c, ls, t, s.ledger.results[t])
    {
      AttestedIsProven(c, ls, t, s.ledger.results[t]);
    }
  }

  lemma AttestedIsProven(c: Setup, ls: seq<Label>, t: string, r: StepResult)
    requires Attested(c, ls, t, r, VerdictPassed)
    ensures Proven(c, ls, t, r)
  {
    var j, i :| LastReturn(ls, t, r, j) && LastVerdict(c, ls, t, r, VerdictPassed, i) && j < i;
    PassedMeansEvidence(ls[i].world, c.artifacts[t], r);
    assert SawEvidence(c, ls, t, r, i);
  }

  /** The books of a reachable state: completed and failed tasks split exactly the waves gathered,
      and failures sit in the last of those. */
  lemma BooksBalance(c: Setup, cancelled: bool, ls: seq<Label>, s: State)
    requires ValidSetup(c) && Run(c, Init(c, cancelled), ls) == Some(s)
    ensures Distinct(s.ledger.completed) && Distinct(s.ledger.failed)
    ensures forall t :: !(t in s.ledger.completed && t in s.ledger.failed)
    ensures forall t :: t in s.ledger.completed || t in s.ledger.failed <==> t in c.level && c.level[t] < s.wave
    ensures s.ledger.results.Keys == s.ledger.verdicts.Keys == set t | t in c.level && c.level[t] < s.wave
    ensures forall t :: t in s.ledger.failed ==> t in c.level && c.level[t] == s.wave - 1
  {
    InitInv(c, cancelled);
    RunKeeps(c, Init(c, cancelled), ls);
  }

  /** A run nobody interferes with. */
  ghost predicate Quiet(c: Setup, s: State) {
    && !s.cancelled && s.phase != Stopping
    && (s.phase == InWave ==> s.ledger.status == Running)
    && (s.phase == Finished ==> s.ledger.status == if AllPassed(c, s.ledger.verdicts) then Completed else Failed)
    && (s.phase == Finished && s.ledger.failed == [] ==> s.wave >= |c.waves|)
  }

  /** Leaving a wave in a quiet run: on to the next wave, or an honest final state. */
  lemma QuietAfterWave(c: Setup, s: State)
    requires !s.cancelled && s.ledger.status in {Running, Failed}
    requires s.ledger.status == Failed ==> s.ledger.failed != [] && !AllPassed(c, s.ledger.verdicts)
    ensures Quiet(c, Leave(c, s))
  {
  }

  lemma QuietGather(c: Setup, s: State)
    requires Shape(c, s) && Books(c, s.ledger, s.wave) && s.ledger.failed == [] && s.ledger.status != Failed
    requires Quiet(c, s) && Enabled(c, s, Gather) && ListsLevel(c.waves[s.wave], c.level, s.wave)
    requires c.level.Keys == c.g.Keys
    ensures Quiet(c, Apply(c, s, Gather))
  {
    BooksGather(c, s);
    var l := RecordAll(s.ledger, c.waves[s.wave], Outcomes(s.co));
    if l.status == Failed {
      var t := l.failed[0];
      assert t in l.failed && t in c.g && l.verdicts[t] != VerdictPassed;
    }
    QuietAfterWave(c, Gathered(s, l));
  }

  /** Until the wave is gathered, the coroutines leave phase, wave and books alone. */
  lemma CoroutinesKeepBooks(c: Setup, s: State, l: Label)
    requires Enabled(c, s, l) && !External(l) && !l.Gather? && !l.Stop?
    ensures var s' := Apply(c, s, l);
            s'.phase == s.phase && s'.wave == s.wave && s'.ledger == s.ledger && s'.cancelled == s.cancelled
  {
  }

  lemma QuietStep(c: Setup, s: State, l: Label)
    requires ValidSetup(c) && Inv(c, s) && Quiet(c, s) && Enabled(c, s, l) && !External(l)
    ensures Quiet(c, Apply(c, s, l))
  {
    if l.Gather? {
      assert ListsLevel(c.waves[s.wave], c.level, s.wave);
      QuietGather(c, s);
    } else {
      CoroutinesKeepBooks(c, s, l);
    }
  }

  lemma {:induction false} QuietRun(c: Setup, s: State, ls: seq<Label>)
    requires ValidSetup(c) && Inv(c, s) && Quiet(c, s) && (forall l :: l in ls ==> !External(l))
    requires Run(c, s, ls).Some?
    ensures Quiet(c, Run(c, s, ls).value)
    decreases |ls|
  {
    if ls != [] {
      assert ls[0] in ls && forall l :: l in ls[1..] ==> l in ls;
      QuietStep(c, s, ls[0]);
      StepKeeps(c, s, ls[0]);
      QuietRun(c, Apply(c, s, ls[0]), ls[1..]);
    }
  }

  /** Without interference the final state is COMPLETED exactly when every task passed, and FAILED otherwise. */
  lemma FinalState(c: Setup, ls: seq<Label>, s: State)
    requires ValidSetup(c) && Run(c, Init(c, false), ls) == Some(s)
    requires (forall l :: l in ls ==> !External(l)) && s.phase == Finished
    ensures s.ledger.status == Completed <==> forall t :: t in c.g ==> t in s.ledger.completed
    ensures s.ledger.status == Failed <==> s.ledger.failed != []
  {
    InitInv(c, false);
    RunKeeps(c, Init(c, false), ls);
    QuietRun(c, Init(c, false), ls);
    QuietEnd(c, s);
  }

  lemma QuietEnd(c: Setup, s: State)
    requires Books(c, s.ledger, s.wave) && Quiet(c, s) && s.phase == Finished
    requires c.level.Keys == c.g.Keys && forall t :: t in c.level ==> c.level[t] < |c.waves|
    ensures s.ledger.status == Completed <==> forall t :: t in c.g ==> t in s.ledger.completed
    ensures s.ledger.status == Failed <==> s.ledger.failed != []
  {
    if s.ledger.failed == [] {
      assert forall t :: t in c.g ==> t in s.ledger.verdicts && t in s.ledger.completed;
    } else {
      assert s.ledger.failed[0] in s.ledger.failed;
    }
  }
}
