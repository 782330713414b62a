/** The recovery budgets over whole runs: what they bound, and that the bound on calls is exact. */
module Budgets {
  import opened Prelude
  import opened TaskGraph
  import opened AgentModels
  import opened Recovery
  import opened Text
  import opened Verifier
  import opened Orchestrator

  function Sum(order: seq<string>, m: map<string, int>): int
    requires forall t :: t in order ==> t in m
  {
    if order == [] then 0 else m[order[0]] + Sum(order[1..], m)
  }

  function SumRetries(order: seq<string>, attempts: seq<Attempt>): int {
    if order == [] then 0 else RetriesOf(attempts, order[0]) + SumRetries(order[1..], attempts)
  }

  lemma {:induction false} SumRetriesAppend(order: seq<string>, attempts: seq<Attempt>, a: Attempt)
    requires Distinct(order)
    ensures SumRetries(order, attempts + [a]) ==
              SumRetries(order, attempts) + if a.state == Retrying && a.taskId in order then 1 else 0
  {
    CountAppend(attempts, a);
    if order != [] {
      assert order == [order[0]] + order[1..];
      assert order[0] !in order[1..];
      SumRetriesAppend(order[1..], attempts, a);
    }
  }

  lemma {:induction false} SumRetriesEmpty(order: seq<string>)
    ensures SumRetries(order, []) == 0
  {
    if order != [] { SumRetriesEmpty(order[1..]); }
  }

  lemma {:induction false} SumRetriesIsCount(order: seq<string>, attempts: seq<Attempt>)
    requires Distinct(order) && forall a :: a in attempts ==> a.taskId in order
    ensures SumRetries(order, attempts) == Count(attempts, Retrying) <= |attempts|
  {
    if attempts == [] {
      SumRetriesEmpty(order);
    } else {
      var n := |attempts| - 1;
      assert attempts == attempts[..n] + [attempts[n]];
      SumRetriesIsCount(order, attempts[..n]);
      SumRetriesAppend(order, attempts[..n], attempts[n]);
      CountAppend(attempts[..n], attempts[n]);
    }
  }

  lemma {:induction false} SumOfRetries(order: seq<string>, now: map<string, int>, initial: map<string, int>,
                                        attempts: seq<Attempt>)
    requires forall t :: t in order ==> t in now && t in initial && now[t] - initial[t] == RetriesOf(attempts, t)
    ensures Sum(order, now) - Sum(order, initial) == SumRetries(order, attempts)
  {
    if order != [] { SumOfRetries(order[1..], now, initial, attempts); }
  }

  lemma {:induction false} SumOfCalls(order: seq<string>, calls: map<string, nat>, attempts: seq<Attempt>)
    requires forall t :: t in order ==> t in calls && calls[t] <= 1 + RetriesOf(attempts, t)
    ensures Sum(order, calls) <= |order| + SumRetries(order, attempts)
  {
    if order != [] { SumOfCalls(order[1..], calls, attempts); }
  }

  /** How often a task that keeps failing is retried. */
  function RetryAllowance(b: Budget, initialRetries: int): nat {
    Min(Max(0, b.maxStepRetries - initialRetries), Max(0, b.maxRecoveryAttempts))
  }

  lemma {:induction false} RetriesAreRecords(attempts: seq<Attempt>, t: string)
    ensures RetriesOf(attempts, t) <= |attempts|
  {
    if attempts != [] {
      RetriesAreRecords(attempts[..|attempts| - 1], t);
    }
  }

  lemma CallsOfTask(c: Setup, s: State, t: string)
    requires Accounts(c, s) && t in c.level
    ensures s.calls[t] <= 1 + RetriesOf(s.attempts, t)
    ensures s.calls[t] <= 1 + RetryAllowance(c.budget, c.initialRetries[t])
  {
    assert TaskAccount(c, s, t);
    RetriesAreRecords(s.attempts, t);
  }

  /** In every reachable state: retry counts grow by the retry records, so they add up to them exactly for plans whose
      counts arrive adding up to zero, and all budgets hold. */
  lemma BudgetsHold(c: Setup, cancelled: bool, ls: seq<Label>, s: State, order: seq<string>)
    requires ValidSetup(c) && Run(c, Init(c, cancelled), ls) == Some(s)
    requires Enumerates(order, c.g.Keys)
    ensures s.retries.Keys == s.calls.Keys == c.g.Keys
    ensures Sum(order, s.retries) - Sum(order, c.initialRetries) == Count(s.attempts, Retrying)
    ensures Sum(order, s.retries) == Count(s.attempts, Retrying) <==> Sum(order, c.initialRetries) == 0
    ensures |s.attempts| <= Max(0, c.budget.maxRecoveryAttempts)
    ensures Count(s.attempts, Replanning) <= Max(0, c.budget.maxReplans)
    ensures forall t :: t in c.g ==> s.calls[t] <= 1 + RetryAllowance(c.budget, c.initialRetries[t])
    ensures Sum(order, s.calls) <= |order| + Max(0, c.budget.maxRecoveryAttempts)
  {
    InitInv(c, cancelled);
    RunKeeps(c, Init(c, cancelled), ls);
    forall t | t in c.g
      ensures s.retries[t] - c.initialRetries[t] == RetriesOf(s.attempts, t)
      ensures s.calls[t] <= 1 + RetriesOf(s.attempts, t)
      ensures s.calls[t] <= 1 + RetryAllowance(c.budget, c.initialRetries[t])
    {
      assert TaskAccount(c, s, t);
      CallsOfTask(c, s, t);
    }
    SumOfRetries(order, s.retries, c.initialRetries, s.attempts);
    SumOfCalls(order, s.calls, s.attempts);
    SumRetriesIsCount(order, s.attempts);
  }

  // ---------- the bound on calls is attained ----------

  /** A step result the verifier rejects in any world. */
  const REFUSED: StepResult := StepResult(TaskFailed, None, [], [])

  function OneRetry(t: string, w: World): seq<Label> {
    [Return(t, REFUSED), Verify(t, w), Settle(t, ""), Continue(t)]
  }

  function ManyRetries(t: string, w: World, n: nat): seq<Label> {
    if n == 0 then [] else OneRetry(t, w) + ManyRetries(t, w, n - 1)
  }

  lemma {:induction false} RunConcat(c: Setup, s: State, a: seq<Label>, b: seq<Label>)
    requires Run(c, s, a).Some?
    ensures Run(c, s, a + b) == Run(c, Run(c, s, a).value, b)
    decreases |a|
  {
    if a == [] {
      assert a + b == b;
    } else {
      assert (a + b)[0] == a[0] && (a + b)[1..] == a[1..] + b;
      RunConcat(c, Apply(c, s, a[0]), a[1..], b);
    }
  }

  lemma RetryOnce(c: Setup, s: State, t: string, w: World)
    requires s.phase == InWave && t in s.co && s.co[t] == Executing
    requires t in c.artifacts && t in s.retries && t in s.calls
    requires s.retries[t] < c.budget.maxStepRetries && |s.attempts| < c.budget.maxRecoveryAttempts
    ensures var r := Run(c, s, OneRetry(t, w));
            && r.Some? && r.value.phase == InWave
            && t in r.value.co && r.value.co[t] == Executing && t in r.value.retries && t in r.value.calls
            && r.value.retries[t] == s.retries[t] + 1 && |r.value.attempts| == |s.attempts| + 1
            && r.value.calls[t] == s.calls[t] + 1
  {
    var ls := OneRetry(t, w);
    var s1 := Apply(c, s, ls[0]);
    var s2 := Apply(c, s1, ls[1]);
    assert s2.co[t] == Orchestrator.Verified(REFUSED, VerdictFailed);
    var s3 := Apply(c, s2, ls[2]);
    assert s3.co[t] == Recovering(REFUSED, VerdictFailed, Retrying);
    var s4 := Apply(c, s3, ls[3]);
    calc {
      Run(c, s, ls);
      { assert ls[1..] == [ls[1], ls[2], ls[3]]; }
      Run(c, s1, [ls[1], ls[2], ls[3]]);
      { assert [ls[1], ls[2], ls[3]][1..] == [ls[2], ls[3]]; }
      Run(c, s2, [ls[2], ls[3]]);
      { assert [ls[2], ls[3]][1..] == [ls[3]]; }
      Run(c, s3, [ls[3]]);
      { assert [ls[3]][1..] == []; }
      Run(c, s4, []);
      Some(s4);
    }
  }

  lemma {:induction false} RetryMany(c: Setup, s: State, t: string, w: World, n: nat)
    requires s.phase == InWave && t in s.co && s.co[t] == Executing
    requires t in c.artifacts && t in s.retries && t in s.calls
    requires s.retries[t] + n <= c.budget.maxStepRetries && |s.attempts| + n <= c.budget.maxRecoveryAttempts
    ensures var r := Run(c, s, ManyRetries(t, w, n));
            r.Some? && t in r.value.calls && r.value.calls[t] == s.calls[t] + n
    decreases n
  {
    if n > 0 {
      RetryOnce(c, s, t, w);
      RunConcat(c, s, OneRetry(t, w), ManyRetries(t, w, n - 1));
      RetryMany(c, Run(c, s, OneRetry(t, w)).value, t, w, n - 1);
    }
  }

  /** A step result that passes wherever all artifacts are present. */
  const PASSING: StepResult := StepResult(TaskCompleted, Some("ok"), [], [])

  /** Every artifact resolves to one file with content. */
  const FULL_WORLD: World := World(map["x" := 1], (s: string) => "x")

  lemma PassingPasses(artifacts: seq<string>)
    ensures Judge(FULL_WORLD, artifacts, PASSING) == VerdictPassed
  {
    var ok := "ok";
    assert Trim(ok, PythonSpace) == ok by {
      assert TrimStart(ok, PythonSpace) == ok;
    }
    PassedMeansEvidence(FULL_WORLD, artifacts, PASSING);
  }

  const PASSED := Done(PASSING, VerdictPassed)

  function PassTask(t: string): seq<Label> {
    [Start(t), Return(t, PASSING), Verify(t, FULL_WORLD), Settle(t, "")]
  }

  function PassTasks(ts: seq<string>): seq<Label> {
    if ts == [] then [] else PassTask(ts[0]) + PassTasks(ts[1..])
  }

  function PassWaves(waves: seq<seq<string>>): seq<Label> {
    if waves == [] then []
    else
      var n := |waves| - 1;
      PassWaves(waves[..n]) + (PassTasks(waves[n]) + [Gather])
  }

  /** Nothing but coroutines and call counts differs. */
  ghost predicate OnlyCoroutines(s: State, s': State) {
    s' == s.(co := s'.co, calls := s'.calls) && s'.co.Keys == s.co.Keys
  }

  lemma PassOne(c: Setup, s: State, t: string)
    requires s.phase == InWave && t in s.co && s.co[t].Ready? && t in c.artifacts && t in s.retries
    ensures var r := Run(c, s, PassTask(t));
            r.Some? && OnlyCoroutines(s, r.value) && r.value.co == s.co[t := PASSED]
  {
    var ls := PassTask(t);
    PassingPasses(c.artifacts[t]);
    var s1 := Apply(c, s, ls[0]);
    var s2 := Apply(c, s1, ls[1]);
    var s3 := Apply(c, s2, ls[2]);
    assert s3.co[t] == Orchestrator.Verified(PASSING, VerdictPassed);
    var s4 := Apply(c, s3, ls[3]);
    FourSteps(c, s, ls, s1, s2, s3, s4);
  }

  lemma FourSteps(c: Setup, s: State, ls: seq<Label>, s1: State, s2: State, s3: State, s4: State)
    requires |ls| == 4
    requires Enabled(c, s, ls[0]) && s1 == Apply(c, s, ls[0])
    requires Enabled(c, s1, ls[1]) && s2 == Apply(c, s1, ls[1])
    requires Enabled(c, s2, ls[2]) && s3 == Apply(c, s2, ls[2])
    requires Enabled(c, s3, ls[3]) && s4 == Apply(c, s3, ls[3])
    ensures Run(c, s, ls) == Some(s4)
  {
    assert ls[3..][0] == ls[3] && ls[3..][1..] == [];
    assert Run(c, s3, ls[3..]) == Run(c, s4, []);
    assert ls[2..][0] == ls[2] && ls[2..][1..] == ls[3..];
    assert Run(c, s2, ls[2..]) == Run(c, s3, ls[3..]);
    assert ls[1..][0] == ls[1] && ls[1..][1..] == ls[2..];
    assert Run(c, s1, ls[1..]) == Run(c, s2, ls[2..]);
  }

  lemma {:induction false} PassMany(c: Setup, s: State, ts: seq<string>)
    requires s.phase == InWave && Distinct(ts)
    requires forall t :: t in ts ==> t in s.co && s.co[t].Ready? && t in c.artifacts && t in s.retries
    ensures var r := Run(c, s, PassTasks(ts));
            && r.Some? && OnlyCoroutines(s, r.value)
            && forall u :: u in s.co ==> r.value.co[u] == if u in ts then PASSED else s.co[u]
    decreases |ts|
  {
    if ts != [] {
      assert ts == [ts[0]] + ts[1..] && ts[0] !in ts[1..];
      PassOne(c, s, ts[0]);
      RunConcat(c, s, PassTask(ts[0]), PassTasks(ts[1..]));
      PassMany(c, Run(c, s, PassTask(ts[0])).value, ts[1..]);
    }
  }

  lemma {:induction false} AllPassedStatus(l: Ledger, wave: seq<string>, outcomes: map<string, Outcome>)
    requires forall t :: t in wave ==> t in outcomes && outcomes[t].verdict == VerdictPassed
    ensures RecordAll(l, wave, outcomes).status == l.status
  {
    if wave != [] {
      AllPassedStatus(l, wave[..|wave| - 1], outcomes);
    }
  }

  /** Wave `k` is about to run, and nothing has gone wrong before. */
  ghost predicate Untroubled(c: Setup, s: State, k: nat) {
    && k < |c.waves| && s.phase == InWave && s.wave == k && s.co == Created(c.waves[k])
    && s.retries == c.initialRetries && s.attempts == [] && s.ledger.status == AgentState.Running && !s.cancelled
  }

  lemma GatherPassed(c: Setup, s: State, k: nat)
    requires k + 1 < |c.waves| && s.phase == InWave && s.wave == k && !s.cancelled
    requires s.ledger.status == AgentState.Running
    requires forall t :: t in c.waves[k] ==> t in s.co && s.co[t] == PASSED
    ensures Enabled(c, s, Gather)
    ensures var s' := Apply(c, s, Gather);
            && s'.phase == InWave && s'.wave == k + 1 && s'.co == Created(c.waves[k + 1]) && !s'.cancelled
            && s'.retries == s.retries && s'.attempts == s.attempts && s'.ledger.status == AgentState.Running
  {
    AllPassedStatus(s.ledger, c.waves[k], Outcomes(s.co));
  }

  lemma OneStep(c: Setup, s: State, l: Label)
    requires Enabled(c, s, l)
    ensures Run(c, s, [l]) == Some(Apply(c, s, l))
  {
    assert [l][1..] == [];
  }

  lemma PassWave(c: Setup, s: State, k: nat) returns (s': State)
    requires ValidSetup(c) && Untroubled(c, s, k) && k + 1 < |c.waves|
    ensures Run(c, s, PassTasks(c.waves[k]) + [Gather]) == Some(s') && Untroubled(c, s', k + 1)
  {
    var wave := c.waves[k];
    assert ListsLevel(wave, c.level, k);
    PassMany(c, s, wave);
    RunConcat(c, s, PassTasks(wave), [Gather]);
    var s1 := Run(c, s, PassTasks(wave)).value;
    GatherPassed(c, s1, k);
    OneStep(c, s1, Gather);
    s' := Apply(c, s1, Gather);
  }

  lemma PassWavesStep(waves: seq<seq<string>>, k: nat)
    requires 0 < k <= |waves|
    ensures PassWaves(waves[..k]) == PassWaves(waves[..k - 1]) + (PassTasks(waves[k - 1]) + [Gather])
  {
    assert waves[..k][..k - 1] == waves[..k - 1];
  }

  lemma {:induction false} PassUpTo(c: Setup, k: nat) returns (s: State)
    requires ValidSetup(c) && k < |c.waves|
    ensures Run(c, Init(c, false), PassWaves(c.waves[..k])) == Some(s) && Untroubled(c, s, k)
  {
    s := Init(c, false);
    if k > 0 {
      var before := PassUpTo(c, k - 1);
      s := PassWave(c, before, k - 1);
      RunConcat(c, Init(c, false), PassWaves(c.waves[..k - 1]), PassTasks(c.waves[k - 1]) + [Gather]);
      PassWavesStep(c.waves, k);
    }
  }

  /** The earlier waves pass, then `t` keeps failing. */
  function FailingRun(c: Setup, t: string): seq<Label>
    requires t in c.level && c.level[t] < |c.waves| && t in c.initialRetries
  {
    PassWaves(c.waves[..c.level[t]]) +
    ([Start(t)] + ManyRetries(t, FULL_WORLD, RetryAllowance(c.budget, c.initialRetries[t])))
  }

  /** The bound on the calls of a task is attained, by every task of every plan. */
  lemma BoundIsReached(c: Setup, t: string)
    requires ValidSetup(c) && t in c.g
    ensures var r := Run(c, Init(c, false), FailingRun(c, t));
            r.Some? && t in r.value.calls && r.value.calls[t] == 1 + RetryAllowance(c.budget, c.initialRetries[t])
  {
    var k := c.level[t];
    assert ListsLevel(c.waves[k], c.level, k);
    var before := PassWaves(c.waves[..k]);
    var s := PassUpTo(c, k);
    Uncalled(c, before, s, t);
    var n := RetryAllowance(c.budget, c.initialRetries[t]);
    FailFrom(c, s, t, n);
    RunConcat(c, Init(c, false), before, [Start(t)] + ManyRetries(t, FULL_WORLD, n));
  }

  /** A task that is about to start has not been called. */
  lemma Uncalled(c: Setup, before: seq<Label>, s: State, t: string)
    requires ValidSetup(c) && Run(c, Init(c, false), before) == Some(s) && t in s.co && s.co[t].Ready? && t in c.g
    ensures t in s.calls && s.calls[t] == 0 && t in s.retries
  {
    InitInv(c, false);
    RunKeeps(c, Init(c, false), before);
    assert TaskAccount(c, s, t);
  }

  lemma FailFrom(c: Setup, s: State, t: string, n: nat)
    requires s.phase == InWave && t in s.co && s.co[t].Ready? && t in c.artifacts && t in s.retries
    requires t in s.calls && s.calls[t] == 0
    requires n > 0 ==> s.retries[t] + n <= c.budget.maxStepRetries && |s.attempts| + n <= c.budget.maxRecoveryAttempts
    ensures var r := Run(c, s, [Start(t)] + ManyRetries(t, FULL_WORLD, n));
            r.Some? && t in r.value.calls && r.value.calls[t] == 1 + n
  {
    var ls := [Start(t)] + ManyRetries(t, FULL_WORLD, n);
    var s1 := Apply(c, s, Start(t));
    assert ls[1..] == ManyRetries(t, FULL_WORLD, n);
    assert Run(c, s, ls) == Run(c, s1, ls[1..]);
    if n > 0 {
      RetryMany(c, s1, t, FULL_WORLD, n);
    }
  }

  /** In every run, task `t` is executed at most once more than the step budget says. */
  ghost predicate StepBudgetKept(c: Setup, t: string) {
    forall cancelled: bool, ls: seq<Label> ::
      Run(c, Init(c, cancelled), ls).Some? ==>
        var calls := Run(c, Init(c, cancelled), ls).value.calls; t in calls && calls[t] <= 1 + c.budget.maxStepRetries
  }

  /** That promise is kept exactly if the step budget is not negative and either the plan gives the task no negative
      retry count or the budget of the whole run is no larger. */
  lemma StepBudgetKeptIff(c: Setup, t: string)
    requires ValidSetup(c) && t in c.g
    ensures StepBudgetKept(c, t) <==>
              && c.budget.maxStepRetries >= 0
              && (c.initialRetries[t] >= 0 || c.budget.maxRecoveryAttempts <= c.budget.maxStepRetries)
  {
    var n := RetryAllowance(c.budget, c.initialRetries[t]);
    BoundIsReached(c, t);
    forall cancelled: bool, ls: seq<Label> | Run(c, Init(c, cancelled), ls).Some?
      ensures var calls := Run(c, Init(c, cancelled), ls).value.calls; t in calls && calls[t] <= 1 + n
    {
      InitInv(c, cancelled);
      RunKeeps(c, Init(c, cancelled), ls);
      CallsOfTask(c, Run(c, Init(c, cancelled), ls).value, t);
    }
  }
}
