/** From an accepted plan to its runs: validation, execution, recovery and verification together. */
module Workflow {
  import opened Prelude
  import opened TaskGraph
  import opened AgentModels
  import opened Recovery
  import opened PlanValidation
  import opened Orchestrator
  import opened Budgets
  import opened RunTheorems

  function ArtifactsOf(plan: seq<PlanTask>): (m: map<string, seq<string>>)
    ensures forall id :: id in m <==> exists t :: t in plan && t.id == id
  {
    if plan == [] then map[]
    else
      var n := |plan| - 1;
      assert plan == plan[..n] + [plan[n]];
      ArtifactsOf(plan[..n])[plan[n].id := plan[n].artifacts]
  }

  function RetryCountsOf(plan: seq<PlanTask>): (m: map<string, int>)
    ensures forall id :: id in m <==> exists t :: t in plan && t.id == id
  {
    if plan == [] then map[]
    else
      var n := |plan| - 1;
      assert plan == plan[..n] + [plan[n]];
      RetryCountsOf(plan[..n])[plan[n].id := plan[n].retryCount]
  }

  /** What a run of the plan starts from. */
  function SetupOf(plan: seq<PlanTask>, g: Graph, waves: seq<seq<string>>, level: map<string, nat>, budget: Budget)
    : Setup
  {
    Setup(g, waves, level, ArtifactsOf(plan), RetryCountsOf(plan), budget)
  }

  lemma SetupIsValid(plan: seq<PlanTask>, g: Graph, waves: seq<seq<string>>, level: map<string, nat>, budget: Budget)
    requires IsGraphOf(plan, g) && Closed(g) && Layered(g, waves, level) && level.Keys == g.Keys
    ensures ValidSetup(SetupOf(plan, g, waves, level, budget))
  {
  }

  /** Plans that validate have what the orchestrator needs; the others are turned away before anything runs. */
  method AcceptPlan(validator: PlanValidator, plan: seq<PlanTask>, budget: Budget)
    returns (r: Result<seq<seq<string>>, PlanError>, ghost c: Setup)
    ensures r.Ok? <==> WellFormed(plan, validator.maxSteps, validator.agents, validator.tools) && Acyclic(c.g)
    ensures r.Ok? ==> ValidSetup(c) && IsGraphOf(plan, c.g) && c.waves == r.value && c.budget == budget
    ensures r.Ok? ==> c.artifacts == ArtifactsOf(plan) && c.initialRetries == RetryCountsOf(plan)
  {
    ghost var g, level;
    r, g, level := validator.ValidateAndSort(plan);
    c := SetupOf(plan, g, if r.Ok? then r.value else [], level, budget);
    if r.Ok? {
      SetupIsValid(plan, g, r.value, level, budget);
    }
  }

  /** Whoever the executor may be called on next has only PASSED dependencies, direct and transitive. */
  ghost predicate DependenciesFirst(c: Setup, s: State) {
    forall l, d {:trigger Reaches(c.g, l.t, d), Calls(s, l)} ::
      Enabled(c, s, l) && Calls(s, l) && Reaches(c.g, l.t, d) ==>
        d in s.ledger.verdicts && s.ledger.verdicts[d] == VerdictPassed
  }

  ghost predicate WithinAllowance(plan: seq<PlanTask>, c: Setup, s: State) {
    forall task :: task in plan ==>
      task.id in s.calls && task.id in c.initialRetries &&
      s.calls[task.id] <= 1 + RetryAllowance(c.budget, c.initialRetries[task.id])
  }

  ghost predicate AllProven(plan: seq<PlanTask>, c: Setup, ls: seq<Label>, s: State) {
    forall task :: task in plan ==>
      task.id in s.ledger.results && Proven(c, ls, task.id, s.ledger.results[task.id])
  }

  lemma DependenciesComeFirst(c: Setup, cancelled: bool, ls: seq<Label>, s: State)
    requires ValidSetup(c) && Run(c, Init(c, cancelled), ls) == Some(s)
    ensures DependenciesFirst(c, s)
  {
    forall l, d | Enabled(c, s, l) && Calls(s, l) && Reaches(c.g, l.t, d)
      ensures d in s.ledger.verdicts && s.ledger.verdicts[d] == VerdictPassed
    {
      ExecutesAfterDependencies(c, cancelled, ls, s, l, d);
    }
  }

  lemma AllowanceIsKept(plan: seq<PlanTask>, c: Setup, s: State)
    requires IsGraphOf(plan, c.g) && c.level.Keys == c.g.Keys && Accounts(c, s)
    ensures WithinAllowance(plan, c, s)
  {
    forall task | task in plan
      ensures task.id in s.calls && task.id in c.initialRetries
      ensures s.calls[task.id] <= 1 + RetryAllowance(c.budget, c.initialRetries[task.id])
    {
      CallsOfTask(c, s, task.id);
    }
  }

  /** End to end, for every interleaving of every accepted plan: tasks run only on proven dependencies, no task runs
      oftener than its budget allows, and a plan reported COMPLETED has proof for each of its tasks. */
  lemma AcceptedPlansRunSafely(plan: seq<PlanTask>, c: Setup, cancelled: bool, ls: seq<Label>, s: State)
    requires ValidSetup(c) && IsGraphOf(plan, c.g) && Run(c, Init(c, cancelled), ls) == Some(s)
    ensures DependenciesFirst(c, s) && WithinAllowance(plan, c, s)
    ensures s.ledger.status == Completed ==> AllProven(plan, c, ls, s)
  {
    DependenciesComeFirst(c, cancelled, ls, s);
    InitInv(c, cancelled);
    RunKeeps(c, Init(c, cancelled), ls);
    AllowanceIsKept(plan, c, s);
    if s.ledger.status == Completed {
      CompletedIsProven(c, cancelled, ls, s);
    }
  }
}
