/** Bounded recovery: a per-task retry budget under a run-wide one. */
module Recovery {
  import opened Prelude
  import opened AgentModels

  datatype Budget = Budget(maxStepRetries: int, maxReplans: int, maxRecoveryAttempts: int)

  /** Records in state `st`. */
  function Count(attempts: seq<Attempt>, st: RecoveryState): nat {
    if attempts == [] then 0
    else Count(attempts[..|attempts| - 1], st) + if attempts[|attempts| - 1].state == st then 1 else 0
  }

  /** Retries recorded for task `t`. */
  function RetriesOf(attempts: seq<Attempt>, t: string): nat {
    if attempts == [] then 0
    else
      var last := attempts[|attempts| - 1];
      RetriesOf(attempts[..|attempts| - 1], t) + if last.taskId == t && last.state == Retrying then 1 else 0
  }

  datatype Decision = Decision(action: RecoveryState, retryCount: int, attempts: seq<Attempt>)

  /** What a failure of task `t` leads to. */
  function Decide(b: Budget, t: string, error: string, retryCount: int, attempts: seq<Attempt>): Decision {
    var total := |attempts|;
    if total >= b.maxRecoveryAttempts then
      Decision(Aborted, retryCount, attempts)
    else if retryCount < b.maxStepRetries then
      Decision(Retrying, retryCount + 1, attempts + [Attempt(t, error, Retrying, retryCount + 1)])
    else if Count(attempts, Replanning) < b.maxReplans then
      Decision(Replanning, retryCount, attempts + [Attempt(t, error, Replanning, total + 1)])
    else
      Decision(Aborted, retryCount, attempts + [Attempt(t, error, Aborted, total + 1)])
  }

  /** The budgets, as facts about the records of a run. */
  ghost predicate WithinBudget(b: Budget, attempts: seq<Attempt>) {
    && |attempts| <= Max(0, b.maxRecoveryAttempts)
    && Count(attempts, Replanning) <= Max(0, b.maxReplans)
  }

  lemma CountAppend(attempts: seq<Attempt>, a: Attempt)
    ensures forall st :: Count(attempts + [a], st) == Count(attempts, st) + if a.state == st then 1 else 0
    ensures forall t :: RetriesOf(attempts + [a], t) ==
              RetriesOf(attempts, t) + if a.taskId == t && a.state == Retrying then 1 else 0
  {
    assert (attempts + [a])[..|attempts|] == attempts;
  }

  /** One decision keeps both budgets, and turns a retry into exactly one retry record of that task. */
  lemma DecideKeepsBudget(b: Budget, t: string, error: string, retryCount: int, attempts: seq<Attempt>)
    requires WithinBudget(b, attempts)
    ensures var d := Decide(b, t, error, retryCount, attempts);
            && WithinBudget(b, d.attempts) && attempts <= d.attempts
            && d.retryCount - retryCount == RetriesOf(d.attempts, t) - RetriesOf(attempts, t)
            && Count(d.attempts, Retrying) - Count(attempts, Retrying) == d.retryCount - retryCount
            && (forall u :: u != t ==> RetriesOf(d.attempts, u) == RetriesOf(attempts, u))
            && (d.action == Retrying <==> d.retryCount == retryCount + 1)
            && (d.action == Retrying ==> |d.attempts| == |attempts| + 1 && d.retryCount <= b.maxStepRetries)
            && (d.action != Retrying ==> d.retryCount == retryCount)
  {
    CountAppend(attempts, Attempt(t, error, Retrying, retryCount + 1));
    CountAppend(attempts, Attempt(t, error, Replanning, |attempts| + 1));
    CountAppend(attempts, Attempt(t, error, Aborted, |attempts| + 1));
  }

  /** Which way a failure goes, and what it leaves behind. */
  lemma DecideExactly(b: Budget, t: string, error: string, retryCount: int, attempts: seq<Attempt>)
    ensures var d := Decide(b, t, error, retryCount, attempts);
            var room := |attempts| < b.maxRecoveryAttempts;
            && (d.action == Retrying <==> room && retryCount < b.maxStepRetries)
            && (d.action == Replanning <==>
                  room && retryCount >= b.maxStepRetries && Count(attempts, Replanning) < b.maxReplans)
            && (d.attempts == attempts <==> !room)
            && (room ==> d.attempts == attempts + [Attempt(t, error, d.action,
                           if d.action == Retrying then retryCount + 1 else |attempts| + 1)])
  {
  }

  class RecoveryEngine {
    const budget: Budget

    constructor (budget: Budget)
      ensures this.budget == budget
    {
      this.budget := budget;
    }

    method CanRetryStep(task: AgentTask) returns (ok: bool)
      ensures ok <==> task.retryCount < budget.maxStepRetries
    {
      ok := task.retryCount < budget.maxStepRetries;
    }

    method CanReplan(run: AgentRun) returns (ok: bool)
      ensures ok <==> Count(run.recoveryAttempts, Replanning) < budget.maxReplans
    {
      var n, records := 0, run.recoveryAttempts;
      for i := 0 to |records|
        invariant n == Count(records[..i], Replanning)
      {
        assert records[..i + 1][..i] == records[..i];
        if records[i].state == Replanning {
          n := n + 1;
        }
      }
      assert records[..|records|] == records;
      ok := n < budget.maxReplans;
    }

    /** Picks the next action, charging it to the task and to the run. */
    method EvaluateFailure(task: AgentTask, error: string, run: AgentRun) returns (action: RecoveryState)
      modifies task`retryCount, run`recoveryAttempts
      ensures Decision(action, task.retryCount, run.recoveryAttempts)
           == Decide(budget, task.id, error, old(task.retryCount), old(run.recoveryAttempts))
      ensures old(WithinBudget(budget, run.recoveryAttempts)) ==> WithinBudget(budget, run.recoveryAttempts)
    {
      var attempts := run.recoveryAttempts;
      var total := |attempts|;
      if total >= budget.maxRecoveryAttempts {
        return Aborted;
      }
      var retry := CanRetryStep(task);
      if retry {
        task.retryCount := task.retryCount + 1;
        run.recoveryAttempts := attempts + [Attempt(task.id, error, Retrying, task.retryCount)];
        action := Retrying;
      } else {
        var replan := CanReplan(run);
        action := if replan then Replanning else Aborted;
        run.recoveryAttempts := attempts + [Attempt(task.id, error, action, total + 1)];
      }
      CountAppend(attempts, run.recoveryAttempts[total]);
    }
  }
}
