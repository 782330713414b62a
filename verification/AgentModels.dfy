/** Records exchanged by the agent runtime, and the run object it updates. */
module AgentModels {
  import opened Prelude

  datatype TaskState = TaskCompleted | TaskFailed | TaskOther

  datatype AgentState = Running | Completed | Failed | Cancelled | Paused

  datatype Verdict = VerdictPassed | VerdictFailed | VerdictPartial

  datatype Observation = Observation(toolId: Option<string>, status: string)

  datatype StepResult = StepResult(
    status: TaskState,
    output: Option<string>,
    artifacts: seq<string>,
    observations: seq<Observation>)

  datatype RecoveryState = Retrying | Replanning | Aborted

  datatype Attempt = Attempt(taskId: string, failureReason: string, state: RecoveryState, attemptNumber: int)

  class AgentTask {
    const id: string
    var retryCount: int

    constructor (id: string, retryCount: int)
      ensures this.id == id && this.retryCount == retryCount
    {
      this.id, this.retryCount := id, retryCount;
    }
  }

  /** What the bookkeeping after a wave reads and writes. */
  datatype Ledger = Ledger(
    completed: seq<string>,
    failed: seq<string>,
    results: map<string, StepResult>,
    verdicts: map<string, Verdict>,
    status: AgentState)

  datatype Outcome = Outcome(result: StepResult, verdict: Verdict)

  function RecordOne(l: Ledger, t: string, o: Outcome): Ledger {
    var recorded := l.(results := l.results[t := o.result], verdicts := l.verdicts[t := o.verdict]);
    if o.verdict == VerdictPassed then recorded.(completed := l.completed + [t])
    else recorded.(failed := l.failed + [t], status := Failed)
  }

  /** The ledger after one outcome per task of the wave has been recorded, in wave order. */
  function RecordAll(l: Ledger, wave: seq<string>, outcomes: map<string, Outcome>): Ledger
    requires forall t :: t in wave ==> t in outcomes
  {
    if wave == [] then l
    else
      var n := |wave| - 1;
      RecordOne(RecordAll(l, wave[..n], outcomes), wave[n], outcomes[wave[n]])
  }

  class AgentRun {
    var recoveryAttempts: seq<Attempt>
    var completedTasks: seq<string>
    var failedTasks: seq<string>
    var taskResults: map<string, StepResult>
    var verifications: map<string, Verdict>
    var state: AgentState

    constructor ()
      ensures recoveryAttempts == [] && View() == Ledger([], [], map[], map[], Running)
    {
      recoveryAttempts, completedTasks, failedTasks := [], [], [];
      taskResults, verifications, state := map[], map[], Running;
    }

    ghost function View(): Ledger
      reads this
    {
      Ledger(completedTasks, failedTasks, taskResults, verifications, state)
    }

    /** Files the outcomes gathered from one wave. */
    method RecordWave(wave: seq<string>, outcomes: map<string, Outcome>)
      requires forall t :: t in wave ==> t in outcomes
      modifies this
      ensures View() == RecordAll(old(View()), wave, outcomes)
      ensures recoveryAttempts == old(recoveryAttempts)
    {
      for i := 0 to |wave|
        invariant View() == RecordAll(old(View()), wave[..i], outcomes)
        invariant recoveryAttempts == old(recoveryAttempts)
      {
        var t, o := wave[i], outcomes[wave[i]];
        assert wave[..i + 1][..i] == wave[..i];
        taskResults, verifications := taskResults[t := o.result], verifications[t := o.verdict];
        if o.verdict == VerdictPassed {
          completedTasks := completedTasks + [t];
        } else {
          failedTasks := failedTasks + [t];
          state := Failed;
        }
      }
      assert wave[..|wave|] == wave;
    }
  }
}
