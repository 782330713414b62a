/** The orchestrator as the objects it mutates: each stretch of code between two awaits is a step of the machine. */
module AgentOrchestrators {
  import opened AgentModels
  import opened Recovery
  import opened Verifier
  import opened Orchestrator

  class AgentOrchestrator {
    const setup: Setup
    const order: seq<string>
    const engine: RecoveryEngine
    const run: AgentRun
    const tasks: map<string, AgentTask>
    var phase: Phase
    var wave: nat
    var coroutines: map<string, Coroutine>
    var cancelled: bool
    ghost var calls: map<string, nat>

    /** One task object an id; the plan's order lists the ids. */
    ghost predicate Valid()
      reads this
    {
      && tasks.Keys == setup.g.Keys && (forall t :: t in order <==> t in setup.g)
      && (forall t :: t in tasks ==> tasks[t].id == t)
      && engine.budget == setup.budget
    }

    ghost function Retries(): map<string, int>
      reads this, tasks.Values
    {
      map t | t in tasks :: tasks[t].retryCount
    }

    ghost function AsState(): State
      reads this, run, tasks.Values
    {
      State(phase, wave, coroutines, Retries(), run.recoveryAttempts, run.View(), cancelled, calls)
    }

    constructor (setup: Setup, order: seq<string>, engine: RecoveryEngine, run: AgentRun, tasks: map<string, AgentTask>,
                 cancelled: bool)
      requires tasks.Keys == setup.g.Keys && (forall t :: t in order <==> t in setup.g)
      requires forall t :: t in tasks ==> tasks[t].id == t
      requires engine.budget == setup.budget
      ensures Valid() && this.setup == setup && this.order == order && this.run == run && this.tasks == tasks
      ensures AsState() == State(Stopping, 0, map[], map t | t in tasks :: tasks[t].retryCount, run.recoveryAttempts,
                                 run.View(), cancelled, map t | t in setup.g :: 0)
    {
      this.setup, this.order, this.engine, this.run, this.tasks := setup, order, engine, run, tasks;
      this.phase, this.wave, this.coroutines, this.cancelled := Stopping, 0, map[], cancelled;
      this.calls := map t | t in setup.g :: 0;
    }

    /** The final evaluation, after the wave loop. */
    method FinishRun()
      requires Valid()
      modifies this`phase, this`coroutines, run`state
      ensures AsState() == Finish(setup, old(AsState()))
    {
      if run.state != Failed && run.state != Cancelled {
        var passed := VerifyPlan(order, run.verifications);
        run.state := if passed then Completed else Failed;
      }
      phase, coroutines := Finished, map[];
    }

    /** The top of the wave loop. */
    method EnterWave()
      requires Valid()
      modifies this`phase, this`coroutines, run`state
      ensures AsState() == Enter(setup, old(AsState()))
    {
      if wave >= |setup.waves| {
        FinishRun();
      } else if cancelled {
        run.state := Cancelled;
        phase, coroutines := Stopping, map[];
      } else {
        phase, coroutines := InWave, Created(setup.waves[wave]);
      }
    }

    /** All coroutines of the wave have returned: their outcomes are filed, and a failure ends the loop. */
    method GatherWave()
      requires Valid() && Enabled(setup, AsState(), Gather)
      modifies this`phase, this`wave, this`coroutines, run
      ensures AsState() == Apply(setup, old(AsState()), Gather)
    {
      FileWave();
      LeaveWave();
    }

    method FileWave()
      requires Enabled(setup, AsState(), Gather)
      modifies this`wave, this`coroutines, run
      ensures AsState() ==
                Gathered(old(AsState()), RecordAll(old(run.View()), setup.waves[old(wave)], Outcomes(old(coroutines))))
    {
      run.RecordWave(setup.waves[wave], Outcomes(coroutines));
      wave, coroutines := wave + 1, map[];
    }

    /** The bottom of the wave loop. */
    method LeaveWave()
      requires Valid()
      modifies this`phase, this`coroutines, run`state
      ensures AsState() == Leave(setup, old(AsState()))
    {
      if run.state == Failed {
        FinishRun();
      } else {
        EnterWave();
      }
    }

    method CallExecutor(t: string)
      modifies this`coroutines, this`calls
      ensures AsState() == Call(old(AsState()), t)
    {
      coroutines := coroutines[t := Executing];
      calls := calls[t := 1 + if t in calls then calls[t] else 0];
    }

    method StartTask(t: string)
      requires Enabled(setup, AsState(), Start(t))
      modifies this`coroutines, this`calls
      ensures AsState() == Apply(setup, old(AsState()), Start(t))
    {
      CallExecutor(t);
    }

    method OnExecuted(t: string, result: StepResult)
      requires Enabled(setup, AsState(), Return(t, result))
      modifies this`coroutines
      ensures AsState() == Apply(setup, old(AsState()), Return(t, result))
    {
      coroutines := coroutines[t := Executed(result)];
    }

    method VerifyResult(t: string, world: World)
      requires Enabled(setup, AsState(), Verify(t, world))
      modifies this`coroutines
      ensures AsState() == Apply(setup, old(AsState()), Verify(t, world))
    {
      var result := coroutines[t].result;
      var verification, _ := VerifyStep(world, t, setup.artifacts[t], result);
      coroutines := coroutines[t := Verified(result, verification.verdict)];
    }

    /** A passed task is done; for any other the recovery engine decides, charging task object and run object. */
    method SettleTask(t: string, notes: string)
      requires Valid() && Enabled(setup, AsState(), Settle(t, notes))
      modifies this`coroutines, run`recoveryAttempts, tasks.Values
      ensures AsState() == Apply(setup, old(AsState()), Settle(t, notes))
    {
      var k := coroutines[t];
      if k.verdict == VerdictPassed {
        coroutines := coroutines[t := Done(k.result, k.verdict)];
      } else {
        ghost var before := Retries();
        var action := engine.EvaluateFailure(tasks[t], notes, run);
        assert Retries() == before[t := tasks[t].retryCount];
        coroutines := coroutines[t := Recovering(k.result, k.verdict, action)];
      }
    }

    /** RETRYING goes round the loop again; anything else gives the task up. */
    method ContinueTask(t: string)
      requires Enabled(setup, AsState(), Continue(t))
      modifies this`coroutines, this`calls
      ensures AsState() == Apply(setup, old(AsState()), Continue(t))
    {
      var k := coroutines[t];
      if k.action == Retrying {
        CallExecutor(t);
      } else {
        coroutines := coroutines[t := Done(k.result, k.verdict)];
      }
    }

    method StopRun()
      requires Valid() && Enabled(setup, AsState(), Stop)
      modifies this`phase, this`coroutines, run`state
      ensures AsState() == Apply(setup, old(AsState()), Stop)
    {
      FinishRun();
    }

    method CancelRun()
      modifies this`cancelled, run`state
      ensures AsState() == Apply(setup, old(AsState()), Cancel)
    {
      cancelled := true;
      run.state := Cancelled;
    }

    method PauseRun()
      modifies run`state
      ensures AsState() == Apply(setup, old(AsState()), Pause)
    {
      run.state := Paused;
    }

    /** `found`: the store holds a checkpoint, which shares the run object; without one there is nothing to resume. */
    method ResumeRun(found: bool) returns (resumed: bool)
      modifies this`cancelled, run`state
      ensures resumed == found
      ensures AsState() == if found then Apply(setup, old(AsState()), Resume) else old(AsState())
    {
      resumed := found;
      if found {
        cancelled := false;
        run.state := AgentState.Running;
      }
    }
  }
}
