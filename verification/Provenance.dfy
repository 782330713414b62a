/** Where the recorded results and verdicts of a run come from, traced to the labels of that run. */
module Provenance {
  import opened Prelude
  import opened TaskGraph
  import opened AgentModels
  import opened Verifier
  import opened Orchestrator

  predicate Concerns(l: Label, t: string) {
    (l.Return? || l.Verify?) && l.t == t
  }

  /** Label `j` is the executor's last answer for `t` in `ls`, and it is `r`. */
  ghost predicate LastReturn(ls: seq<Label>, t: string, r: StepResult, j: int) {
    && 0 <= j < |ls| && ls[j] == Return(t, r)
    && forall k :: j < k < |ls| ==> !(ls[k].Return? && ls[k].t == t)
  }

  /** Label `i` is the last verification of `t` in `ls`, and in the world it saw the verdict on `r` is `v`. */
  ghost predicate LastVerdict(c: Setup, ls: seq<Label>, t: string, r: StepResult, v: Verdict, i: int) {
    && 0 <= i < |ls| && ls[i].Verify? && ls[i].t == t && t in c.artifacts
    && Judge(ls[i].world, c.artifacts[t], r) == v
    && forall k :: i < k < |ls| ==> !(ls[k].Verify? && ls[k].t == t)
  }

  /** The last answer for `t` is `r`, and the verification after it gave `v`. */
  ghost predicate Attested(c: Setup, ls: seq<Label>, t: string, r: StepResult, v: Verdict) {
    exists j, i :: LastReturn(ls, t, r, j) && LastVerdict(c, ls, t, r, v, i) && j < i
  }

  ghost predicate CoroutineTraced(c: Setup, ls: seq<Label>, t: string, k: Coroutine) {
    match k
    case Ready => true
    case Executing => true
    case Executed(r) => exists j :: LastReturn(ls, t, r, j)
    case Verified(r, v) => Attested(c, ls, t, r, v)
    case Recovering(r, v, _) => Attested(c, ls, t, r, v)
    case Done(r, v) => Attested(c, ls, t, r, v)
  }

  ghost predicate LedgerTraced(c: Setup, ls: seq<Label>, l: Ledger) {
    forall t :: t in l.verdicts ==> t in l.results && Attested(c, ls, t, l.results[t], l.verdicts[t])
  }

  /** After the labels `ls`, everything the state knows about results is what these labels said. */
  ghost predicate Traced(c: Setup, ls: seq<Label>, s: State) {
    LedgerTraced(c, ls, s.ledger) && forall t :: t in s.co ==> CoroutineTraced(c, ls, t, s.co[t])
  }

  lemma LastReturnStays(ls: seq<Label>, l: Label, t: string, r: StepResult, j: int)
    requires LastReturn(ls, t, r, j) && !(l.Return? && l.t == t)
    ensures LastReturn(ls + [l], t, r, j)
  {
  }

  lemma LastVerdictStays(c: Setup, ls: seq<Label>, l: Label, t: string, r: StepResult, v: Verdict, i: int)
    requires LastVerdict(c, ls, t, r, v, i) && !(l.Verify? && l.t == t)
    ensures LastVerdict(c, ls + [l], t, r, v, i)
  {
  }

  lemma AttestedStays(c: Setup, ls: seq<Label>, l: Label, t: string, r: StepResult, v: Verdict)
    requires Attested(c, ls, t, r, v) && !Concerns(l, t)
    ensures Attested(c, ls + [l], t, r, v)
  {
    var j, i :| LastReturn(ls, t, r, j) && LastVerdict(c, ls, t, r, v, i) && j < i;
    LastReturnStays(ls, l, t, r, j);
    LastVerdictStays(c, ls, l, t, r, v, i);
  }

  lemma CoroutineStays(c: Setup, ls: seq<Label>, l: Label, t: string, k: Coroutine)
    requires CoroutineTraced(c, ls, t, k) && !Concerns(l, t)
    ensures CoroutineTraced(c, ls + [l], t, k)
  {
    match k
    case Ready =>
    case Executing =>
    case Executed(r) =>
      var j :| LastReturn(ls, t, r, j);
      LastReturnStays(ls, l, t, r, j);
    case Verified(r, v) => AttestedStays(c, ls, l, t, r, v);
    case Recovering(r, v, _) => AttestedStays(c, ls, l, t, r, v);
    case Done(r, v) => AttestedStays(c, ls, l, t, r, v);
  }

  lemma LedgerStays(c: Setup, ls: seq<Label>, l: Label, ledger: Ledger)
    requires LedgerTraced(c, ls, ledger) && forall t :: t in ledger.verdicts ==> !Concerns(l, t)
    ensures LedgerTraced(c, ls + [l], ledger)
  {
    forall t | t in ledger.verdicts
      ensures t in ledger.results && Attested(c, ls + [l], t, ledger.results[t], ledger.verdicts[t])
    {
      AttestedStays(c, ls, l, t, ledger.results[t], ledger.verdicts[t]);
    }
  }

  lemma ReturnTraced(c: Setup, ls: seq<Label>, t: string, r: StepResult)
    ensures CoroutineTraced(c, ls + [Return(t, r)], t, Executed(r))
  {
    assert LastReturn(ls + [Return(t, r)], t, r, |ls|);
  }

  lemma VerifyTraced(c: Setup, ls: seq<Label>, t: string, r: StepResult, w: World)
    requires CoroutineTraced(c, ls, t, Executed(r)) && t in c.artifacts
    ensures CoroutineTraced(c, ls + [Verify(t, w)], t, Orchestrator.Verified(r, Judge(w, c.artifacts[t], r)))
  {
    var j :| LastReturn(ls, t, r, j);
    LastReturnStays(ls, Verify(t, w), t, r, j);
    assert LastVerdict(c, ls + [Verify(t, w)], t, r, Judge(w, c.artifacts[t], r), |ls|);
  }

  /** A step of one coroutine: it is traced anew, and nobody else is concerned. */
  lemma MoveTraced(c: Setup, ls: seq<Label>, s: State, l: Label, t: string, k: Coroutine)
    requires Traced(c, ls, s) && CoroutineTraced(c, ls + [l], t, k)
    requires forall u :: u != t ==> !Concerns(l, u)
    requires Concerns(l, t) ==> t !in s.ledger.verdicts
    ensures Traced(c, ls + [l], s.(co := s.co[t := k]))
  {
    LedgerStays(c, ls, l, s.ledger);
    var co := s.co[t := k];
    forall u | u in co
      ensures CoroutineTraced(c, ls + [l], u, co[u])
    {
      if u != t {
        CoroutineStays(c, ls, l, u, s.co[u]);
      }
    }
  }

  /** Gathering files what the coroutines ended with. */
  lemma GatherTraced(c: Setup, ls: seq<Label>, s: State, wave: seq<string>)
    requires Traced(c, ls, s) && Consistent(s.ledger) && Distinct(wave)
    requires forall t :: t in wave ==> t in s.co && s.co[t].Done? && t !in s.ledger.verdicts
    ensures LedgerTraced(c, ls + [Gather], RecordAll(s.ledger, wave, Outcomes(s.co)))
  {
    var outcomes := Outcomes(s.co);
    RecordAllKeeps(s.ledger, wave, outcomes);
    var l := RecordAll(s.ledger, wave, outcomes);
    forall t | t in l.verdicts
      ensures t in l.results && Attested(c, ls + [Gather], t, l.results[t], l.verdicts[t])
    {
      if t in wave {
        assert CoroutineTraced(c, ls, t, s.co[t]);
      }
      AttestedStays(c, ls, Gather, t, l.results[t], l.verdicts[t]);
    }
  }

  /** Leaving a wave creates fresh coroutines, or none, and files nothing. */
  lemma LeaveTraced(c: Setup, ls: seq<Label>, s: State)
    requires LedgerTraced(c, ls, s.ledger) && s.co == map[]
    ensures Traced(c, ls, Leave(c, s))
  {
  }

  /** No task of the wave under way has been filed. */
  lemma WaveIsUnfiled(c: Setup, s: State)
    requires Inv(c, s) && ValidSetup(c)
    ensures forall t :: t in s.co ==> t !in s.ledger.verdicts
    ensures s.phase == InWave ==>
              Distinct(c.waves[s.wave]) && forall t :: t in c.waves[s.wave] ==> t !in s.ledger.verdicts
  {
    if s.phase == InWave {
      assert ListsLevel(c.waves[s.wave], c.level, s.wave);
    }
  }

  lemma AnswerTraced(c: Setup, ls: seq<Label>, s: State, t: string, r: StepResult)
    requires Traced(c, ls, s) && t !in s.ledger.verdicts
    ensures Traced(c, ls + [Return(t, r)], s.(co := s.co[t := Executed(r)]))
  {
    ReturnTraced(c, ls, t, r);
    MoveTraced(c, ls, s, Return(t, r), t, Executed(r));
  }

  lemma VerdictTraced(c: Setup, ls: seq<Label>, s: State, t: string, w: World)
    requires Traced(c, ls, s) && t !in s.ledger.verdicts && t in s.co && s.co[t].Executed? && t in c.artifacts
    ensures var r := s.co[t].result;
            Traced(c, ls + [Verify(t, w)], s.(co := s.co[t := Orchestrator.Verified(r, Judge(w, c.artifacts[t], r))]))
  {
    var r := s.co[t].result;
    assert CoroutineTraced(c, ls, t, s.co[t]);
    VerifyTraced(c, ls, t, r, w);
    MoveTraced(c, ls, s, Verify(t, w), t, Orchestrator.Verified(r, Judge(w, c.artifacts[t], r)));
  }

  /** Recovery carries result and verdict on, or drops both for another call. */
  lemma CarryTraced(c: Setup, ls: seq<Label>, s: State, s': State, l: Label, t: string, k: Coroutine)
    requires Traced(c, ls, s) && t in s.co && (l.Settle? || l.Continue?)
    requires s.co[t].Verified? || s.co[t].Recovering?
    requires k.Executing? || ((k.Recovering? || k.Done?) && k.result == s.co[t].result && k.verdict == s.co[t].verdict)
    requires s'.ledger == s.ledger && s'.co == s.co[t := k]
    ensures Traced(c, ls + [l], s')
  {
    assert CoroutineTraced(c, ls, t, s.co[t]);
    CoroutineStays(c, ls, l, t, s.co[t]);
    MoveTraced(c, ls, s, l, t, k);
  }

  lemma GatherStepTraced(c: Setup, ls: seq<Label>, s: State)
    requires Traced(c, ls, s) && Enabled(c, s, Gather) && Consistent(s.ledger) && Distinct(c.waves[s.wave])
    requires forall t :: t in c.waves[s.wave] ==> t !in s.ledger.verdicts
    ensures Traced(c, ls + [Gather], Apply(c, s, Gather))
  {
    GatherTraced(c, ls, s, c.waves[s.wave]);
    LeaveTraced(c, ls + [Gather], Gathered(s, RecordAll(s.ledger, c.waves[s.wave], Outcomes(s.co))));
  }

  lemma RecoveryTraced(c: Setup, ls: seq<Label>, s: State, l: Label)
    requires Traced(c, ls, s) && Enabled(c, s, l) && (l.Settle? || l.Continue?)
    ensures Traced(c, ls + [l], Apply(c, s, l))
  {
    var s' := Apply(c, s, l);
    CarryTraced(c, ls, s, s', l, l.t, s'.co[l.t]);
  }

  lemma StepTraced(c: Setup, ls: seq<Label>, s: State, l: Label)
    requires ValidSetup(c) && Inv(c, s) && Traced(c, ls, s) && Enabled(c, s, l)
    ensures Traced(c, ls + [l], Apply(c, s, l))
  {
    WaveIsUnfiled(c, s);
    match l
    case Start(t) => MoveTraced(c, ls, s, l, t, Executing);
    case Return(t, r) => AnswerTraced(c, ls, s, t, r);
    case Verify(t, w) => VerdictTraced(c, ls, s, t, w);
    case Settle(_, _) => RecoveryTraced(c, ls, s, l);
    case Continue(_) => RecoveryTraced(c, ls, s, l);
    case Gather => GatherStepTraced(c, ls, s);
    case _ => QuietTraced(c, ls, s, l);
  }

  /** Leaving the loop and the requests from outside touch neither results nor verdicts. */
  lemma QuietTraced(c: Setup, ls: seq<Label>, s: State, l: Label)
    requires Traced(c, ls, s) && Enabled(c, s, l) && (External(l) || l.Stop?)
    ensures Traced(c, ls + [l], Apply(c, s, l))
  {
    LedgerStays(c, ls, l, s.ledger);
    forall t | t in s.co
      ensures CoroutineTraced(c, ls + [l], t, s.co[t])
    {
      CoroutineStays(c, ls, l, t, s.co[t]);
    }
  }

  lemma {:induction false} LastStep(c: Setup, s: State, ls: seq<Label>)
    requires ls != [] && Run(c, s, ls).Some?
    ensures var n := |ls| - 1;
            var before := Run(c, s, ls[..n]);
            before.Some? && Enabled(c, before.value, ls[n]) && Run(c, s, ls).value == Apply(c, before.value, ls[n])
    decreases |ls|
  {
    var n := |ls| - 1;
    if n > 0 {
      assert ls[1..][..n - 1] == ls[..n][1..];
      LastStep(c, Apply(c, s, ls[0]), ls[1..]);
    } else {
      assert ls[..0] == [] && ls[1..] == [];
    }
  }

  lemma {:induction false} RunTraced(c: Setup, s: State, ls: seq<Label>)
    requires ValidSetup(c) && Inv(c, s) && Traced(c, [], s) && Run(c, s, ls).Some?
    ensures Traced(c, ls, Run(c, s, ls).value)
    decreases |ls|
  {
    if ls != [] {
      var n := |ls| - 1;
      LastStep(c, s, ls);
      RunTraced(c, s, ls[..n]);
      RunKeeps(c, s, ls[..n]);
      StepTraced(c, ls[..n], Run(c, s, ls[..n]).value, ls[n]);
      assert ls == ls[..n] + [ls[n]];
    }
  }

  /** Every filed result is the last one the executor returned for its task, and every filed verdict is the verifier's
      on that result, in the world it saw when it last looked. */
  lemma FiledMeansWitnessed(c: Setup, cancelled: bool, ls: seq<Label>, s: State)
    requires ValidSetup(c) && Run(c, Init(c, cancelled), ls) == Some(s)
    ensures LedgerTraced(c, ls, s.ledger)
  {
    InitInv(c, cancelled);
    assert Traced(c, [], Init(c, cancelled));
    RunTraced(c, Init(c, cancelled), ls);
  }
}
