/** The orchestrator as a step-interleaving machine: one label per stretch of code between two awaits. */
module Orchestrator {
  import opened Prelude
  import opened TaskGraph
  import opened AgentModels
  import opened Recovery
  import opened Verifier

  /** What is fixed once a plan has been validated. */
  datatype Setup = Setup(
    g: Graph,
    waves: seq<seq<string>>,
    level: map<string, nat>,
    artifacts: map<string, seq<string>>,
    initialRetries: map<string, int>,
    budget: Budget)

  ghost predicate ValidSetup(c: Setup) {
    && Closed(c.g) && Layered(c.g, c.waves, c.level) && c.level.Keys == c.g.Keys
    && c.artifacts.Keys == c.g.Keys && c.initialRetries.Keys == c.g.Keys
  }

  /** Where the coroutine of one task stands. */
  datatype Coroutine =
    | Ready
    | Executing
    | Executed(result: StepResult)
    | Verified(result: StepResult, verdict: Verdict)
    | Recovering(result: StepResult, verdict: Verdict, action: RecoveryState)
    | Done(result: StepResult, verdict: Verdict)

  /** `Stopping`: cancellation was seen at a wave boundary and the loop is about to be left. */
  datatype Phase = InWave | Stopping | Finished

  /** `calls` counts executor calls per task; it is history only. */
  datatype State = State(
    phase: Phase,
    wave: nat,
    co: map<string, Coroutine>,
    retries: map<string, int>,
    attempts: seq<Attempt>,
    ledger: Ledger,
    cancelled: bool,
    calls: map<string, nat>)

  datatype Label =
    | Start(t: string)
    | Return(t: string, result: StepResult)
    | Verify(t: string, world: World)
    | Settle(t: string, notes: string)
    | Continue(t: string)
    | Gather
    | Stop
    | Cancel
    | Pause
    | Resume

  predicate External(l: Label) {
    l.Cancel? || l.Pause? || l.Resume?
  }

  /** Labels that call the executor. */
  predicate Calls(s: State, l: Label) {
    l.Start? || (l.Continue? && l.t in s.co && s.co[l.t].Recovering? && s.co[l.t].action == Retrying)
  }

  // ---------- transitions ----------

  ghost predicate AllPassed(c: Setup, verdicts: map<string, Verdict>) {
    forall t :: t in c.g ==> t in verdicts && verdicts[t] == VerdictPassed
  }

  /** Leaves the wave loop and evaluates the final state. */
  ghost function Finish(c: Setup, s: State): State {
    var status :=
      if s.ledger.status == Failed || s.ledger.status == Cancelled then s.ledger.status
      else if AllPassed(c, s.ledger.verdicts) then Completed else Failed;
    s.(phase := Finished, co := map[], ledger := s.ledger.(status := status))
  }

  /** The coroutines of a wave, before any of them runs. */
  function Created(wave: seq<string>): map<string, Coroutine> {
    map t | t in wave :: Ready
  }

  /** The top of the wave loop, for the wave `s.wave`. */
  ghost function Enter(c: Setup, s: State): State {
    if s.wave >= |c.waves| then Finish(c, s)
    else if s.cancelled then s.(phase := Stopping, co := map[], ledger := s.ledger.(status := Cancelled))
    else s.(phase := InWave, co := Created(c.waves[s.wave]))
  }

  /** The bottom of the wave loop: a failure ends it. */
  ghost function Leave(c: Setup, s: State): State {
    if s.ledger.status == Failed then Finish(c, s) else Enter(c, s)
  }

  function Gathered(s: State, l: Ledger): State {
    s.(ledger := l, wave := s.wave + 1, co := map[])
  }

  ghost function Init(c: Setup, cancelled: bool): State {
    Enter(c, State(Stopping, 0, map[], c.initialRetries, [], Ledger([], [], map[], map[], Running), cancelled,
                   map t | t in c.g :: 0))
  }

  function Outcomes(co: map<string, Coroutine>): map<string, Outcome> {
    map t | t in co && co[t].Done? :: Outcome(co[t].result, co[t].verdict)
  }

  ghost predicate Enabled(c: Setup, s: State, l: Label) {
    match l
    case Start(t) => s.phase == InWave && t in s.co && s.co[t].Ready?
    case Return(t, _) => s.phase == InWave && t in s.co && s.co[t].Executing?
    case Verify(t, _) => s.phase == InWave && t in s.co && s.co[t].Executed? && t in c.artifacts
    case Settle(t, _) => s.phase == InWave && t in s.co && s.co[t].Verified? && t in s.retries
    case Continue(t) => s.phase == InWave && t in s.co && s.co[t].Recovering?
    case Gather =>
      s.phase == InWave && s.wave < |c.waves| && forall t :: t in c.waves[s.wave] ==> t in s.co && s.co[t].Done?
    case Stop => s.phase == Stopping
    case Cancel => true
    case Pause => true
    case Resume => true
  }

  function Call(s: State, t: string): State {
    s.(co := s.co[t := Executing], calls := s.calls[t := 1 + if t in s.calls then s.calls[t] else 0])
  }

  /** A failed verification is charged to the task and to the run. */
  function Charge(c: Setup, s: State, t: string, notes: string): State
    requires t in s.co && s.co[t].Verified? && t in s.retries
  {
    var d := Decide(c.budget, t, notes, s.retries[t], s.attempts);
    s.(co := s.co[t := Recovering(s.co[t].result, s.co[t].verdict, d.action)],
       retries := s.retries[t := d.retryCount],
       attempts := d.attempts)
  }

  ghost function Apply(c: Setup, s: State, l: Label): State
    requires Enabled(c, s, l)
  {
    match l
    case Start(t) => Call(s, t)
    case Return(t, r) => s.(co := s.co[t := Executed(r)])
    case Verify(t, w) =>
      var r := s.co[t].result;
      s.(co := s.co[t := Verified(r, Judge(w, c.artifacts[t], r))])
    case Settle(t, notes) =>
      var Verified(r, v) := s.co[t];
      if v == VerdictPassed then s.(co := s.co[t := Done(r, v)]) else Charge(c, s, t, notes)
    case Continue(t) =>
      var Recovering(r, v, a) := s.co[t];
      if a == Retrying then Call(s, t) else s.(co := s.co[t := Done(r, v)])
    case Gather =>
      Leave(c, Gathered(s, RecordAll(s.ledger, c.waves[s.wave], Outcomes(s.co))))
    case Stop => Finish(c, s)
    case Cancel => s.(cancelled := true, ledger := s.ledger.(status := Cancelled))
    case Pause => s.(ledger := s.ledger.(status := Paused))
    case Resume => s.(cancelled := false, ledger := s.ledger.(status := Running))
  }

  /** A label calls the executor exactly if the task is one call further after it, and executing. */
  lemma CallsAreCounted(c: Setup, s: State, l: Label)
    requires Enabled(c, s, l) && s.calls.Keys == c.g.Keys && s.co.Keys <= c.g.Keys
    ensures Calls(s, l) ==>
              Apply(c, s, l).calls == s.calls[l.t := s.calls[l.t] + 1] && Apply(c, s, l).co[l.t] == Executing
    ensures !Calls(s, l) ==> Apply(c, s, l).calls == s.calls
  {
  }

  /** The state after a run, if every label was enabled in turn. */
  ghost function Run(c: Setup, s: State, ls: seq<Label>): Option<State>
    decreases |ls|
  {
    if ls == [] then Some(s)
    else if Enabled(c, s, ls[0]) then Run(c, Apply(c, s, ls[0]), ls[1..])
    else None
  }

  // ---------- invariant ----------

  /** The number of waves whose coroutines were created. */
  function Started(s: State): nat {
    if s.phase == InWave then s.wave + 1 else s.wave
  }

  /** Only what did not pass is up for recovery. */
  predicate CoroutineOk(k: Coroutine) {
    k.Recovering? ==> k.verdict != VerdictPassed
  }

  ghost predicate Shape(c: Setup, s: State) {
    && s.wave <= |c.waves|
    && (s.phase != Finished ==> s.wave < |c.waves|)
    && (s.phase == InWave ==> forall t :: t in s.co <==> t in c.waves[s.wave])
    && (s.phase != InWave ==> s.co == map[])
    && (forall t :: t in s.co ==> CoroutineOk(s.co[t]))
  }

  /** Every recorded verdict files its task as completed or as failed, once. */
  ghost predicate Consistent(l: Ledger) {
    && l.results.Keys == l.verdicts.Keys
    && Distinct(l.completed) && Distinct(l.failed)
    && (forall t :: t in l.completed <==> t in l.verdicts && l.verdicts[t] == VerdictPassed)
    && (forall t :: t in l.failed <==> t in l.verdicts && l.verdicts[t] != VerdictPassed)
  }

  /** The ledger covers exactly the first `n` waves. */
  ghost predicate Books(c: Setup, l: Ledger, n: nat) {
    && Consistent(l)
    && (forall t :: t in l.verdicts <==> t in c.level && c.level[t] < n)
  }

  /** Failures stop the run: they can only sit in the last wave gathered. */
  ghost predicate FailFast(c: Setup, s: State) {
    && (s.phase != Finished ==> s.ledger.failed == [] && s.ledger.status != Failed)
    && (forall t :: t in s.ledger.failed ==> t in c.level && c.level[t] == s.wave - 1)
  }

  /** Executor calls of task `t` so far, from where it stands. */
  ghost function CallsDue(c: Setup, s: State, t: string): int
    requires t in c.level && t in s.retries && t in c.initialRetries
  {
    var retried := s.retries[t] - c.initialRetries[t];
    if t in s.co then
      if s.co[t].Ready? then 0
      else if s.co[t].Recovering? && s.co[t].action == Retrying then retried
      else 1 + retried
    else if c.level[t] < s.wave then 1 + retried
    else 0
  }

  ghost predicate TaskAccount(c: Setup, s: State, t: string)
    requires t in c.level && t in s.retries && t in s.calls && t in c.initialRetries
  {
    && s.retries[t] - c.initialRetries[t] == RetriesOf(s.attempts, t)
    && s.retries[t] <= Max(c.initialRetries[t], c.budget.maxStepRetries)
    && s.calls[t] == CallsDue(c, s, t)
    && (s.calls[t] == 0 ==> s.retries[t] == c.initialRetries[t])
  }

  ghost predicate Accounts(c: Setup, s: State) {
    && c.level.Keys == c.initialRetries.Keys == s.retries.Keys == s.calls.Keys
    && WithinBudget(c.budget, s.attempts)
    && (forall a :: a in s.attempts ==> a.taskId in c.level)
    && forall t :: t in c.level ==> TaskAccount(c, s, t)
  }

  ghost predicate Inv(c: Setup, s: State) {
    Shape(c, s) && Books(c, s.ledger, s.wave) && FailFast(c, s) && Accounts(c, s)
  }

  // ---------- recording a wave ----------

  lemma RecordOneKeeps(l: Ledger, t: string, o: Outcome)
    requires Consistent(l) && t !in l.verdicts
    ensures Consistent(RecordOne(l, t, o))
  {
    var l' := RecordOne(l, t, o);
    assert t !in l.completed && t !in l.failed;
    AppendFresh(l.completed, t);
    AppendFresh(l.failed, t);
  }

  lemma AppendFresh(s: seq<string>, t: string)
    requires Distinct(s) && t !in s
    ensures Distinct(s + [t]) && forall u :: u in s + [t] <==> u in s || u == t
  {
  }

  lemma {:induction false} RecordAllKeeps(l: Ledger, wave: seq<string>, outcomes: map<string, Outcome>)
    requires Consistent(l) && Distinct(wave)
    requires forall t :: t in wave ==> t in outcomes && t !in l.verdicts
    ensures var l' := RecordAll(l, wave, outcomes);
            && Consistent(l')
            && (forall t :: t in l'.verdicts <==> t in l.verdicts || t in wave)
            && (forall t :: t in l.verdicts ==> l'.verdicts[t] == l.verdicts[t])
            && (forall t :: t in l.verdicts ==> l'.results[t] == l.results[t])
            && (forall t :: t in wave ==> l'.verdicts[t] == outcomes[t].verdict && l'.results[t] == outcomes[t].result)
            && (l'.status == l.status || l'.status == Failed)
            && (l'.status == Failed <==>
                  l.status == Failed || exists t :: t in wave && outcomes[t].verdict != VerdictPassed)
    decreases |wave|
  {
    if wave != [] {
      var n := |wave| - 1;
      var rest := wave[..n];
      assert wave == rest + [wave[n]];
      RecordAllKeeps(l, rest, outcomes);
      assert wave[n] !in rest;
      var mid := RecordAll(l, rest, outcomes);
      RecordOneKeeps(mid, wave[n], outcomes[wave[n]]);
    }
  }

  // ---------- every step keeps the invariant ----------

  /** Everything the account of `t` looks at is the same in both states. */
  ghost predicate SameAccount(c: Setup, s: State, s': State, t: string)
    requires t in c.level && t in c.initialRetries && t in s.retries && t in s.calls && t in s'.retries && t in s'.calls
  {
    && s'.retries[t] == s.retries[t] && s'.calls[t] == s.calls[t]
    && RetriesOf(s'.attempts, t) == RetriesOf(s.attempts, t)
    && CallsDue(c, s', t) == CallsDue(c, s, t)
  }

  lemma AccountsCarryOver(c: Setup, s: State, s': State)
    requires Accounts(c, s) && s'.retries.Keys == s'.calls.Keys == c.level.Keys
    requires WithinBudget(c.budget, s'.attempts)
    requires forall a :: a in s'.attempts ==> a.taskId in c.level
    requires forall t :: t in c.level ==> SameAccount(c, s, s', t) || TaskAccount(c, s', t)
    ensures Accounts(c, s')
  {
    forall t | t in c.level
      ensures TaskAccount(c, s', t)
    {
      assert TaskAccount(c, s, t);
      assert SameAccount(c, s, s', t) || TaskAccount(c, s', t);
    }
  }

  /** A state between two waves: nothing in flight, nothing failed. */
  ghost predicate Between(c: Setup, s: State) {
    && s.wave <= |c.waves| && s.co == map[]
    && Books(c, s.ledger, s.wave) && s.ledger.failed == [] && s.ledger.status != Failed
    && Accounts(c, s)
  }

  lemma FinishKeeps(c: Setup, s: State)
    requires s.wave <= |c.waves| && Books(c, s.ledger, s.wave) && Accounts(c, s.(co := map[]))
    requires forall t :: t in s.ledger.failed ==> t in c.level && c.level[t] == s.wave - 1
    ensures Inv(c, Finish(c, s))
  {
    AccountsCarryOver(c, s.(co := map[]), Finish(c, s));
    BooksIgnoreStatus(c, s.ledger, Finish(c, s).ledger, s.wave);
  }

  lemma BooksIgnoreStatus(c: Setup, l: Ledger, l': Ledger, n: nat)
    requires Books(c, l, n) && l' == l.(status := l'.status)
    ensures Books(c, l', n)
  {
  }

  lemma EnterKeeps(c: Setup, s: State)
    requires ValidSetup(c) && Between(c, s)
    ensures Inv(c, Enter(c, s))
  {
    var s' := Enter(c, s);
    if s.wave >= |c.waves| {
      assert s.(co := map[]) == s;
      FinishKeeps(c, s);
    } else {
      assert ListsLevel(c.waves[s.wave], c.level, s.wave);
      EnterWave(c, s);
    }
  }

  lemma EnterWave(c: Setup, s: State)
    requires Between(c, s) && s.wave < |c.waves| && ListsLevel(c.waves[s.wave], c.level, s.wave)
    ensures Inv(c, Enter(c, s))
  {
    EnterAccounts(c, s);
    BooksIgnoreStatus(c, s.ledger, Enter(c, s).ledger, s.wave);
  }

  lemma EnterAccounts(c: Setup, s: State)
    requires s.wave < |c.waves| && s.co == map[] && Accounts(c, s)
    requires ListsLevel(c.waves[s.wave], c.level, s.wave)
    ensures Accounts(c, Enter(c, s))
  {
    var s' := Enter(c, s);
    forall t | t in c.level
      ensures SameAccount(c, s, s', t)
    {
      assert TaskAccount(c, s, t);
    }
    AccountsCarryOver(c, s, s');
  }

  lemma InitInv(c: Setup, cancelled: bool)
    requires ValidSetup(c)
    ensures Inv(c, Init(c, cancelled))
  {
    EnterKeeps(c, State(Stopping, 0, map[], c.initialRetries, [], Ledger([], [], map[], map[], Running), cancelled,
                        map t | t in c.g :: 0));
  }

  lemma ShapeMove(c: Setup, s: State, t: string, k: Coroutine)
    requires Shape(c, s) && s.phase == InWave && t in s.co && CoroutineOk(k)
    ensures Shape(c, s.(co := s.co[t := k]))
  {
  }

  /** Steps of one coroutine that neither retry nor call anything. */
  lemma AccountsMove(c: Setup, s: State, t: string, k: Coroutine)
    requires Accounts(c, s) && t in s.co
    requires !s.co[t].Ready? && !k.Ready?
    requires !(s.co[t].Recovering? && s.co[t].action == Retrying) && !(k.Recovering? && k.action == Retrying)
    ensures Accounts(c, s.(co := s.co[t := k]))
  {
    var s' := s.(co := s.co[t := k]);
    forall u | u in c.level
      ensures SameAccount(c, s, s', u)
    {
    }
    AccountsCarryOver(c, s, s');
  }

  lemma AccountsCall(c: Setup, s: State, t: string)
    requires Accounts(c, s) && t in s.co && t in c.level
    requires s.co[t].Ready? || (s.co[t].Recovering? && s.co[t].action == Retrying)
    ensures Accounts(c, Call(s, t))
  {
    var s' := Call(s, t);
    forall u | u in c.level
      ensures SameAccount(c, s, s', u) || TaskAccount(c, s', u)
    {
      if u == t {
        CallAccount(c, s, t);
      }
    }
    AccountsCarryOver(c, s, s');
  }

  lemma CallAccount(c: Setup, s: State, t: string)
    requires Accounts(c, s) && t in s.co && t in c.level
    requires s.co[t].Ready? || (s.co[t].Recovering? && s.co[t].action == Retrying)
    ensures TaskAccount(c, Call(s, t), t)
  {
    assert TaskAccount(c, s, t);
    var s' := Call(s, t);
    assert s'.co[t] == Executing && s'.calls[t] == s.calls[t] + 1;
  }

  lemma SettleAccount(c: Setup, s: State, t: string, notes: string)
    requires Accounts(c, s) && t in c.level && t in s.co && s.co[t].Verified?
    ensures TaskAccount(c, Charge(c, s, t, notes), t)
  {
    DecideKeepsBudget(c.budget, t, notes, s.retries[t], s.attempts);
    assert TaskAccount(c, s, t);
  }

  lemma SettleOthers(c: Setup, s: State, t: string, notes: string, u: string)
    requires Accounts(c, s) && t in c.level && t in s.co && s.co[t].Verified?
    requires u in c.level && u != t
    ensures SameAccount(c, s, Charge(c, s, t, notes), u)
  {
    DecideKeepsBudget(c.budget, t, notes, s.retries[t], s.attempts);
  }

  lemma SettleRecords(c: Setup, s: State, t: string, notes: string)
    requires WithinBudget(c.budget, s.attempts) && (forall a :: a in s.attempts ==> a.taskId in c.level)
    requires t in c.level && t in s.co && s.co[t].Verified? && t in s.retries
    ensures var attempts := Charge(c, s, t, notes).attempts;
            WithinBudget(c.budget, attempts) && forall a :: a in attempts ==> a.taskId in c.level
  {
    DecideKeepsBudget(c.budget, t, notes, s.retries[t], s.attempts);
  }

  lemma AccountsSettle(c: Setup, s: State, t: string, notes: string)
    requires Accounts(c, s) && t in c.level && t in s.co && s.co[t].Verified?
    ensures Accounts(c, Charge(c, s, t, notes))
  {
    var s' := Charge(c, s, t, notes);
    SettleRecords(c, s, t, notes);
    forall u | u in c.level
      ensures SameAccount(c, s, s', u) || TaskAccount(c, s', u)
    {
      if u == t {
        SettleAccount(c, s, t, notes);
      } else {
        SettleOthers(c, s, t, notes, u);
      }
    }
    AccountsCarryOver(c, s, s');
  }

  lemma AccountsGather(c: Setup, s: State, ledger: Ledger)
    requires Accounts(c, s) && Shape(c, s) && Enabled(c, s, Gather)
    requires ListsLevel(c.waves[s.wave], c.level, s.wave)
    ensures Accounts(c, Gathered(s, ledger))
  {
    var s' := Gathered(s, ledger);
    forall t | t in c.level
      ensures SameAccount(c, s, s', t)
    {
      assert t in s.co <==> c.level[t] == s.wave;
    }
    AccountsCarryOver(c, s, s');
  }

  /** The books after a gathered wave. */
  lemma BooksGather(c: Setup, s: State)
    requires Shape(c, s) && Books(c, s.ledger, s.wave) && s.ledger.failed == [] && s.ledger.status != Failed
    requires Enabled(c, s, Gather) && ListsLevel(c.waves[s.wave], c.level, s.wave)
    ensures var l := RecordAll(s.ledger, c.waves[s.wave], Outcomes(s.co));
            && Books(c, l, s.wave + 1)
            && (forall t :: t in l.failed ==> t in c.level && c.level[t] == s.wave)
            && (l.status == Failed <==> l.failed != [])
            && l.status in {s.ledger.status, Failed}
  {
    var wave, outcomes := c.waves[s.wave], Outcomes(s.co);
    RecordAllKeeps(s.ledger, wave, outcomes);
    var l := RecordAll(s.ledger, wave, outcomes);
    forall t | t in l.failed
      ensures t in c.level && c.level[t] == s.wave && l.status == Failed
    {
      assert t !in s.ledger.failed;
      assert t in wave;
    }
    if l.status == Failed {
      var t :| t in wave && outcomes[t].verdict != VerdictPassed;
      assert t in l.failed;
    }
    if l.failed != [] {
      assert l.failed[0] in l.failed;
    }
  }

  lemma AfterGather(c: Setup, s: State)
    requires ValidSetup(c) && s.wave <= |c.waves| && s.co == map[]
    requires Books(c, s.ledger, s.wave) && Accounts(c, s)
    requires forall t :: t in s.ledger.failed ==> t in c.level && c.level[t] == s.wave - 1
    requires s.ledger.status == Failed <==> s.ledger.failed != []
    ensures Inv(c, Leave(c, s))
  {
    if s.ledger.status == Failed {
      assert s.(co := map[]) == s;
      FinishKeeps(c, s);
    } else {
      EnterKeeps(c, s);
    }
  }

  lemma GatherKeeps(c: Setup, s: State)
    requires ValidSetup(c) && Inv(c, s) && Enabled(c, s, Gather)
    ensures Inv(c, Leave(c, Gathered(s, RecordAll(s.ledger, c.waves[s.wave], Outcomes(s.co)))))
  {
    assert ListsLevel(c.waves[s.wave], c.level, s.wave);
    BooksGather(c, s);
    var l := RecordAll(s.ledger, c.waves[s.wave], Outcomes(s.co));
    AccountsGather(c, s, l);
    AfterGather(c, Gathered(s, l));
  }

  /** Cancelling, pausing and resuming touch only flags. */
  lemma FlagsKeep(c: Setup, s: State, cancelled: bool, status: AgentState)
    requires Inv(c, s) && status != Failed
    ensures Inv(c, s.(cancelled := cancelled, ledger := s.ledger.(status := status)))
  {
    var s' := s.(cancelled := cancelled, ledger := s.ledger.(status := status));
    BooksIgnoreStatus(c, s.ledger, s'.ledger, s.wave);
    AccountsCarryOver(c, s, s');
  }

  lemma MoveKeeps(c: Setup, s: State, t: string, k: Coroutine)
    requires Inv(c, s) && s.phase == InWave && t in s.co && CoroutineOk(k)
    requires !s.co[t].Ready? && !k.Ready?
    requires !(s.co[t].Recovering? && s.co[t].action == Retrying) && !(k.Recovering? && k.action == Retrying)
    ensures Inv(c, s.(co := s.co[t := k]))
  {
    ShapeMove(c, s, t, k);
    AccountsMove(c, s, t, k);
  }

  lemma CallKeeps(c: Setup, s: State, t: string)
    requires ValidSetup(c) && Inv(c, s) && s.phase == InWave && t in s.co
    requires s.co[t].Ready? || (s.co[t].Recovering? && s.co[t].action == Retrying)
    ensures Inv(c, Call(s, t))
  {
    assert ListsLevel(c.waves[s.wave], c.level, s.wave);
    AccountsCall(c, s, t);
    ShapeMove(c, s, t, Executing);
  }

  lemma SettleKeeps(c: Setup, s: State, t: string, notes: string)
    requires ValidSetup(c) && Inv(c, s) && s.phase == InWave && t in s.co && s.co[t].Verified? && t in s.retries
    requires s.co[t].verdict != VerdictPassed
    ensures Inv(c, Charge(c, s, t, notes))
  {
    assert ListsLevel(c.waves[s.wave], c.level, s.wave);
    AccountsSettle(c, s, t, notes);
    ShapeMove(c, s, t, Charge(c, s, t, notes).co[t]);
  }

  lemma StepKeeps(c: Setup, s: State, l: Label)
    requires ValidSetup(c) && Inv(c, s) && Enabled(c, s, l)
    ensures Inv(c, Apply(c, s, l))
  {
    match l
    case Start(t) => CallKeeps(c, s, t);
    case Return(t, r) => MoveKeeps(c, s, t, Executed(r));
    case Verify(t, w) =>
      var r := s.co[t].result;
      MoveKeeps(c, s, t, Verified(r, Judge(w, c.artifacts[t], r)));
    case Settle(t, notes) =>
      if s.co[t].verdict == VerdictPassed {
        MoveKeeps(c, s, t, Done(s.co[t].result, s.co[t].verdict));
      } else {
        SettleKeeps(c, s, t, notes);
      }
    case Continue(t) =>
      if s.co[t].action == Retrying {
        CallKeeps(c, s, t);
      } else {
        MoveKeeps(c, s, t, Done(s.co[t].result, s.co[t].verdict));
      }
    case Gather => GatherKeeps(c, s);
    case Stop =>
      assert s.(co := map[]) == s;
      FinishKeeps(c, s);
    case Cancel => FlagsKeep(c, s, true, Cancelled);
    case Pause => FlagsKeep(c, s, s.cancelled, Paused);
    case Resume => FlagsKeep(c, s, false, Running);
  }

  lemma {:induction false} RunKeeps(c: Setup, s: State, ls: seq<Label>)
    requires ValidSetup(c) && Inv(c, s)
    ensures Run(c, s, ls).Some? ==> Inv(c, Run(c, s, ls).value)
    decreases |ls|
  {
    if ls != [] && Enabled(c, s, ls[0]) {
      StepKeeps(c, s, ls[0]);
      RunKeeps(c, Apply(c, s, ls[0]), ls[1..]);
    }
  }
}
