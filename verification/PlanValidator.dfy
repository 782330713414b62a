/** Structural checks and Kahn's algorithm, turning a task list into execution waves. */
module PlanValidation {
  import opened Prelude
  import opened TaskGraph

  datatype PlanTask = PlanTask(
    id: string,
    dependencies: seq<string>,
    assignedAgent: string,
    requiredTools: seq<string>,
    artifacts: seq<string>,
    retryCount: int)

  datatype PlanError =
    | EmptyPlan
    | TooManySteps
    | EmptyId
    | DuplicateId(id: string)
    | SelfDependency(id: string)
    | MissingDependency(id: string, dependency: string)
    | UnregisteredAgent(id: string, agent: string)
    | DisabledAgent(id: string, agent: string)
    | UnregisteredTool(id: string, tool: string)
    | DisabledTool(id: string, tool: string)
    | CircularDependency(ids: seq<string>)

  /** A registry maps a name to whether it is enabled; `None` when the validator has no registry. */
  type Registry = Option<map<string, bool>>

  predicate Available(r: Registry, name: string) {
    r.Some? ==> name in r.value && r.value[name]
  }

  function Ids(plan: seq<PlanTask>): (ids: seq<string>)
    ensures |ids| == |plan| && forall i :: 0 <= i < |plan| ==> ids[i] == plan[i].id
  {
    seq(|plan|, i requires 0 <= i < |plan| => plan[i].id)
  }

  ghost predicate DependenciesOk(plan: seq<PlanTask>, t: PlanTask) {
    forall d :: d in t.dependencies ==> d != t.id && d in Ids(plan)
  }

  ghost predicate TaskOk(plan: seq<PlanTask>, agents: Registry, tools: Registry, t: PlanTask) {
    && DependenciesOk(plan, t)
    && Available(agents, t.assignedAgent)
    && forall tool :: tool in t.requiredTools ==> Available(tools, tool)
  }

  ghost predicate IdsOk(plan: seq<PlanTask>) {
    Distinct(Ids(plan)) && forall i :: 0 <= i < |plan| ==> plan[i].id != ""
  }

  ghost predicate WellFormed(plan: seq<PlanTask>, maxSteps: int, agents: Registry, tools: Registry) {
    && 0 < |plan| <= maxSteps
    && IdsOk(plan)
    && forall t :: t in plan ==> TaskOk(plan, agents, tools, t)
  }

  /** The first defect of task `t`, in the order the checks are made. */
  ghost predicate TaskDefect(plan: seq<PlanTask>, agents: Registry, tools: Registry, t: PlanTask, e: PlanError) {
    match e
    case SelfDependency(id) =>
      && id == t.id
      && exists k :: 0 <= k < |t.dependencies| && t.dependencies[k] == id &&
           forall j :: 0 <= j < k ==> t.dependencies[j] != id && t.dependencies[j] in Ids(plan)
    case MissingDependency(id, d) =>
      && id == t.id && d != id && d !in Ids(plan)
      && exists k :: 0 <= k < |t.dependencies| && t.dependencies[k] == d &&
           forall j :: 0 <= j < k ==> t.dependencies[j] != id && t.dependencies[j] in Ids(plan)
    case UnregisteredAgent(id, a) =>
      && id == t.id && DependenciesOk(plan, t)
      && a == t.assignedAgent && agents.Some? && a !in agents.value
    case DisabledAgent(id, a) =>
      && id == t.id && DependenciesOk(plan, t)
      && a == t.assignedAgent && agents.Some? && a in agents.value && !agents.value[a]
    case UnregisteredTool(id, x) =>
      && id == t.id && DependenciesOk(plan, t) && Available(agents, t.assignedAgent)
      && tools.Some? && x !in tools.value
      && exists k :: 0 <= k < |t.requiredTools| && t.requiredTools[k] == x &&
           forall j :: 0 <= j < k ==> Available(tools, t.requiredTools[j])
    case DisabledTool(id, x) =>
      && id == t.id && DependenciesOk(plan, t) && Available(agents, t.assignedAgent)
      && tools.Some? && x in tools.value && !tools.value[x]
      && exists k :: 0 <= k < |t.requiredTools| && t.requiredTools[k] == x &&
           forall j :: 0 <= j < k ==> Available(tools, t.requiredTools[j])
    case _ => false
  }

  /** `e` names the first structural defect of the plan. */
  ghost predicate PlanDefect(plan: seq<PlanTask>, maxSteps: int, agents: Registry, tools: Registry, e: PlanError) {
    match e
    case EmptyPlan => plan == []
    case TooManySteps => plan != [] && |plan| > maxSteps
    case EmptyId =>
      && 0 < |plan| <= maxSteps
      && exists i :: 0 <= i < |plan| && plan[i].id == "" && IdsOk(plan[..i])
    case DuplicateId(id) =>
      && 0 < |plan| <= maxSteps && id != ""
      && exists i :: 0 <= i < |plan| && plan[i].id == id && id in Ids(plan[..i]) && IdsOk(plan[..i])
    case CircularDependency(_) => false
    case _ =>
      && 0 < |plan| <= maxSteps && IdsOk(plan)
      && exists i :: 0 <= i < |plan| && TaskDefect(plan, agents, tools, plan[i], e) &&
           forall j :: 0 <= j < i ==> TaskOk(plan, agents, tools, plan[j])
  }

  ghost predicate IsGraphOf(plan: seq<PlanTask>, g: Graph) {
    && g.Keys == (set t | t in plan :: t.id)
    && forall t :: t in plan ==> g[t.id] == t.dependencies
  }

  // ---------- counting open dependencies ----------

  /** How many entries of `deps` are not yet in `finished`. */
  function Open(deps: seq<string>, finished: set<string>): nat {
    if deps == [] then 0
    else (if deps[0] in finished then 0 else 1) + Open(deps[1..], finished)
  }

  lemma {:induction false} OpenInit(deps: seq<string>)
    ensures Open(deps, {}) == |deps|
  {
    if deps != [] { OpenInit(deps[1..]); }
  }

  lemma {:induction false} OpenFinish(deps: seq<string>, finished: set<string>, d: string)
    requires d !in finished
    ensures Open(deps, finished + {d}) == Open(deps, finished) - multiset(deps)[d]
  {
    if deps != [] {
      assert deps == [deps[0]] + deps[1..];
      OpenFinish(deps[1..], finished, d);
    }
  }

  lemma {:induction false} OpenZero(deps: seq<string>, finished: set<string>)
    ensures Open(deps, finished) == 0 <==> forall d :: d in deps ==> d in finished
  {
    if deps != [] {
      assert deps == [deps[0]] + deps[1..];
      OpenZero(deps[1..], finished);
    }
  }

  function Lookup(m: map<string, seq<string>>, k: string): seq<string> {
    if k in m then m[k] else []
  }

  /** `dependents[d]` lists `t` as often as `t` lists `d`, for the tasks `t` of `among`. */
  ghost predicate Inverts(dependents: map<string, seq<string>>, g: Graph, among: set<string>) {
    forall d, t :: multiset(Lookup(dependents, d))[t] == if t in among && t in g then multiset(g[t])[d] else 0
  }

  /** Registers one task with everything it depends on. */
  method AddDependent(dependents: map<string, seq<string>>, t: string, deps: seq<string>)
    returns (dependents': map<string, seq<string>>)
    ensures forall d, u :: multiset(Lookup(dependents', d))[u] ==
              multiset(Lookup(dependents, d))[u] + if u == t then multiset(deps)[d] else 0
  {
    dependents' := dependents;
    for k := 0 to |deps|
      invariant forall d, u :: multiset(Lookup(dependents', d))[u] ==
                  multiset(Lookup(dependents, d))[u] + if u == t then multiset(deps[..k])[d] else 0
    {
      var dep := deps[k];
      assert deps[..k + 1] == deps[..k] + [dep];
      dependents' := dependents'[dep := Lookup(dependents', dep) + [t]];
    }
    assert deps[..|deps|] == deps;
  }

  method BuildDependents(order: seq<string>, g: Graph) returns (dependents: map<string, seq<string>>)
    requires Distinct(order) && (forall t :: t in order <==> t in g)
    ensures Inverts(dependents, g, g.Keys)
  {
    dependents := map[];
    ghost var added := {};
    for i := 0 to |order|
      invariant added == set t | t in order[..i]
      invariant Inverts(dependents, g, added)
    {
      var t := order[i];
      assert order[..i + 1] == order[..i] + [t];
      assert t !in added;
      dependents := AddDependent(dependents, t, g[t]);
      added := added + {t};
    }
    assert order[..|order|] == order;
    assert added == g.Keys;
  }

  // ---------- Kahn's algorithm ----------

  /** Loop state: `finished` tasks have released their dependents; `next` holds the tasks just freed. */
  ghost predicate Releasing(g: Graph, inDegree: map<string, int>, finished: set<string>,
                            level: map<string, nat>, next: seq<string>) {
    && inDegree.Keys == g.Keys
    && (forall t :: t in g ==> inDegree[t] == Open(g[t], finished))
    && Frees(g, inDegree, level, next)
  }

  /** `inDegree` still counts the entries of `pending`, on top of what `degree` says. */
  ghost predicate Pending(g: Graph, inDegree: map<string, int>, degree: map<string, int>, pending: multiset<string>) {
    && inDegree.Keys == g.Keys && degree.Keys == g.Keys
    && forall t :: t in g ==> inDegree[t] == degree[t] + pending[t]
  }

  /** `freed` collects the tasks outside `level` whose in-degree has reached zero. */
  ghost predicate Frees(g: Graph, inDegree: map<string, int>, level: map<string, nat>, freed: seq<string>) {
    && inDegree.Keys == g.Keys
    && Distinct(freed)
    && (forall t :: t in g ==> (inDegree[t] == 0 <==> t in level || t in freed))
    && (forall t :: t in freed ==> t in g && t !in level)
  }

  method Decrement(g: Graph, target: string, inDegree: map<string, int>, next: seq<string>,
                   ghost level: map<string, nat>, ghost degree: map<string, int>, ghost rest: multiset<string>)
    returns (inDegree': map<string, int>, next': seq<string>)
    requires target in g && Frees(g, inDegree, level, next)
    requires Pending(g, inDegree, degree, rest + multiset{target}) && degree[target] >= 0
    ensures Frees(g, inDegree', level, next') && Pending(g, inDegree', degree, rest)
  {
    inDegree', next' := inDegree[target := inDegree[target] - 1], next;
    if inDegree'[target] == 0 {
      next' := next' + [target];
    }
  }

  method DecrementAll(g: Graph, targets: seq<string>, inDegree: map<string, int>, next: seq<string>,
                      ghost level: map<string, nat>, ghost degree: map<string, int>)
    returns (inDegree': map<string, int>, next': seq<string>)
    requires forall t :: t in targets ==> t in g
    requires Frees(g, inDegree, level, next) && Pending(g, inDegree, degree, multiset(targets))
    requires forall t :: t in g ==> degree[t] >= 0
    ensures Frees(g, inDegree', level, next') && Pending(g, inDegree', degree, multiset{})
  {
    inDegree', next' := inDegree, next;
    assert targets[0..] == targets;
    for k := 0 to |targets|
      invariant Frees(g, inDegree', level, next') && Pending(g, inDegree', degree, multiset(targets[k..]))
    {
      assert targets[k..] == [targets[k]] + targets[k + 1..];
      assert multiset(targets[k..]) == multiset(targets[k + 1..]) + multiset{targets[k]};
      inDegree', next' := Decrement(g, targets[k], inDegree', next', level, degree, multiset(targets[k + 1..]));
    }
  }

  /** Releases the dependents of one finished task. */
  method Release(g: Graph, dependents: map<string, seq<string>>, d: string, inDegree: map<string, int>,
                 next: seq<string>, ghost finished: set<string>, ghost level: map<string, nat>)
    returns (inDegree': map<string, int>, next': seq<string>)
    requires Inverts(dependents, g, g.Keys)
    requires Releasing(g, inDegree, finished, level, next) && d !in finished
    ensures Releasing(g, inDegree', finished + {d}, level, next')
  {
    inDegree', next' := inDegree, next;
    var targets := Lookup(dependents, d);
    ghost var degree: map<string, int> := map t | t in g :: Open(g[t], finished + {d});
    forall t | t in g
      ensures inDegree[t] == degree[t] + multiset(targets)[t]
    {
      OpenFinish(g[t], finished, d);
      assert multiset(targets)[t] == multiset(g[t])[d];
    }
    forall t | t in targets
      ensures t in g
    {
      assert multiset(targets)[t] > 0;
    }
    assert Pending(g, inDegree, degree, multiset(targets));
    inDegree', next' := DecrementAll(g, targets, inDegree, next, level, degree);
  }

  /** Processes one whole wave. */
  method ReleaseWave(g: Graph, dependents: map<string, seq<string>>, wave: seq<string>, inDegree: map<string, int>,
                     ghost finished: set<string>, ghost level: map<string, nat>)
    returns (inDegree': map<string, int>, next: seq<string>)
    requires Inverts(dependents, g, g.Keys)
    requires Releasing(g, inDegree, finished, level, [])
    requires Distinct(wave) && forall t :: t in wave ==> t !in finished
    ensures Releasing(g, inDegree', finished + (set t | t in wave), level, next)
  {
    inDegree', next := inDegree, [];
    ghost var done := finished;
    for j := 0 to |wave|
      invariant done == finished + (set t | t in wave[..j])
      invariant Releasing(g, inDegree', done, level, next)
    {
      assert wave[..j + 1] == wave[..j] + [wave[j]];
      assert wave[j] !in done;
      inDegree', next := Release(g, dependents, wave[j], inDegree', next, done, level);
      done := done + {wave[j]};
    }
    assert wave[..|wave|] == wave;
  }

  /** `waves` are complete and `current` is the next one, holding the tasks of level `|waves|`. */
  ghost predicate Progress(g: Graph, waves: seq<seq<string>>, current: seq<string>, level: map<string, nat>) {
    && Longest(g, level)
    && (forall t :: t in level ==> level[t] <= |waves|)
    && ListsLevel(current, level, |waves|)
    && (forall i {:trigger ListsLevel(waves[i], level, i)} :: 0 <= i < |waves| ==>
          ListsLevel(waves[i], level, i))
    && (forall i :: 0 <= i < |waves| ==> waves[i] != [])
  }

  ghost function Finished(level: map<string, nat>, n: nat): set<string> {
    set t | t in level && level[t] < n
  }

  /** `level` with the tasks of `next` put on level `n`. */
  ghost function Extend(level: map<string, nat>, next: seq<string>, n: nat): (level': map<string, nat>)
    requires forall t :: t in next ==> t !in level
    requires forall t :: t in level ==> level[t] < n
    ensures Finished(level', n) == level.Keys
    ensures forall t :: t in level' <==> t in level || t in next
    ensures forall t :: t in level ==> level'[t] == level[t]
    ensures forall t :: t in next ==> level'[t] == n
  {
    level + map t | t in next :: n
  }

  /** A task freed by the wave of level `n` depends on that wave, and on nothing later. */
  lemma FreedByWave(g: Graph, n: nat, level: map<string, nat>, next: seq<string>,
                    degree: map<string, int>, degree': map<string, int>, t: string)
    requires forall u :: u in level ==> level[u] <= n
    requires Releasing(g, degree, Finished(level, n), level, [])
    requires Releasing(g, degree', level.Keys, level, next)
    requires t in next
    ensures forall d :: d in g[t] ==> d in level
    ensures exists d :: d in g[t] && d in level && level[d] == n
  {
    OpenZero(g[t], level.Keys);
    OpenZero(g[t], Finished(level, n));
    assert degree[t] != 0 && degree'[t] == 0;
  }

  lemma NextRests(g: Graph, n: nat, level: map<string, nat>, next: seq<string>, t: string)
    requires Longest(g, level) && (forall u :: u in level ==> level[u] <= n)
    requires forall u :: u in next ==> u in g && u !in level
    requires t in next ==> exists d :: d in g[t] && d in level && level[d] == n
    requires t in level || t in next
    ensures RestsOnPrevious(g, Extend(level, next, n + 1), t)
  {
    var level' := Extend(level, next, n + 1);
    if t in next {
      var d :| d in g[t] && d in level && level[d] == n;
      assert level'[d] == n;
    } else {
      assert RestsOnPrevious(g, level, t);
      if level[t] > 0 {
        var d :| d in g[t] && d in level && level[d] == level[t] - 1;
        assert level'[d] == level[d];
      }
    }
  }

  lemma NextLongest(g: Graph, n: nat, level: map<string, nat>, next: seq<string>)
    requires Longest(g, level) && (forall u :: u in level ==> level[u] <= n)
    requires forall t :: t in next ==> t in g && t !in level
    requires forall t, d :: t in next && d in g[t] ==> d in level
    requires forall t :: t in next ==> exists d :: d in g[t] && d in level && level[d] == n
    ensures Longest(g, Extend(level, next, n + 1))
  {
    var level' := Extend(level, next, n + 1);
    forall t, d | t in level' && d in g[t]
      ensures d in level' && level'[d] < level'[t]
    {
      assert t in next ==> d in level;
    }
    forall t | t in level'
      ensures RestsOnPrevious(g, level', t)
    {
      NextRests(g, n, level, next, t);
    }
  }

  /** Waves listed under `level` stay listed when deeper levels are added. */
  lemma WavesStay(waves: seq<seq<string>>, level: map<string, nat>, level': map<string, nat>, i: nat)
    requires i < |waves| && ListsLevel(waves[i], level, i)
    requires forall t :: t in level ==> t in level' && level'[t] == level[t]
    requires forall t :: t in level' && t !in level ==> level'[t] > i
    ensures ListsLevel(waves[i], level', i)
  {
  }

  /** The tasks freed by the wave of level `n` form level `n + 1`. */
  lemma NextLevel(g: Graph, waves: seq<seq<string>>, current: seq<string>, level: map<string, nat>, next: seq<string>)
    requires Progress(g, waves, current, level) && current != []
    requires Distinct(next) && forall t :: t in next ==> t !in level
    requires Longest(g, Extend(level, next, |waves| + 1))
    ensures Progress(g, waves + [current], next, Extend(level, next, |waves| + 1))
  {
    var n := |waves|;
    var level' := Extend(level, next, n + 1);
    var waves' := waves + [current];
    forall i | 0 <= i < |waves'|
      ensures waves'[i] != [] && ListsLevel(waves'[i], level', i)
    {
      assert i < n ==> ListsLevel(waves[i], level, i);
      WavesStay(waves', level, level', i);
    }
  }

  /** The next wave is disjoint from what has finished, and completes it to the levelled tasks. */
  lemma WaveIsNew(g: Graph, waves: seq<seq<string>>, current: seq<string>, level: map<string, nat>)
    requires Progress(g, waves, current, level) && current != []
    ensures var finished := Finished(level, |waves|);
            && (forall t :: t in current ==> t !in finished)
            && finished + (set t | t in current) == level.Keys
            && |finished| + |current| == |level.Keys|
            && g.Keys - level.Keys < g.Keys - finished
  {
    var finished := Finished(level, |waves|);
    var wave := set t | t in current;
    CardinalityOfDistinct(current);
    assert finished !! wave && finished + wave == level.Keys;
    assert current[0] in current && current[0] in g.Keys - finished;
  }

  /** One iteration of the wave loop. */
  method RunWave(g: Graph, dependents: map<string, seq<string>>, waves: seq<seq<string>>, current: seq<string>,
                 inDegree: map<string, int>, ghost level: map<string, nat>)
    returns (waves': seq<seq<string>>, next: seq<string>, inDegree': map<string, int>, ghost level': map<string, nat>)
    requires Inverts(dependents, g, g.Keys) && current != []
    requires Progress(g, waves, current, level)
    requires Releasing(g, inDegree, Finished(level, |waves|), level, [])
    ensures waves' == waves + [current]
    ensures Progress(g, waves', next, level')
    ensures Finished(level', |waves'|) == level.Keys
    ensures Releasing(g, inDegree', Finished(level', |waves'|), level', [])
  {
    ghost var n := |waves|;
    WaveIsNew(g, waves, current, level);
    inDegree', next := ReleaseWave(g, dependents, current, inDegree, Finished(level, n), level);
    forall t | t in next
      ensures forall d :: d in g[t] ==> d in level
      ensures exists d :: d in g[t] && d in level && level[d] == n
    {
      FreedByWave(g, n, level, next, inDegree, inDegree', t);
    }
    NextLongest(g, n, level, next);
    NextLevel(g, waves, current, level, next);
    waves', level' := waves + [current], Extend(level, next, n + 1);
  }

  method Sources(order: seq<string>, inDegree: map<string, int>) returns (current: seq<string>)
    requires Distinct(order) && forall t :: t in order ==> t in inDegree
    ensures Distinct(current) && forall t :: t in current <==> t in order && inDegree[t] == 0
  {
    current := [];
    for i := 0 to |order|
      invariant Distinct(current)
      invariant forall t :: t in current <==> t in order[..i] && inDegree[t] == 0
    {
      assert order[..i + 1] == order[..i] + [order[i]];
      if inDegree[order[i]] == 0 {
        current := current + [order[i]];
      }
    }
    assert order[..|order|] == order;
  }

  lemma SourcesStart(g: Graph, current: seq<string>, level: map<string, nat>, inDegree: map<string, int>)
    requires Distinct(current) && level == Extend(map[], current, 0)
    requires inDegree == map t | t in g :: |g[t]|
    requires forall t :: t in current <==> t in g && inDegree[t] == 0
    ensures Progress(g, [], current, level)
    ensures Releasing(g, inDegree, Finished(level, 0), level, [])
  {
    forall t | t in g
      ensures Open(g[t], Finished(level, 0)) == |g[t]|
    {
      assert Finished(level, 0) == {};
      OpenInit(g[t]);
    }
    assert forall t :: t in level ==> RestsOnPrevious(g, level, t);
  }

  lemma UnlevelledWaits(g: Graph, finished: set<string>, inDegree: map<string, int>, t: string)
    requires Closed(g) && t in g && t in inDegree
    requires inDegree[t] == Open(g[t], finished) && inDegree[t] != 0
    ensures WaitsFor(g, g.Keys - finished, t)
  {
    OpenZero(g[t], finished);
    var d :| d in g[t] && d !in finished;
    assert d in g.Keys - finished;
  }

  lemma ProgressEnds(g: Graph, waves: seq<seq<string>>, level: map<string, nat>)
    requires Progress(g, waves, [], level)
    ensures Finished(level, |waves|) == level.Keys && Layered(g, waves, level)
  {
    assert ListsLevel([], level, |waves|);
  }

  /** When a wave comes out empty, the levelled tasks are done and every other task waits for an unlevelled one. */
  lemma AfterLastWave(g: Graph, waves: seq<seq<string>>, level: map<string, nat>, inDegree: map<string, int>)
    requires Progress(g, waves, [], level)
    requires Releasing(g, inDegree, Finished(level, |waves|), level, [])
    requires Closed(g)
    ensures Finished(level, |waves|) == level.Keys
    ensures Layered(g, waves, level)
    ensures forall t :: t in g ==> inDegree[t] >= 0 && (inDegree[t] > 0 <==> t !in level)
    ensures forall t :: t in g && t !in level ==> WaitsFor(g, g.Keys - level.Keys, t)
  {
    ProgressEnds(g, waves, level);
    forall t | t in g && t !in level
      ensures WaitsFor(g, g.Keys - level.Keys, t)
    {
      UnlevelledWaits(g, level.Keys, inDegree, t);
    }
  }

  /** Runs the wave loop. The levelled tasks are the processed ones; each remaining task waits for a remaining one. */
  method Kahn(order: seq<string>, g: Graph)
    returns (waves: seq<seq<string>>, inDegree: map<string, int>, processed: nat, ghost level: map<string, nat>)
    requires Closed(g) && Distinct(order) && (forall t :: t in order <==> t in g)
    ensures Layered(g, waves, level)
    ensures inDegree.Keys == g.Keys
    ensures forall t :: t in g ==> inDegree[t] >= 0 && (inDegree[t] > 0 <==> t !in level)
    ensures forall t :: t in g && t !in level ==> WaitsFor(g, g.Keys - level.Keys, t)
    ensures processed == |level|
  {
    inDegree := map t | t in g :: |g[t]|;
    var dependents := BuildDependents(order, g);
    var current := Sources(order, inDegree);
    waves, processed := [], 0;
    level := Extend(map[], current, 0);
    SourcesStart(g, current, level, inDegree);
    while current != []
      invariant Progress(g, waves, current, level)
      invariant Releasing(g, inDegree, Finished(level, |waves|), level, [])
      invariant processed == |Finished(level, |waves|)|
      decreases g.Keys - Finished(level, |waves|)
    {
      WaveIsNew(g, waves, current, level);
      processed := processed + |current|;
      waves, current, inDegree, level := RunWave(g, dependents, waves, current, inDegree, level);
    }
    AfterLastWave(g, waves, level, inDegree);
  }

  lemma {:induction false} CardinalityOfDistinct(s: seq<string>)
    requires Distinct(s)
    ensures |set t | t in s| == |s|
  {
    if s != [] {
      var rest := s[1..];
      CardinalityOfDistinct(rest);
      assert s == [s[0]] + rest;
      assert s[0] !in rest;
      assert (set t | t in s) == {s[0]} + (set t | t in rest);
    }
  }

  /** Reports the tasks whose in-degree stayed positive, in plan order. */
  method Leftover(order: seq<string>, g: Graph, inDegree: map<string, int>, ghost level: map<string, nat>)
    returns (cycle: seq<string>)
    requires (forall t :: t in order <==> t in g) && inDegree.Keys == g.Keys
    requires forall t :: t in g ==> (inDegree[t] > 0 <==> t !in level)
    requires forall t :: t in g ==> (t in level <==> !Stuck(g, t))
    ensures cycle == Filter(order, id => id !in level)
    ensures forall t :: t in cycle <==> t in g && Stuck(g, t)
  {
    cycle := [];
    for i := 0 to |order|
      invariant cycle == Filter(order[..i], id => id !in level)
    {
      assert order[..i + 1] == order[..i] + [order[i]];
      FilterConcat(order[..i], [order[i]], id => id !in level);
      if inDegree[order[i]] > 0 {
        cycle := cycle + [order[i]];
      }
    }
    assert order[..|order|] == order;
    forall t
      ensures t in cycle <==> t in g && Stuck(g, t)
    {
      FilterMember(order, id => id !in level, t);
    }
  }

  lemma ExtendIds(plan: seq<PlanTask>, t: PlanTask)
    requires IdsOk(plan) && t.id != "" && forall u :: u in plan ==> u.id != t.id
    ensures IdsOk(plan + [t])
  {
    var ids := Ids(plan + [t]);
    assert forall i :: 0 <= i < |plan| ==> ids[i] == Ids(plan)[i] && ids[i] == plan[i].id && plan[i] in plan;
  }

  lemma RepeatedId(plan: seq<PlanTask>, i: nat)
    requires i < |plan| && exists t :: t in plan[..i] && t.id == plan[i].id
    ensures plan[i].id in Ids(plan[..i]) && !IdsOk(plan)
  {
    var t :| t in plan[..i] && t.id == plan[i].id;
    var j :| 0 <= j < i && plan[j] == t;
    assert Ids(plan[..i])[j] == plan[i].id;
    assert Ids(plan)[j] == Ids(plan)[i];
  }

  // ---------- the validator ----------

  class PlanValidator {
    const maxSteps: int
    const agents: Registry
    const tools: Registry

    constructor (maxSteps: int, agents: Registry, tools: Registry)
      ensures this.maxSteps == maxSteps && this.agents == agents && this.tools == tools
    {
      this.maxSteps, this.agents, this.tools := maxSteps, agents, tools;
    }

    /** Unique, non-empty ids; the task map on success. */
    method CheckIds(plan: seq<PlanTask>) returns (r: Result<map<string, PlanTask>, PlanError>)
      requires 0 < |plan| <= maxSteps
      ensures r.Ok? <==> IdsOk(plan)
      ensures r.Ok? ==> r.value.Keys == (set t | t in plan :: t.id) && forall t :: t in plan ==> r.value[t.id] == t
      ensures r.Err? ==> PlanDefect(plan, maxSteps, agents, tools, r.error)
      ensures r.Err? ==> r.error.EmptyId? || r.error.DuplicateId?
    {
      var taskMap := map[];
      for i := 0 to |plan|
        invariant IdsOk(plan[..i])
        invariant taskMap.Keys == set t | t in plan[..i] :: t.id
        invariant forall t :: t in plan[..i] ==> taskMap[t.id] == t
      {
        var task := plan[i];
        var upTo := plan[..i];
        assert plan[..i + 1] == upTo + [task];
        if task.id == "" {
          assert Ids(plan)[i] == "";
          return Err(EmptyId);
        }
        if task.id in taskMap {
          RepeatedId(plan, i);
          return Err(DuplicateId(task.id));
        }
        ExtendIds(upTo, task);
        taskMap := taskMap[task.id := task];
      }
      assert plan[..|plan|] == plan;
      r := Ok(taskMap);
    }

    /** Dependencies first, then the agent, then the tools. */
    method CheckTask(plan: seq<PlanTask>, taskMap: map<string, PlanTask>, t: PlanTask) returns (e: Option<PlanError>)
      requires taskMap.Keys == set u | u in plan :: u.id
      ensures e.None? <==> TaskOk(plan, agents, tools, t)
      ensures e.Some? ==> TaskDefect(plan, agents, tools, t, e.value)
    {
      assert forall d :: d in taskMap <==> d in Ids(plan) by {
        forall d | d in Ids(plan)
          ensures d in taskMap
        {
          var i :| 0 <= i < |plan| && Ids(plan)[i] == d;
          assert plan[i] in plan;
        }
        forall d | d in taskMap
          ensures d in Ids(plan)
        {
          var u :| u in plan && u.id == d;
          var i :| 0 <= i < |plan| && plan[i] == u;
          assert Ids(plan)[i] == d;
        }
      }
      for k := 0 to |t.dependencies|
        invariant forall j :: 0 <= j < k ==> t.dependencies[j] != t.id && t.dependencies[j] in Ids(plan)
      {
        var dep := t.dependencies[k];
        if dep == t.id {
          assert t.id in t.dependencies && !DependenciesOk(plan, t);
          return Some(SelfDependency(t.id));
        }
        if dep !in taskMap {
          assert dep in t.dependencies && !DependenciesOk(plan, t);
          return Some(MissingDependency(t.id, dep));
        }
      }
      assert DependenciesOk(plan, t);
      if agents.Some? {
        if t.assignedAgent !in agents.value {
          return Some(UnregisteredAgent(t.id, t.assignedAgent));
        }
        if !agents.value[t.assignedAgent] {
          return Some(DisabledAgent(t.id, t.assignedAgent));
        }
      }
      if tools.Some? {
        for k := 0 to |t.requiredTools|
          invariant forall j :: 0 <= j < k ==> Available(tools, t.requiredTools[j])
        {
          var tool := t.requiredTools[k];
          assert tool in t.requiredTools;
          if tool !in tools.value {
            return Some(UnregisteredTool(t.id, tool));
          }
          if !tools.value[tool] {
            return Some(DisabledTool(t.id, tool));
          }
        }
      }
      e := None;
    }

    /** Waves exactly for well-formed acyclic plans; otherwise the first defect, or exactly the stuck tasks. */
    method ValidateAndSort(plan: seq<PlanTask>)
      returns (r: Result<seq<seq<string>>, PlanError>, ghost g: Graph, ghost level: map<string, nat>)
      ensures WellFormed(plan, maxSteps, agents, tools) ==> IsGraphOf(plan, g) && Closed(g)
      ensures r.Ok? <==> WellFormed(plan, maxSteps, agents, tools) && Acyclic(g)
      ensures r.Ok? ==> Layered(g, r.value, level) && level.Keys == g.Keys
      ensures r.Err? && !WellFormed(plan, maxSteps, agents, tools) ==>
                PlanDefect(plan, maxSteps, agents, tools, r.error)
      ensures r.Err? && WellFormed(plan, maxSteps, agents, tools) ==>
                && r.error.CircularDependency?
                && r.error.ids == Filter(Ids(plan), id => id !in level)
                && (forall id :: id in r.error.ids <==> id in g && Stuck(g, id))
    {
      g, level := map[], map[];
      if plan == [] {
        return Err(EmptyPlan), g, level;
      }
      if |plan| > maxSteps {
        return Err(TooManySteps), g, level;
      }
      var checked := CheckIds(plan);
      if checked.Err? {
        return Err(checked.error), g, level;
      }
      var taskMap := checked.value;
      for i := 0 to |plan|
        invariant forall j :: 0 <= j < i ==> TaskOk(plan, agents, tools, plan[j])
      {
        var e := CheckTask(plan, taskMap, plan[i]);
        if e.Some? {
          return Err(e.value), g, level;
        }
      }
      var order := Ids(plan);
      var graph: Graph := map id | id in taskMap :: taskMap[id].dependencies;
      g := graph;
      GraphOfPlan(plan, taskMap, graph, agents, tools);
      r, level := Sort(order, graph);
    }
  }

  /** Cycle detection and wave generation. */
  method Sort(order: seq<string>, g: Graph)
    returns (r: Result<seq<seq<string>>, PlanError>, ghost level: map<string, nat>)
    requires Closed(g) && Distinct(order) && (forall t :: t in order <==> t in g)
    ensures r.Ok? <==> Acyclic(g)
    ensures r.Ok? ==> Layered(g, r.value, level) && level.Keys == g.Keys
    ensures r.Err? ==>
              && r.error.CircularDependency?
              && r.error.ids == Filter(order, id => id !in level)
              && (forall id :: id in r.error.ids <==> id in g && Stuck(g, id))
  {
    var waves, inDegree, processed;
    waves, inDegree, processed, level := Kahn(order, g);
    BlockedExactly(g, level);
    if processed < |g| {
      var cycle := Leftover(order, g, inDegree, level);
      NotAllLevelled(g, level);
      r := Err(CircularDependency(cycle));
    } else {
      AllLevelled(g, level);
      r := Ok(waves);
    }
  }

  lemma GraphOfPlan(plan: seq<PlanTask>, taskMap: map<string, PlanTask>, g: Graph, agents: Registry, tools: Registry)
    requires IdsOk(plan) && forall t :: t in plan ==> TaskOk(plan, agents, tools, t)
    requires taskMap.Keys == (set t | t in plan :: t.id) && forall t :: t in plan ==> taskMap[t.id] == t
    requires g == map id | id in taskMap :: taskMap[id].dependencies
    ensures IsGraphOf(plan, g) && Closed(g) && forall t :: t in Ids(plan) <==> t in g
  {
    forall t | t in Ids(plan)
      ensures t in g
    {
      var i :| 0 <= i < |plan| && Ids(plan)[i] == t;
      assert plan[i] in plan;
    }
    forall t | t in g
      ensures t in Ids(plan)
    {
      var u :| u in plan && u.id == t;
      var i :| 0 <= i < |plan| && plan[i] == u;
      assert Ids(plan)[i] == t;
    }
  }

  /** The tasks Kahn's loop leaves behind are exactly the stuck ones. */
  lemma BlockedExactly(g: Graph, level: map<string, nat>)
    requires Closed(g) && Longest(g, level)
    requires forall t :: t in g && t !in level ==> WaitsFor(g, g.Keys - level.Keys, t)
    ensures forall t :: t in g ==> (t in level <==> !Stuck(g, t))
  {
    forall t | t in g
      ensures t in level <==> !Stuck(g, t)
    {
      if t in level {
        LevelledIsNotStuck(g, level, t);
      } else {
        var blocked := g.Keys - level.Keys;
        BlockedIsStuck(g, blocked, blocked, [t]);
      }
    }
  }

  lemma NotAllLevelled(g: Graph, level: map<string, nat>)
    requires level.Keys <= g.Keys && |level| < |g|
    requires forall t :: t in g ==> (t in level <==> !Stuck(g, t))
    ensures !Acyclic(g)
  {
    assert |g.Keys| == |g| && |level.Keys| == |level| && g.Keys != level.Keys;
    assert exists t :: t in g.Keys && t !in level.Keys;
    var t :| t in g && t !in level;
    assert Stuck(g, t);
    if !OnCycle(g, t) {
      var c :| Reaches(g, t, c) && OnCycle(g, c);
      var p :| IsPath(g, p) && |p| >= 2 && p[0] == c && p[|p| - 1] == c;
      assert c in g;
    }
  }

  lemma AllLevelled(g: Graph, level: map<string, nat>)
    requires level.Keys <= g.Keys && |level| >= |g|
    requires forall t :: t in g ==> (t in level <==> !Stuck(g, t))
    ensures level.Keys == g.Keys && Acyclic(g)
  {
    assert |g.Keys| == |g| && |level.Keys| == |level|;
    if level.Keys != g.Keys {
      ProperSubsetIsSmaller(level.Keys, g.Keys);
    }
    forall t | t in g
      ensures !OnCycle(g, t)
    {
      assert !Stuck(g, t);
    }
  }

  lemma ProperSubsetIsSmaller(a: set<string>, b: set<string>)
    requires a < b
    ensures |a| < |b|
  {
    assert b == a + (b - a) && a !! (b - a);
    var x :| x in b - a;
    assert |b - a| > 0;
  }
}
