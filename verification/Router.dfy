/** Ordered failover over the registered providers. */
module Routing {
  import opened Prelude
  import opened Retries

  /** A provider object, by identity. */
  type Provider = nat

  type Registry = map<string, Provider>

  const UNAVAILABLE := AiError(ProviderMissing, Some(503), true, None)

  // ---------- candidates ----------

  /** The providers registered under the names, in order. */
  function Registered(registry: Registry, names: seq<string>): seq<Provider> {
    if names == [] then []
    else
      var n := |names| - 1;
      Registered(registry, names[..n]) + if names[n] in registry then [registry[names[n]]] else []
  }

  /** First occurrences only. */
  function Unique(s: seq<Provider>): seq<Provider> {
    if s == [] then []
    else
      var n := |s| - 1;
      Unique(s[..n]) + if s[n] in Unique(s[..n]) then [] else [s[n]]
  }

  lemma {:induction false} UniqueKeepsMembers(s: seq<Provider>)
    ensures Distinct(Unique(s)) && forall p :: p in Unique(s) <==> p in s
    ensures s != [] ==> Unique(s) != [] && Unique(s)[0] == s[0]
  {
    if s != [] {
      var n := |s| - 1;
      UniqueKeepsMembers(s[..n]);
      assert s == s[..n] + [s[n]];
    }
  }

  lemma UniqueAppend(s: seq<Provider>, p: Provider)
    ensures Unique(s + [p]) == Unique(s) + if p in s then [] else [p]
  {
    assert (s + [p])[..|s|] == s;
    UniqueKeepsMembers(s);
  }

  lemma RegisteredAppend(registry: Registry, names: seq<string>, name: string)
    ensures Registered(registry, names + [name]) ==
              Registered(registry, names) + if name in registry then [registry[name]] else []
  {
    assert (names + [name])[..|names|] == names;
  }

  lemma {:induction false} RegisteredMember(registry: Registry, names: seq<string>, name: string)
    requires name in names && name in registry
    ensures registry[name] in Registered(registry, names)
  {
    var n := |names| - 1;
    if names[n] != name {
      assert name in names[..n];
      RegisteredMember(registry, names[..n], name);
    }
  }

  lemma FirstCandidate(registry: Registry, name: string)
    ensures Unique(Registered(registry, [name])) == if name in registry then [registry[name]] else []
  {
    RegisteredAppend(registry, [], name);
    assert [] + [name] == [name];
    if name in registry {
      UniqueAppend([], registry[name]);
      assert [] + [registry[name]] == [registry[name]];
    }
  }

  /** One more configured name adds its provider unless that is missing, listed already, or the default again. */
  lemma NextCandidate(registry: Registry, names: seq<string>, name: string)
    requires names != []
    ensures var listed := Unique(Registered(registry, names));
            Unique(Registered(registry, names + [name])) ==
              if name != names[0] && name in registry && registry[name] !in listed
              then listed + [registry[name]] else listed
  {
    RegisteredAppend(registry, names, name);
    var known := Registered(registry, names);
    UniqueKeepsMembers(known);
    if name in registry {
      UniqueAppend(known, registry[name]);
      if name == names[0] {
        RegisteredMember(registry, names, name);
      }
    } else {
      assert known + [] == known;
    }
  }

  class AIRouter {
    const registry: Registry
    const defaultProvider: string
    const fallbackProviders: seq<string>
    const policy: Policy

    constructor (registry: Registry, defaultProvider: string, fallbackProviders: seq<string>, policy: Policy)
      ensures this.registry == registry && this.defaultProvider == defaultProvider
      ensures this.fallbackProviders == fallbackProviders && this.policy == policy
    {
      this.registry, this.defaultProvider := registry, defaultProvider;
      this.fallbackProviders, this.policy := fallbackProviders, policy;
    }

    /** The default name and the first `i` fallback names. */
    ghost function Configured(i: nat): seq<string>
      requires i <= |fallbackProviders|
    {
      [defaultProvider] + fallbackProviders[..i]
    }

    lemma OneMoreName(i: nat)
      requires i < |fallbackProviders|
      ensures Configured(i + 1) == Configured(i) + [fallbackProviders[i]]
    {
    }

    /** The requested provider alone, or the distinct registered ones with the default first. */
    function CandidatesFor(requested: string): seq<Provider> {
      if requested == "" then Unique(Registered(registry, [defaultProvider] + fallbackProviders))
      else if requested in registry then [registry[requested]]
      else []
    }

    lemma CandidatesLaw(requested: string)
      ensures Distinct(CandidatesFor(requested))
      ensures requested == "" ==>
                forall p :: p in CandidatesFor("") <==> p in Registered(registry, [defaultProvider] + fallbackProviders)
      ensures requested == "" && defaultProvider in registry ==>
                CandidatesFor("") != [] && CandidatesFor("")[0] == registry[defaultProvider]
    {
      UniqueKeepsMembers(Registered(registry, [defaultProvider] + fallbackProviders));
      if defaultProvider in registry {
        DefaultComesFirst(registry, defaultProvider, fallbackProviders);
      }
    }

    method ResolveCandidates(requested: string) returns (r: Result<seq<Provider>, AiError>)
      ensures r == if CandidatesFor(requested) == [] then Err(UNAVAILABLE) else Ok(CandidatesFor(requested))
      ensures r.Ok? ==> r.value != [] && Distinct(r.value)
      ensures r.Ok? && requested == "" && defaultProvider in registry ==> r.value[0] == registry[defaultProvider]
    {
      CandidatesLaw(requested);
      if requested != "" {
        if requested !in registry {
          return Err(UNAVAILABLE);
        }
        return Ok([registry[requested]]);
      }
      var candidates := CollectCandidates();
      if candidates == [] {
        return Err(UNAVAILABLE);
      }
      r := Ok(candidates);
    }

    /** The default provider, then each fallback that is registered and not listed yet. */
    method CollectCandidates() returns (candidates: seq<Provider>)
      ensures candidates == Unique(Registered(registry, [defaultProvider] + fallbackProviders))
    {
      candidates := [];
      FirstCandidate(registry, defaultProvider);
      if defaultProvider in registry {
        candidates := candidates + [registry[defaultProvider]];
      }
      assert Configured(0) == [defaultProvider];
      for i := 0 to |fallbackProviders|
        invariant candidates == Unique(Registered(registry, Configured(i)))
      {
        var name := fallbackProviders[i];
        NextCandidate(registry, Configured(i), name);
        OneMoreName(i);
        if name != defaultProvider && name in registry && registry[name] !in candidates {
          candidates := candidates + [registry[name]];
        }
      }
      assert Configured(|fallbackProviders|) == [defaultProvider] + fallbackProviders;
    }

    /** Resolves the candidates and fails over among them; `world` fixes what every provider would do. */
    method Generate<T>(requested: string, world: World<T>) returns (ending: Ending<T>, calls: nat, slept: real)
      requires policy.maxDelay >= 0.0 && world.Valid()
      ensures var candidates := CandidatesFor(requested);
              && ending == (if candidates == [] then Raised(UNAVAILABLE) else Failover(policy, world, candidates))
              && WithinBudgets(policy, |candidates|, calls, slept)
    {
      var resolved := ResolveCandidates(requested);
      match resolved
      case Err(error) =>
        NothingYet(policy);
        ending, calls, slept := Raised(error), 0, 0.0;
      case Ok(candidates) =>
        ending, calls, slept := TryCandidates(candidates, world);
    }

    /** One candidate after the other, until one decides. */
    method TryCandidates<T>(candidates: seq<Provider>, world: World<T>)
      returns (ending: Ending<T>, calls: nat, slept: real)
      requires candidates != [] && policy.maxDelay >= 0.0 && world.Valid()
      ensures ending == Failover(policy, world, candidates)
      ensures WithinBudgets(policy, |candidates|, calls, slept)
    {
      calls, slept := 0, 0.0;
      var lastException := UNAVAILABLE;
      NothingYet(policy);
      for i := 0 to |candidates|
        invariant forall j :: 0 <= j < i ==> FallsThrough(CandidateEnding(policy, world, candidates[j]))
        invariant i > 0 ==> Raised(lastException) == CandidateEnding(policy, world, candidates[i - 1])
        invariant WithinBudgets(policy, i, calls, slept)
      {
        var p := candidates[i];
        var outcome, more, wait := Attempt(p, world);
        OneMoreCandidate(policy, i, calls, slept, more, wait);
        calls, slept := calls + more, slept + wait;
        if !FallsThrough(outcome) {
          FirstDecisive(policy, world, candidates, i);
          MoreCandidates(policy, i + 1, |candidates|, calls, slept);
          return outcome, calls, slept;
        }
        lastException := outcome.error;
      }
      NoneDecisive(policy, world, candidates);
      ending := Raised(lastException);
    }

    /** One candidate: its capabilities first, then the supervised call. */
    method Attempt<T>(p: Provider, world: World<T>) returns (ending: Ending<T>, calls: nat, slept: real)
      requires policy.maxDelay >= 0.0 && world.Valid()
      ensures ending == CandidateEnding(policy, world, p)
      ensures WithinBudgets(policy, 1, calls, slept)
    {
      calls, slept := 0, 0.0;
      var check := world.capabilities(p);
      match check
      case Some(problem) =>
        ending := problem;
      case None =>
        ending, calls, slept := Execute(policy, world.courses(p));
        OneSupervised(policy, world.courses(p), calls);
    }
  }

  /** How each provider's capability check goes wrong, if it does, and how its calls would go. */
  datatype World<!T> = World(capabilities: Provider -> Option<Ending<T>>, courses: Provider -> Course<T>)
  {
    /** A capability check returns nothing of its own. */
    ghost predicate Valid() {
      && (forall p :: capabilities(p).Some? ==> !capabilities(p).value.Returned?)
      && (forall p :: courses(p).Valid())
    }
  }

  /** Nothing stops at this ending: the next candidate is tried. */
  predicate FallsThrough<T>(e: Ending<T>) {
    && e.Raised?
    && e.error.kind != CancelledByCaller
    && (e.error.kind == CapabilityMissing || e.error.retryable || e.error.status !in {Some(400), Some(401), Some(403)})
  }

  function CandidateEnding<T>(policy: Policy, world: World<T>, p: Provider): Ending<T> {
    match world.capabilities(p)
    case Some(problem) => problem
    case None => Supervised(policy, world.courses(p))
  }

  /** The first ending that does not fall through, or else the last error. */
  function Failover<T>(policy: Policy, world: World<T>, candidates: seq<Provider>): Ending<T>
    requires candidates != []
  {
    var e := CandidateEnding(policy, world, candidates[0]);
    if |candidates| == 1 || !FallsThrough(e) then e else Failover(policy, world, candidates[1..])
  }

  lemma {:induction false} FirstDecisive<T>(policy: Policy, world: World<T>, candidates: seq<Provider>, k: nat)
    requires k < |candidates|
    requires forall j :: 0 <= j < k ==> FallsThrough(CandidateEnding(policy, world, candidates[j]))
    requires !FallsThrough(CandidateEnding(policy, world, candidates[k]))
    ensures Failover(policy, world, candidates) == CandidateEnding(policy, world, candidates[k])
  {
    if k > 0 {
      FirstDecisive(policy, world, candidates[1..], k - 1);
    }
  }

  lemma {:induction false} NoneDecisive<T>(policy: Policy, world: World<T>, candidates: seq<Provider>)
    requires candidates != []
    requires forall j :: 0 <= j < |candidates| ==> FallsThrough(CandidateEnding(policy, world, candidates[j]))
    ensures Failover(policy, world, candidates) == CandidateEnding(policy, world, candidates[|candidates| - 1])
  {
    if |candidates| > 1 {
      NoneDecisive(policy, world, candidates[1..]);
    }
  }

  /** A response is the first success: everybody before answered with an error that may be passed over. */
  lemma {:induction false} FailoverIsFirstSuccess<T>(policy: Policy, world: World<T>, candidates: seq<Provider>)
    requires candidates != []
    ensures var e := Failover(policy, world, candidates);
            exists k :: && 0 <= k < |candidates| && e == CandidateEnding(policy, world, candidates[k])
                        && (forall j :: 0 <= j < k ==> FallsThrough(CandidateEnding(policy, world, candidates[j])))
                        && (FallsThrough(e) ==> k == |candidates| - 1)
  {
    var first := CandidateEnding(policy, world, candidates[0]);
    if |candidates| > 1 && FallsThrough(first) {
      var rest := candidates[1..];
      FailoverIsFirstSuccess(policy, world, rest);
      var k :| && 0 <= k < |rest| && Failover(policy, world, rest) == CandidateEnding(policy, world, rest[k])
               && (forall j :: 0 <= j < k ==> FallsThrough(CandidateEnding(policy, world, rest[j])))
               && (FallsThrough(Failover(policy, world, rest)) ==> k == |rest| - 1);
      assert candidates[k + 1] == rest[k];
      forall j | 0 <= j < k + 1
        ensures FallsThrough(CandidateEnding(policy, world, candidates[j]))
      {
        if j > 0 {
          assert candidates[j] == rest[j - 1];
        }
      }
    } else {
      assert Failover(policy, world, candidates) == CandidateEnding(policy, world, candidates[0]);
    }
  }

  /** A cancellation, or an error with status 400, 401 or 403 that neither may be retried nor says a capability is
      missing, ends the request whatever candidates are left, once the earlier ones failed otherwise. */
  lemma FatalErrorEnds<T>(policy: Policy, world: World<T>, candidates: seq<Provider>, k: nat, e: AiError)
    requires k < |candidates| && CandidateEnding(policy, world, candidates[k]) == Raised(e)
    requires || e.kind == CancelledByCaller
             || (&& e.kind != CapabilityMissing && !e.retryable
                 && (e.status == Some(400) || e.status == Some(401) || e.status == Some(403)))
    requires forall j :: 0 <= j < k ==>
               var x := CandidateEnding(policy, world, candidates[j]);
               && x.Raised? && x.error.kind != CancelledByCaller
               && (|| x.error.kind == CapabilityMissing || x.error.retryable
                   || (x.error.status != Some(400) && x.error.status != Some(401) && x.error.status != Some(403)))
    ensures Failover(policy, world, candidates) == Raised(e)
  {
    FirstDecisive(policy, world, candidates, k);
  }

  /** Any other error of the taxonomy leads on to the next candidate; a response or a foreign exception never does. */
  lemma OtherErrorsLeadOn<T>(policy: Policy, world: World<T>, candidates: seq<Provider>)
    requires |candidates| > 1
    ensures var x := CandidateEnding(policy, world, candidates[0]);
            Failover(policy, world, candidates) ==
              if && x.Raised? && x.error.kind != CancelledByCaller
                 && (|| x.error.kind == CapabilityMissing || x.error.retryable
                     || (x.error.status != Some(400) && x.error.status != Some(401) && x.error.status != Some(403)))
              then Failover(policy, world, candidates[1..])
              else x
  {
  }

  lemma DefaultComesFirst(registry: Registry, name: string, others: seq<string>)
    requires name in registry
    ensures var all := Registered(registry, [name] + others);
            all != [] && all[0] == registry[name] && Unique(all) != [] && Unique(all)[0] == registry[name]
  {
    RegisteredHead(registry, name, others);
    UniqueKeepsMembers(Registered(registry, [name] + others));
  }

  lemma {:induction false} RegisteredHead(registry: Registry, name: string, others: seq<string>)
    requires name in registry
    ensures var all := Registered(registry, [name] + others); all != [] && all[0] == registry[name]
  {
    var names := [name] + others;
    var n := |names| - 1;
    if others == [] {
      assert names[..0] == [];
    } else {
      assert names[..n] == [name] + others[..n - 1];
      RegisteredHead(registry, name, others[..n - 1]);
    }
  }

  /** Provider calls and seconds slept, for the given number of candidates. */
  ghost predicate WithinBudgets(policy: Policy, candidates: nat, calls: nat, slept: real) {
    && calls <= candidates * (1 + Max(0, policy.maxRetries))
    && slept <= (candidates * Max(0, policy.maxRetries)) as real * policy.maxDelay
  }

  lemma NothingYet(policy: Policy)
    ensures WithinBudgets(policy, 0, 0, 0.0)
  {
  }

  lemma OneSupervised<T>(policy: Policy, course: Course<T>, calls: nat)
    requires policy.maxDelay >= 0.0 && course.Valid() && 1 <= calls <= 1 + Max(0, policy.maxRetries)
    ensures WithinBudgets(policy, 1, calls, Waits(policy, course, calls - 1))
  {
    WaitsAreBounded(policy, course, calls - 1);
    FewWaits(policy, calls, Waits(policy, course, calls - 1));
  }

  lemma FewWaits(policy: Policy, calls: nat, slept: real)
    requires policy.maxDelay >= 0.0 && 1 <= calls <= 1 + Max(0, policy.maxRetries)
    requires slept <= (calls - 1) as real * policy.maxDelay
    ensures WithinBudgets(policy, 1, calls, slept)
  {
    assert (calls - 1) as real * policy.maxDelay <= Max(0, policy.maxRetries) as real * policy.maxDelay;
  }

  lemma OneMoreCandidate(policy: Policy, i: nat, calls: nat, slept: real, more: nat, wait: real)
    requires WithinBudgets(policy, i, calls, slept) && WithinBudgets(policy, 1, more, wait)
    ensures WithinBudgets(policy, i + 1, calls + more, slept + wait)
  {
    var retries := Max(0, policy.maxRetries);
    assert (i + 1) * retries == i * retries + retries;
    assert ((i + 1) * retries) as real == (i * retries) as real + retries as real;
  }

  lemma MoreCandidates(policy: Policy, few: nat, many: nat, calls: nat, slept: real)
    requires policy.maxDelay >= 0.0 && few <= many && WithinBudgets(policy, few, calls, slept)
    ensures WithinBudgets(policy, many, calls, slept)
  {
    var a, b := few * Max(0, policy.maxRetries), many * Max(0, policy.maxRetries);
    assert a <= b;
    assert a as real <= b as real;
  }
}
