/** Evidence-based verification of task results. */
module Verifier {
  import opened Prelude
  import opened Text
  import opened AgentModels

  /** The files that exist, with their sizes, and how artifact names resolve to them. */
  datatype World = World(sizes: map<string, nat>, resolve: string -> string)

  datatype Evidence =
    | FailedTool(tool: string)
    | MissingFile(path: string)
    | EmptyFile(path: string)
    | EmptyPayload

  datatype Verification = Verification(
    taskId: string,
    verdict: Verdict,
    score: real,
    verified: seq<string>,
    missing: seq<Evidence>)

  predicate ToolFailed(o: Observation) {
    o.toolId.Some? && o.toolId.value != "" && o.status != "success"
  }

  /** The artifact exists and is not empty. */
  predicate Present(w: World, artifact: string) {
    var path := w.resolve(artifact);
    path in w.sizes && w.sizes[path] > 0
  }

  predicate HasOutput(r: StepResult) {
    r.output.Some? && Trim(r.output.value, PythonSpace) != ""
  }

  /** Artifacts claimed by the result or by the task. */
  function Claimed(taskArtifacts: seq<string>, r: StepResult): set<string> {
    (set a | a in r.artifacts) + (set a | a in taskArtifacts)
  }

  /** What the evidence amounts to. */
  ghost function Judge(w: World, taskArtifacts: seq<string>, r: StepResult): Verdict {
    var claimed := Claimed(taskArtifacts, r);
    var some := exists a :: a in claimed && Present(w, a);
    var absent := exists a :: a in claimed && !Present(w, a);
    if r.status != TaskCompleted || (exists o :: o in r.observations && ToolFailed(o)) then VerdictFailed
    else if !some && !HasOutput(r) then VerdictFailed
    else if absent then VerdictPartial
    else VerdictPassed
  }

  /** PASSED means: it ran to completion, no tool failed, every claimed file is there and non-empty,
      and there is something to show. */
  lemma PassedMeansEvidence(w: World, taskArtifacts: seq<string>, r: StepResult)
    ensures Judge(w, taskArtifacts, r) == VerdictPassed <==>
              && r.status == TaskCompleted
              && (forall o :: o in r.observations ==> !ToolFailed(o))
              && (forall a :: a in r.artifacts || a in taskArtifacts ==> Present(w, a))
              && (HasOutput(r) || r.artifacts != [] || taskArtifacts != [])
  {
    var claimed := Claimed(taskArtifacts, r);
    if r.artifacts != [] {
      assert r.artifacts[0] in claimed;
    }
    if taskArtifacts != [] {
      assert taskArtifacts[0] in claimed;
    }
  }

  /** PARTIAL means: everything about the run is in order and there is something to show, but a claimed file is not. */
  lemma PartialMeansGaps(w: World, taskArtifacts: seq<string>, r: StepResult)
    ensures Judge(w, taskArtifacts, r) == VerdictPartial <==>
              && r.status == TaskCompleted
              && (forall o :: o in r.observations ==> !ToolFailed(o))
              && (exists a :: (a in r.artifacts || a in taskArtifacts) && !Present(w, a))
              && (HasOutput(r) || exists a :: (a in r.artifacts || a in taskArtifacts) && Present(w, a))
  {
    assert forall a :: a in Claimed(taskArtifacts, r) <==> a in r.artifacts || a in taskArtifacts;
  }

  /** A tool observation counts as failed if it names a tool and does not report success. */
  lemma ToolFailures(o: Observation)
    ensures ToolFailed(o) <==> o.toolId !in {None, Some("")} && o.status != "success"
  {
  }

  /** There is output exactly if it has a character that is not whitespace. */
  lemma OutputShows(r: StepResult)
    ensures HasOutput(r) <==>
              r.output.Some? && exists i :: 0 <= i < |r.output.value| && !PythonSpace(r.output.value[i])
  {
    if r.output.Some? {
      TrimmedAway(r.output.value, PythonSpace);
    }
  }

  function FilesFound(w: World, order: seq<string>): seq<string> {
    if order == [] then []
    else FilesFound(w, order[..|order| - 1]) +
         if Present(w, order[|order| - 1]) then [w.resolve(order[|order| - 1])] else []
  }

  function FilesLacking(w: World, order: seq<string>): seq<Evidence> {
    if order == [] then []
    else
      var path := w.resolve(order[|order| - 1]);
      FilesLacking(w, order[..|order| - 1]) +
      if path !in w.sizes then [MissingFile(path)] else if w.sizes[path] == 0 then [EmptyFile(path)] else []
  }

  lemma {:induction false} FilesSplit(w: World, order: seq<string>)
    ensures FilesFound(w, order) != [] <==> exists a :: a in order && Present(w, a)
    ensures FilesLacking(w, order) != [] <==> exists a :: a in order && !Present(w, a)
  {
    if order != [] {
      var n := |order| - 1;
      FilesSplit(w, order[..n]);
      assert order == order[..n] + [order[n]];
      assert order[n] in order;
    }
  }

  ghost predicate Enumerates(order: seq<string>, s: set<string>) {
    Distinct(order) && forall a :: a in order <==> a in s
  }

  method CheckArtifacts(w: World, claimed: set<string>)
    returns (verified: seq<string>, missing: seq<Evidence>, ghost order: seq<string>)
    ensures Enumerates(order, claimed)
    ensures verified == FilesFound(w, order) && missing == FilesLacking(w, order)
  {
    verified, missing, order := [], [], [];
    var rest := claimed;
    while rest != {}
      invariant rest <= claimed && Enumerates(order, claimed - rest)
      invariant verified == FilesFound(w, order) && missing == FilesLacking(w, order)
      decreases rest
    {
      var a :| a in rest;
      rest := rest - {a};
      ghost var before := order;
      order := order + [a];
      assert order[..|before|] == before;
      var path := w.resolve(a);
      if path !in w.sizes {
        missing := missing + [MissingFile(path)];
      } else if w.sizes[path] == 0 {
        missing := missing + [EmptyFile(path)];
      } else {
        verified := verified + [path];
      }
    }
  }

  /** Reports the verdict with its score, and lists exactly the files found and the evidence lacking. */
  method VerifyStep(w: World, taskId: string, taskArtifacts: seq<string>, r: StepResult)
    returns (v: Verification, ghost order: seq<string>)
    ensures v.taskId == taskId && v.verdict == Judge(w, taskArtifacts, r)
    ensures v.score == match v.verdict case VerdictPassed => 1.0 case VerdictPartial => 0.5 case VerdictFailed => 0.0
    ensures r.status != TaskCompleted ==> v.verified == [] && v.missing == []
    ensures r.status == TaskCompleted && (exists o :: o in r.observations && ToolFailed(o)) ==>
              && v.verified == []
              && exists k :: && 0 <= k < |r.observations| && ToolFailed(r.observations[k])
                             && v.missing == [FailedTool(r.observations[k].toolId.value)]
                             && forall j :: 0 <= j < k ==> !ToolFailed(r.observations[j])
    ensures r.status == TaskCompleted && (forall o :: o in r.observations ==> !ToolFailed(o)) ==>
              && Enumerates(order, Claimed(taskArtifacts, r))
              && v.verified == FilesFound(w, order)
              && v.missing == FilesLacking(w, order) +
                   if v.verified == [] && !HasOutput(r) then [EmptyPayload] else []
  {
    order := [];
    if r.status != TaskCompleted {
      return Verification(taskId, VerdictFailed, 0.0, [], []), order;
    }
    for k := 0 to |r.observations|
      invariant forall j :: 0 <= j < k ==> !ToolFailed(r.observations[j])
    {
      var o := r.observations[k];
      if ToolFailed(o) {
        assert o in r.observations;
        return Verification(taskId, VerdictFailed, 0.0, [], [FailedTool(o.toolId.value)]), order;
      }
    }
    var verified, missing;
    verified, missing, order := CheckArtifacts(w, Claimed(taskArtifacts, r));
    FilesSplit(w, order);
    var hasOutput := HasOutput(r);
    if !hasOutput && verified == [] {
      missing := missing + [EmptyPayload];
    }
    if missing != [] {
      if verified != [] || hasOutput {
        v := Verification(taskId, VerdictPartial, 0.5, verified, missing);
      } else {
        v := Verification(taskId, VerdictFailed, 0.0, verified, missing);
      }
    } else {
      v := Verification(taskId, VerdictPassed, 1.0, verified, missing);
    }
  }

  /** Every task of the plan has a PASSED verification on record. */
  method VerifyPlan(ids: seq<string>, verdicts: map<string, Verdict>) returns (ok: bool)
    ensures ok <==> forall t :: t in ids ==> t in verdicts && verdicts[t] == VerdictPassed
  {
    for i := 0 to |ids|
      invariant forall j :: 0 <= j < i ==> ids[j] in verdicts && verdicts[ids[j]] == VerdictPassed
    {
      if ids[i] !in verdicts || verdicts[ids[i]] != VerdictPassed {
        return false;
      }
    }
    ok := true;
  }
}
