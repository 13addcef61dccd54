/**
 * scripts/lib/onboard-core.ts: the onboarding step engine. Steps run in order; one whose
 * dependency did not succeed is skipped without running; a throw is that step's failure.
 */
module StepEngine {
  import opened Common

  datatype Mode = DryRun | Apply

  datatype Outcome =
    | Already
    | Done
    | WouldDo
    | Blocked
    | Failed
    | Skipped(unmet: seq<string>)

  /** What a step's own run would end with. */
  datatype RunEnd = Returned(outcome: Outcome) | Threw

  datatype Step = Step(id: string, deps: seq<string>, run: RunEnd)

  datatype StepResult = StepResult(id: string, outcome: Outcome)

  datatype EngineError = UnknownDependency(step: string, dep: string)

  /** In place, or (dry run) would be put in place by this run. */
  predicate DependencyMet(o: Outcome, mode: Mode) {
    o.Already? || o.Done? || (mode.DryRun? && o.WouldDo?)
  }

  predicate IsFailure(o: Outcome) {
    o.Failed? || o.Blocked? || o.Skipped?
  }

  function Own(s: Step): Outcome {
    match s.run
    case Returned(o) => o
    case Threw => Failed
  }

  datatype Decision<P> = InPlace | Todo(plan: P) | NotPossible

  // ---------------------------------------------------------------- what the engine should do

  /** What a dependency has to have come to, said outcome by outcome. */
  ghost predicate Succeeded(o: Outcome, mode: Mode) {
    o == Already || o == Done || (mode == DryRun && o == WouldDo)
  }

  /** A run that throws is a failure; any other ends with what it returns. */
  ghost predicate Ends(s: Step, o: Outcome) {
    match s.run
    case Returned(end) => o == end
    case Threw => o == Failed
  }

  /** The latest of the first n steps with this id: the entry a dependency resolves to. */
  function Latest(steps: seq<Step>, n: nat, id: string): (r: Option<nat>)
    requires n <= |steps|
    ensures r.Some? ==> r.value < n && steps[r.value].id == id
                        && forall j | r.value < j < n :: steps[j].id != id
    ensures r.None? ==> forall j | 0 <= j < n :: steps[j].id != id
  {
    if n == 0 then None
    else if steps[n - 1].id == id then Some(n - 1)
    else Latest(steps, n - 1, id)
  }

  /** Every dependency names an earlier step. */
  ghost predicate Ordered(steps: seq<Step>, n: nat)
    requires n <= |steps|
  {
    forall i, dep | 0 <= i < n && dep in steps[i].deps :: Latest(steps, i, dep).Some?
  }

  /** Step j is what one of step i's dependencies resolves to. */
  ghost predicate DependsOn(steps: seq<Step>, i: nat, j: nat)
    requires i < |steps|
  {
    exists dep :: dep in steps[i].deps && Latest(steps, i, dep) == Some(j)
  }

  /** A step runs when everything it depends on ran and ended met. */
  ghost predicate Runs(steps: seq<Step>, mode: Mode, i: nat)
    requires i < |steps|
    decreases i
  {
    forall j | 0 <= j < i && DependsOn(steps, i, j) ::
      Runs(steps, mode, j) && Succeeded(Own(steps[j]), mode)
  }

  /** A chain of dependencies, each resolved by the step before it. */
  ghost predicate Chain(steps: seq<Step>, path: seq<nat>) {
    && |path| >= 2
    && (forall k | 0 <= k < |path| :: path[k] < |steps|)
    && forall k | 0 <= k < |path| - 1 :: DependsOn(steps, path[k], path[k + 1])
  }

  /** A chain from step i to a step whose own run took place and ended unmet. */
  ghost predicate Culprit(steps: seq<Step>, mode: Mode, i: nat, path: seq<nat>) {
    && Chain(steps, path) && path[0] == i
    && Runs(steps, mode, path[|path| - 1])
    && !Succeeded(Own(steps[path[|path| - 1]]), mode)
  }

  lemma Extended(steps: seq<Step>, mode: Mode, i: nat, j: nat, rest: seq<nat>)
    requires i < |steps| && DependsOn(steps, i, j) && Culprit(steps, mode, j, rest)
    ensures Culprit(steps, mode, i, [i] + rest)
  {}

  lemma Direct(steps: seq<Step>, mode: Mode, i: nat, j: nat)
    requires i < |steps| && j < |steps| && DependsOn(steps, i, j) && Runs(steps, mode, j)
    requires !Succeeded(Own(steps[j]), mode)
    ensures Culprit(steps, mode, i, [i, j])
  {}

  lemma Blame(steps: seq<Step>, mode: Mode, i: nat) returns (j: nat)
    requires i < |steps| && !Runs(steps, mode, i)
    ensures j < i && DependsOn(steps, i, j)
    ensures !(Runs(steps, mode, j) && Succeeded(Own(steps[j]), mode))
  {
    j :| 0 <= j < i && DependsOn(steps, i, j)
         && !(Runs(steps, mode, j) && Succeeded(Own(steps[j]), mode));
  }

  lemma {:induction false} SkippedHasCulprit(steps: seq<Step>, mode: Mode, i: nat) returns (path: seq<nat>)
    requires i < |steps| && !Runs(steps, mode, i)
    ensures Culprit(steps, mode, i, path)
    decreases i
  {
    var j := Blame(steps, mode, i);
    if Runs(steps, mode, j) {
      Direct(steps, mode, i, j);
      path := [i, j];
    } else {
      var rest := SkippedHasCulprit(steps, mode, j);
      Extended(steps, mode, i, j, rest);
      path := [i] + rest;
    }
  }

  lemma {:induction false} CulpritSkips(steps: seq<Step>, mode: Mode, i: nat, path: seq<nat>)
    requires i < |steps| && Culprit(steps, mode, i, path)
    ensures !Runs(steps, mode, i)
    decreases |path|
  {
    assert DependsOn(steps, path[0], path[1]);
    if |path| > 2 {
      var rest := path[1..];
      forall k | 0 <= k < |rest| - 1 ensures DependsOn(steps, rest[k], rest[k + 1]) {
        assert DependsOn(steps, path[k + 1], path[k + 2]);
      }
      CulpritSkips(steps, mode, path[1], rest);
    }
  }

  /**
   * A step does not run exactly when some chain of its dependencies reaches a step that did run
   * and ended unmet.
   */
  lemma RunsUnlessCulprit(steps: seq<Step>, mode: Mode, i: nat)
    requires i < |steps|
    ensures Runs(steps, mode, i) <==> !exists path :: Culprit(steps, mode, i, path)
  {
    if !Runs(steps, mode, i) { var path := SkippedHasCulprit(steps, mode, i); }
    if path :| Culprit(steps, mode, i, path) { CulpritSkips(steps, mode, i, path); }
  }

  // ---------------------------------------------------------------- the loop

  /** The dependencies, in order, that the results so far do not show to have succeeded. */
  ghost function Wanting(steps: seq<Step>, mode: Mode, i: nat, results: seq<StepResult>, deps: seq<string>)
    : seq<string>
    requires i <= |steps| && |results| == i
  {
    if deps == [] then []
    else
      var n := |deps| - 1;
      var found := Latest(steps, i, deps[n]);
      Wanting(steps, mode, i, results, deps[..n])
      + (if found.Some? && Succeeded(results[found.value].outcome, mode) then [] else [deps[n]])
  }

  /** Step i's result: its own end if it ran, and otherwise the dependencies it waited for in vain. */
  ghost predicate ResultOf(steps: seq<Step>, mode: Mode, i: nat, results: seq<StepResult>, o: Outcome)
    requires i < |steps| && |results| == i
  {
    if Runs(steps, mode, i) then Ends(steps[i], o)
    else o == Skipped(Wanting(steps, mode, i, results, steps[i].deps)) && o.unmet != []
  }

  /** The recorded outcomes of the first n steps. */
  ghost predicate Recorded(steps: seq<Step>, mode: Mode, n: nat, results: seq<StepResult>)
    requires n <= |steps|
  {
    && |results| == n
    && forall i | 0 <= i < n ::
         results[i].id == steps[i].id && ResultOf(steps, mode, i, results[..i], results[i].outcome)
  }

  ghost predicate IndexedBy(byId: map<string, Outcome>, steps: seq<Step>, n: nat, results: seq<StepResult>)
    requires n <= |steps| && |results| == n
  {
    forall id :: match Latest(steps, n, id)
                 case None => id !in byId
                 case Some(j) => id in byId && byId[id] == results[j].outcome
  }

  lemma OwnEnds(s: Step)
    ensures forall o :: Ends(s, o) <==> o == Own(s)
  {}

  /** A dependency has succeeded exactly when the step it resolves to ran and ended well. */
  lemma MetMeansRan(steps: seq<Step>, mode: Mode, n: nat, results: seq<StepResult>, j: nat)
    requires n <= |steps| && Recorded(steps, mode, n, results) && j < n
    ensures Succeeded(results[j].outcome, mode) <==>
            Runs(steps, mode, j) && Succeeded(Own(steps[j]), mode)
  {
    OwnEnds(steps[j]);
    assert ResultOf(steps, mode, j, results[..j], results[j].outcome);
  }

  /** The dependencies among `deps` that did not succeed, in order. */
  ghost function Failing(deps: seq<string>, mode: Mode, byId: map<string, Outcome>): seq<string> {
    if deps == [] then []
    else
      var n := |deps| - 1;
      Failing(deps[..n], mode, byId)
      + (if deps[n] in byId && Succeeded(byId[deps[n]], mode) then [] else [deps[n]])
  }

  lemma {:induction false} FailingNone(deps: seq<string>, mode: Mode, byId: map<string, Outcome>)
    ensures Failing(deps, mode, byId) == [] <==>
            forall l | 0 <= l < |deps| :: deps[l] in byId && Succeeded(byId[deps[l]], mode)
  {
    if deps != [] {
      var n := |deps| - 1;
      FailingNone(deps[..n], mode, byId);
      assert forall l | 0 <= l < n :: deps[..n][l] == deps[l];
    }
  }

  lemma {:induction false} FailingWanting(steps: seq<Step>, mode: Mode, i: nat, results: seq<StepResult>,
                                          byId: map<string, Outcome>, deps: seq<string>)
    requires i <= |steps| && |results| == i && IndexedBy(byId, steps, i, results)
    ensures Failing(deps, mode, byId) == Wanting(steps, mode, i, results, deps)
  {
    if deps != [] { FailingWanting(steps, mode, i, results, byId, deps[..|deps| - 1]); }
  }

  /** The dependencies that did not succeed, in order; an unknown one abandons the run. */
  method UnmetDeps(step: Step, mode: Mode, byId: map<string, Outcome>)
    returns (r: Result<seq<string>, EngineError>)
    ensures r.Ok? <==> forall l | 0 <= l < |step.deps| :: step.deps[l] in byId
    ensures r.Ok? ==> r.value == Failing(step.deps, mode, byId)
    ensures r.Err? ==> r.error.step == step.id && r.error.dep in step.deps && r.error.dep !in byId
  {
    var unmet: seq<string> := [];
    for k := 0 to |step.deps|
      invariant forall l | 0 <= l < k :: step.deps[l] in byId
      invariant unmet == Failing(step.deps[..k], mode, byId)
    {
      var dep := step.deps[k];
      assert step.deps[..k + 1][..k] == step.deps[..k];
      if dep !in byId { return Err(UnknownDependency(step.id, dep)); }
      if !DependencyMet(byId[dep], mode) { unmet := unmet + [dep]; }
    }
    assert step.deps[..|step.deps|] == step.deps;
    r := Ok(unmet);
  }

  lemma NextIndexed(steps: seq<Step>, i: nat, byId: map<string, Outcome>, results: seq<StepResult>,
                    o: Outcome)
    requires i < |steps| && |results| == i && IndexedBy(byId, steps, i, results)
    ensures IndexedBy(byId[steps[i].id := o], steps, i + 1, results + [StepResult(steps[i].id, o)])
  {}

  lemma NextRecorded(steps: seq<Step>, mode: Mode, i: nat, results: seq<StepResult>, o: Outcome)
    requires i < |steps| && Recorded(steps, mode, i, results) && ResultOf(steps, mode, i, results, o)
    ensures Recorded(steps, mode, i + 1, results + [StepResult(steps[i].id, o)])
  {
    var all := results + [StepResult(steps[i].id, o)];
    forall j | 0 <= j < i + 1 ensures ResultOf(steps, mode, j, all[..j], all[j].outcome) {
      assert all[..j] == results[..j];
      if j == i { assert results[..i] == results; }
    }
  }

  /** The loop's body: skip on an unmet dependency, otherwise run. */
  method RunStep(steps: seq<Step>, mode: Mode, i: nat, byId: map<string, Outcome>, results: seq<StepResult>)
    returns (r: Result<Outcome, EngineError>)
    requires i < |steps| && Ordered(steps, i) && Recorded(steps, mode, i, results)
    requires IndexedBy(byId, steps, i, results)
    ensures r.Ok? <==> Ordered(steps, i + 1)
    ensures r.Ok? ==> Recorded(steps, mode, i + 1, results + [StepResult(steps[i].id, r.value)])
    ensures r.Ok? ==>
              IndexedBy(byId[steps[i].id := r.value], steps, i + 1, results + [StepResult(steps[i].id, r.value)])
  {
    var step := steps[i];
    var checked := UnmetDeps(step, mode, byId);
    if checked.Err? {
      assert Latest(steps, i, checked.error.dep).None?;
      return Err(checked.error);
    }
    OneMoreOrdered(steps, i, byId, results);
    UnmetMeansSkipped(steps, mode, i, byId, results);
    FailingNone(step.deps, mode, byId);
    FailingWanting(steps, mode, i, results, byId, step.deps);
    OwnEnds(step);
    var outcome := if checked.value != [] then Skipped(checked.value) else Own(step);
    NextIndexed(steps, i, byId, results, outcome);
    NextRecorded(steps, mode, i, results, outcome);
    r := Ok(outcome);
  }

  /**
   * One result for each step, in order; no skipped step ran, and every other result is the step's
   * own. The run is abandoned exactly when a dependency names no earlier step.
   */
  method RunSteps(steps: seq<Step>, mode: Mode) returns (r: Result<seq<StepResult>, EngineError>)
    ensures r.Ok? <==> Ordered(steps, |steps|)
    ensures r.Ok? ==> Recorded(steps, mode, |steps|, r.value)
  {
    var byId: map<string, Outcome> := map[];
    var results: seq<StepResult> := [];
    for i := 0 to |steps|
      invariant Ordered(steps, i) && Recorded(steps, mode, i, results)
      invariant IndexedBy(byId, steps, i, results)
    {
      var outcome := RunStep(steps, mode, i, byId, results);
      if outcome.Err? {
        NeverOrdered(steps, i + 1);
        return Err(outcome.error);
      }
      byId := byId[steps[i].id := outcome.value];
      results := results + [StepResult(steps[i].id, outcome.value)];
    }
    r := Ok(results);
  }

  lemma NeverOrdered(steps: seq<Step>, i: nat)
    requires i <= |steps| && !Ordered(steps, i)
    ensures !Ordered(steps, |steps|)
  {}

  lemma OneMoreOrdered(steps: seq<Step>, i: nat, byId: map<string, Outcome>, results: seq<StepResult>)
    requires i < |steps| && |results| == i && Ordered(steps, i)
    requires IndexedBy(byId, steps, i, results)
    requires forall l | 0 <= l < |steps[i].deps| :: steps[i].deps[l] in byId
    ensures Ordered(steps, i + 1)
  {}

  lemma UnmetMeansSkipped(steps: seq<Step>, mode: Mode, i: nat, byId: map<string, Outcome>,
                          results: seq<StepResult>)
    requires i < |steps| && Ordered(steps, i + 1) && Recorded(steps, mode, i, results)
    requires IndexedBy(byId, steps, i, results)
    requires forall l | 0 <= l < |steps[i].deps| :: steps[i].deps[l] in byId
    ensures Runs(steps, mode, i) <==>
            forall l | 0 <= l < |steps[i].deps| :: Succeeded(byId[steps[i].deps[l]], mode)
  {
    forall l | 0 <= l < |steps[i].deps|
      ensures Latest(steps, i, steps[i].deps[l]).Some?
      ensures var j := Latest(steps, i, steps[i].deps[l]).value;
              DependsOn(steps, i, j) && (Succeeded(byId[steps[i].deps[l]], mode) <==>
                Runs(steps, mode, j) && Succeeded(Own(steps[j]), mode))
    {
      var dep := steps[i].deps[l];
      var j := Latest(steps, i, dep).value;
      MetMeansRan(steps, mode, i, results, j);
    }
  }

  /** The step is in place, was put in place, or would be. */
  ghost predicate WentWell(o: Outcome) {
    o == Already || o == Done || o == WouldDo
  }

  /** scripts/lib/onboard-core.ts: exitCodeFor. */
  method ExitCode(results: seq<StepResult>) returns (code: nat)
    ensures code == 0 <==> forall i | 0 <= i < |results| :: WentWell(results[i].outcome)
    ensures code <= 1
  {
    for i := 0 to |results|
      invariant forall j | 0 <= j < i :: WentWell(results[j].outcome)
    {
      if IsFailure(results[i].outcome) { return 1; }
    }
    code := 0;
  }

  /** Exit code 0 says every step ran, and none failed or was blocked. */
  lemma CleanExitRanEverything(steps: seq<Step>, mode: Mode, results: seq<StepResult>)
    requires Recorded(steps, mode, |steps|, results)
    ensures (forall i | 0 <= i < |results| :: WentWell(results[i].outcome)) <==>
            (forall i | 0 <= i < |steps| ::
               Runs(steps, mode, i) && steps[i].run.Returned? && WentWell(steps[i].run.outcome))
  {
    forall i | 0 <= i < |steps|
      ensures WentWell(results[i].outcome) <==>
              Runs(steps, mode, i) && steps[i].run.Returned? && WentWell(steps[i].run.outcome)
    {
      assert ResultOf(steps, mode, i, results[..i], results[i].outcome);
    }
  }
}
