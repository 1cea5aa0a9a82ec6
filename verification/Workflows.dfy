/** Workflow definitions and the check that turns one into an executable workflow. */
module Workflows {
  import opened Basics
  import opened Graphs

  type WorkflowId = string
  type StepId = string
  type Bytes = string

  datatype StepSpec = StepSpec(id: StepId, kind: string, input: Bytes, dependsOn: seq<StepId>)

  datatype WorkflowDef = WorkflowDef(id: WorkflowId, steps: seq<StepSpec>)

  datatype Workflow = Workflow(def: WorkflowDef, index: map<StepId, nat>)

  datatype Invalid = NoSteps | DuplicateStep(id: StepId) | UnknownDependency(step: StepId,
          dependency: StepId) | HasCycle

  ghost predicate DistinctIds(steps: seq<StepSpec>) {
    forall i, j :: 0 <= i < j < |steps| ==> steps[i].id != steps[j].id
  }

  /** `index` finds every step by its id. */
  ghost predicate Indexes(index: map<StepId, nat>, steps: seq<StepSpec>) {
    && (forall i :: 0 <= i < |steps| ==> steps[i].id in index && index[steps[i].id] == i)
    && (forall id :: id in index ==> index[id] < |steps| && steps[index[id]].id == id)
  }

  ghost predicate HasStep(def: WorkflowDef, id: StepId) {
    exists i :: 0 <= i < |def.steps| && def.steps[i].id == id
  }

  ghost predicate DependsOn(def: WorkflowDef, a: StepId, b: StepId) {
    exists i :: 0 <= i < |def.steps| && def.steps[i].id == a && b in def.steps[i].dependsOn
  }

  ghost predicate KnownDependencies(def: WorkflowDef) {
    forall i, d :: 0 <= i < |def.steps| && d in def.steps[i].dependsOn ==> HasStep(def, d)
  }

  ghost predicate DependsNext(def: WorkflowDef, path: seq<StepId>, k: nat) {
    k + 1 < |path| && DependsOn(def, path[k], path[k + 1])
  }

  /** A chain of dependencies from a step back to itself. */
  ghost predicate DependencyCycle(def: WorkflowDef, path: seq<StepId>) {
    && |path| >= 2
    && path[0] == path[|path| - 1]
    && forall k :: 0 <= k < |path| - 1 ==> DependsNext(def, path, k)
  }

  /** What a workflow must satisfy to be accepted. */
  ghost predicate Executable(def: WorkflowDef) {
    && def.steps != []
    && DistinctIds(def.steps)
    && KnownDependencies(def)
    && forall path :: !DependencyCycle(def, path)
  }

  ghost predicate Accepted(w: Workflow) {
    Executable(w.def) && Indexes(w.index, w.def.steps)
  }

  ghost predicate Resolvable(def: WorkflowDef, index: map<StepId, nat>) {
    forall i, d :: 0 <= i < |def.steps| && d in def.steps[i].dependsOn ==> d in index
  }

  /** The dependency graph by step position. */
  function Resolved(def: WorkflowDef, index: map<StepId, nat>): (r: Graph)
    requires Resolvable(def, index)
  {
    seq(|def.steps|, i requires 0 <= i < |def.steps| =>
      seq(|def.steps[i].dependsOn|, t requires 0 <= t < |def.steps[i].dependsOn| => index[def.steps[i].dependsOn[t]]))
  }

  lemma KnownAreIndexed(def: WorkflowDef, index: map<StepId, nat>)
    requires Indexes(index, def.steps)
    ensures KnownDependencies(def) <==> Resolvable(def, index)
  {
    if KnownDependencies(def) {
      forall i, d | 0 <= i < |def.steps| && d in def.steps[i].dependsOn
        ensures d in index
      {
        assert HasStep(def, d);
      }
    }
    if Resolvable(def, index) {
      forall i, d | 0 <= i < |def.steps| && d in def.steps[i].dependsOn
        ensures HasStep(def, d)
      {
        assert def.steps[index[d]].id == d;
      }
    }
  }

  /** An edge of the position graph is a dependency between the steps there. */
  lemma EdgeIsDependency(def: WorkflowDef, index: map<StepId, nat>, i: nat, j: nat)
    requires Indexes(index, def.steps) && KnownDependencies(def) && i < |def.steps| && j < |def.steps|
    ensures Resolvable(def, index)
    ensures j in Resolved(def, index)[i] <==> DependsOn(def, def.steps[i].id, def.steps[j].id)
  {
    KnownAreIndexed(def, index);
    var deps := def.steps[i].dependsOn;
    var row := Resolved(def, index)[i];
    if j in row {
      var t :| 0 <= t < |row| && row[t] == j;
      assert deps[t] in deps;
    }
    if DependsOn(def, def.steps[i].id, def.steps[j].id) {
      var a :| 0 <= a < |def.steps| && def.steps[a].id == def.steps[i].id && def.steps[j].id in def.steps[a].dependsOn;
      assert a == i;
      var t :| 0 <= t < |deps| && deps[t] == def.steps[j].id;
      assert row[t] == j;
    }
  }

  lemma ResolvedWellFormed(def: WorkflowDef, index: map<StepId, nat>)
    requires Indexes(index, def.steps) && KnownDependencies(def)
    ensures Resolvable(def, index)
    ensures WellFormed(Resolved(def, index))
  {
    KnownAreIndexed(def, index);
    var g := Resolved(def, index);
    forall i, t | 0 <= i < |g| && 0 <= t < |g[i]|
      ensures g[i][t] < |g|
    {
      assert def.steps[i].dependsOn[t] in def.steps[i].dependsOn;
    }
  }

  lemma GraphCycleToSteps(def: WorkflowDef, index: map<StepId, nat>, path: seq<nat>) returns (ids: seq<StepId>)
    requires Indexes(index, def.steps) && KnownDependencies(def)
    requires Resolvable(def, index)
    requires IsCycle(Resolved(def, index), path)
    ensures DependencyCycle(def, ids)
  {
    hide Indexes, KnownDependencies, DependsOn, Resolvable;
    ids := seq(|path|, k requires 0 <= k < |path| => def.steps[path[k]].id);
    forall k | 0 <= k < |ids| - 1
      ensures DependsNext(def, ids, k)
    {
      assert Step(Resolved(def, index), path, k);
      EdgeIsDependency(def, index, path[k], path[k + 1]);
    }
  }

  lemma CycleIsIndexed(def: WorkflowDef, index: map<StepId, nat>, ids: seq<StepId>, k: nat)
    requires Indexes(index, def.steps) && DependencyCycle(def, ids) && k < |ids|
    ensures ids[k] in index
  {
    assert DependsNext(def, ids, if k + 1 < |ids| then k else 0);
  }

  lemma StepCycleToGraph(def: WorkflowDef, index: map<StepId, nat>, ids: seq<StepId>) returns (path: seq<nat>)
    requires Indexes(index, def.steps) && KnownDependencies(def)
    requires Resolvable(def, index)
    requires DependencyCycle(def, ids)
    ensures IsCycle(Resolved(def, index), path)
  {
    hide Resolvable, KnownDependencies, DependsOn;
    forall k | 0 <= k < |ids|
      ensures ids[k] in index
    {
      CycleIsIndexed(def, index, ids, k);
    }
    path := seq(|ids|, k requires 0 <= k < |ids| => index[ids[k]]);
    forall k | 0 <= k < |path| - 1
      ensures Step(Resolved(def, index), path, k)
    {
      assert DependsNext(def, ids, k);
      EdgeIsDependency(def, index, path[k], path[k + 1]);
    }
  }

  /** Working on positions neither hides nor invents a cycle. */
  lemma CyclesMatch(def: WorkflowDef, index: map<StepId, nat>)
    requires Indexes(index, def.steps) && KnownDependencies(def)
    ensures Resolvable(def, index)
    ensures Acyclic(Resolved(def, index)) <==> forall path :: !DependencyCycle(def, path)
  {
    KnownAreIndexed(def, index);
    if path: seq<nat> :| IsCycle(Resolved(def, index), path) {
      var ids := GraphCycleToSteps(def, index, path);
    }
    if ids: seq<StepId> :| DependencyCycle(def, ids) {
      var path := StepCycleToGraph(def, index, ids);
    }
  }

  /** Index the steps, refusing a repeated id. */
  method BuildIndex(steps: seq<StepSpec>) returns (r: Result<map<StepId, nat>, Invalid>)
    ensures r.Ok? <==> DistinctIds(steps)
    ensures r.Ok? ==> Indexes(r.value, steps)
    ensures r.Err? ==>
              exists i, j :: 0 <= i < j < |steps| && steps[i].id == steps[j].id && r.error == DuplicateStep(steps[j].id)
  {
    var index: map<StepId, nat> := map[];
    var i := 0;
    while i < |steps|
      invariant i <= |steps| && Indexes(index, steps[..i])
    {
      if steps[i].id in index {
        assert steps[index[steps[i].id]].id == steps[i].id;
        return Err(DuplicateStep(steps[i].id));
      }
      index := index[steps[i].id := i];
      i := i + 1;
    }
    assert steps[..i] == steps;
    return Ok(index);
  }

  /** The error names a step and one of its dependencies that no step has as its id. */
  ghost predicate NamesUnknown(def: WorkflowDef, e: Invalid)
    requires e.UnknownDependency?
  {
    DependsOn(def, e.step, e.dependency) && !HasStep(def, e.dependency)
  }

  /** Refuse a dependency on a step that does not exist. */
  method CheckDependencies(def: WorkflowDef, index: map<StepId, nat>) returns (r: Option<Invalid>)
    requires Indexes(index, def.steps)
    ensures r.None? <==> KnownDependencies(def)
    ensures r.Some? ==> r.value.UnknownDependency? && NamesUnknown(def, r.value)
  {
    var i := 0;
    while i < |def.steps|
      invariant i <= |def.steps|
      invariant forall a, d :: 0 <= a < i && d in def.steps[a].dependsOn ==> HasStep(def, d)
    {
      var t := 0;
      while t < |def.steps[i].dependsOn|
        invariant t <= |def.steps[i].dependsOn|
        invariant forall d :: d in def.steps[i].dependsOn[..t] ==> HasStep(def, d)
      {
        var d := def.steps[i].dependsOn[t];
        if d !in index {
          assert d in def.steps[i].dependsOn && !HasStep(def, d);
          return Some(UnknownDependency(def.steps[i].id, d));
        }
        assert HasStep(def, d);
        assert def.steps[i].dependsOn[..t + 1] == def.steps[i].dependsOn[..t] + [d];
        t := t + 1;
      }
      assert def.steps[i].dependsOn[..t] == def.steps[i].dependsOn;
      i := i + 1;
    }
    return None;
  }

  /** A definition becomes a workflow exactly when it has steps, no repeated id, no unknown dependency
      and no cycle. */
  method New(def: WorkflowDef) returns (r: Result<Workflow, Invalid>)
    ensures r.Ok? <==> Executable(def)
    ensures r.Ok? ==> r.value.def == def && Accepted(r.value)
    ensures r == Err(NoSteps) <==> def.steps == []
    ensures (r.Err? && r.error.DuplicateStep?) <==> def.steps != [] && !DistinctIds(def.steps)
    ensures r.Err? && r.error.DuplicateStep? ==>
              exists i, j :: 0 <= i < j < |def.steps| && def.steps[i].id == def.steps[j].id == r.error.id
    ensures (r.Err? && r.error.UnknownDependency?)
            <==> def.steps != [] && DistinctIds(def.steps) && !KnownDependencies(def)
    ensures r.Err? && r.error.UnknownDependency? ==> NamesUnknown(def, r.error)
    ensures r == Err(HasCycle)
            <==> def.steps != [] && DistinctIds(def.steps) && KnownDependencies(def) && !Executable(def)
  {
    if def.steps == [] {
      return Err(NoSteps);
    }
    var index := BuildIndex(def.steps);
    if index.Err? {
      return Err(index.error);
    }
    var unknown := CheckDependencies(def, index.value);
    if unknown.Some? {
      return Err(unknown.value);
    }
    ResolvedWellFormed(def, index.value);
    CyclesMatch(def, index.value);
    var ok := AssertAcyclic(Resolved(def, index.value));
    return if ok then Ok(Workflow(def, index.value)) else Err(HasCycle);
  }

  /** In an accepted workflow, as long as some step is not in `done`, some step outside `done` has all its
      dependencies in it. */
  lemma NoDeadlock(w: Workflow, done: set<StepId>)
    requires Accepted(w)
    requires forall i :: 0 <= i < |w.def.steps| && w.def.steps[i].id !in done ==>
              exists d :: d in w.def.steps[i].dependsOn && d !in done
    ensures forall i :: 0 <= i < |w.def.steps| ==> w.def.steps[i].id in done
  {
    var steps := w.def.steps;
    CyclesMatch(w.def, w.index);
    var g := Resolved(w.def, w.index);
    var s := set i: nat | i < |steps| && steps[i].id !in done;
    forall v | v in s
      ensures Waits(g, s, v)
    {
      var d :| d in steps[v].dependsOn && d !in done;
      var t :| 0 <= t < |steps[v].dependsOn| && steps[v].dependsOn[t] == d;
      assert d in w.index && g[v][t] == w.index[d] && w.index[d] in s;
    }
    if i :| 0 <= i < |steps| && steps[i].id !in done {
      assert i in s;
      StuckHasCycle(g, s);
      assert false;
    }
  }
}
