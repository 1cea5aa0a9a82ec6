/** The saga coordinator: runs the steps of accepted workflows in dependency order, rolls back on the
    first failure, and can finish a rollback that halted. Every history it leaves is legal. */
module SagaCoordinators {
  import opened Basics
  import opened Workflows
  import opened Sagas

  datatype OrchError =
    | Terminal(step: StepId, state: StepState)
    | WorkflowTerminal(flow: FlowState)
    | WorkflowTransition(current: FlowState, refused: FlowState)
    | NoExecutor(kind: string)
    | CompensateFailed(undone: StepId)
    | JournalDown

  /** The outside world: what the n-th call of an executor, of a compensator or of the journal does. */
  datatype World = World(
    run: (nat, WorkflowId, StepSpec) -> Result<Bytes, string>,
    undo: (nat, WorkflowId, StepSpec, Bytes) -> bool,
    append: nat -> bool)

  /** What happened to one workflow, and the number of the call behind each event. */
  datatype History = History(log: seq<Event>, asked: seq<nat>)

  const DEFAULT_COMPENSATION_ATTEMPTS: nat := 3

  ghost predicate Settled(log: seq<Event>) {
    !(log != [] && log[|log| - 1].Undid? && log[|log| - 1].ok)
  }

  ghost function IdSet(def: WorkflowDef): (r: set<StepId>) {
    set i | 0 <= i < |def.steps| :: def.steps[i].id
  }

  lemma IdSetSize(steps: seq<StepSpec>, ids: set<StepId>)
    requires DistinctIds(steps) && ids == set i | 0 <= i < |steps| :: steps[i].id
    ensures |ids| == |steps|
  {
    if steps != [] {
      var init, last := steps[..|steps| - 1], steps[|steps| - 1].id;
      var rest := set i | 0 <= i < |init| :: init[i].id;
      IdSetSize(init, rest);
      forall x | x in ids
        ensures x in rest || x == last
      {
        var i :| 0 <= i < |steps| && steps[i].id == x;
        assert i < |init| ==> init[i].id == x;
      }
      forall x | x in rest
        ensures x in ids && x != last
      {
        var i :| 0 <= i < |init| && init[i].id == x;
        assert steps[i].id == x;
      }
      assert ids == rest + {last};
    }
  }

  /** All steps are known and none has left Pending. */
  ghost predicate AllPending(def: WorkflowDef, p: Progress) {
    && p.state == Some(FlowRunning)
    && (forall i :: 0 <= i < |def.steps| ==> def.steps[i].id in p.steps)
    && (forall s :: s in p.steps ==> p.steps[s] == Pending)
  }

  lemma StartGoing(def: WorkflowDef, p: Progress)
    requires AllPending(def, p)
    ensures Going(def, p, {})
  {
  }

  /** Forward execution between two steps. */
  ghost predicate Going(def: WorkflowDef, p: Progress, committed: set<StepId>) {
    && p.state == Some(FlowRunning)
    && (forall i :: 0 <= i < |def.steps| ==> def.steps[i].id in p.steps)
    && OnlyForward(p)
    && (forall s :: s in committed <==> In(p, s, Committed))
    && committed <= IdSet(def)
  }

  /** No step has left Pending. */
  ghost predicate NeverStarted(p: Progress) {
    forall s :: s in p.steps ==> p.steps[s] == Pending
  }

  /** Running with some step past Pending: the forward run stopped half-way. */
  ghost predicate Stranded(p: Progress) {
    Default(p) == FlowRunning && !NeverStarted(p)
  }

  /** Running, or never touched, with no step past Pending. */
  ghost predicate Restartable(p: Progress) {
    Default(p) == FlowRunning && NeverStarted(p)
  }

  /** Why a forward run stopped half-way. */
  predicate Interrupted(e: OrchError) {
    e.NoExecutor? || e.JournalDown?
  }

  /** Where a failed execution that began in `p0` leaves the workflow: in a halted rollback, stranded half-way, or
      not started at all because the journal failed while the steps were put on Pending. */
  ghost predicate LeftBy(p0: Progress, p: Progress, e: OrchError) {
    || (NeverStarted(p0) && p.state == Some(Compensating) && Halted(p, e))
    || (Stranded(p) && (NeverStarted(p0) ==> Interrupted(e)))
    || (Restartable(p) && NeverStarted(p0) && e.JournalDown?)
  }

  /** Why a rollback stopped early. */
  ghost predicate Halted(p: Progress, e: OrchError) {
    (e.CompensateFailed? && LastStanding(p, e.undone)) || e.NoExecutor? || e.JournalDown?
  }

  lemma ReadyIsNew(def: WorkflowDef, p: Progress, i: nat, committed: set<StepId>)
    requires i < |def.steps| && IsReady(p, def.steps[i], committed)
    ensures def.steps[i].id in IdSet(def) && def.steps[i].id !in committed
  {
  }

  /** The record of how an executor ended. */
  function Ending(s: StepId, r: Result<Bytes, string>): (res: Event) {
    match r
    case Ok(out) => Recorded(s, Committed, out)
    case Err(why) => Recorded(s, Failed, why)
  }

  /** Starting a ready step and ending it keeps forward execution going, or leaves the step failed. */
  lemma StepEnds(def: WorkflowDef, p: Progress, i: nat, committed: set<StepId>, r: Result<Bytes, string>)
    requires Going(def, p, committed) && i < |def.steps| && IsReady(p, def.steps[i], committed)
    ensures var s := def.steps[i].id;
            var started := Apply(p, Recorded(s, Running, []));
            var ended := Apply(started, Ending(s, r));
            && In(p, s, Pending) && In(started, s, Running)
            && ended.state == Some(FlowRunning) && Stranded(ended)
            && (if r.Ok? then Going(def, ended, committed + {s}) else In(ended, s, Failed))
  {
    var s := def.steps[i].id;
    assert s in IdSet(def);
    assert In(Apply(Apply(p, Recorded(s, Running, [])), Ending(s, r)), s, if r.Ok? then Committed else Failed);
  }

  lemma StartMeans(p: Progress, s: StepId)
    requires p.state == Some(FlowRunning)
    ensures var p' := Apply(p, Recorded(s, Running, []));
            p'.state == Some(FlowRunning) && In(p', s, Running) && Stranded(p')
  {
  }

  lemma GoingRuns(def: WorkflowDef, p: Progress, committed: set<StepId>)
    requires Going(def, p, committed)
    ensures p.state == Some(FlowRunning)
  {
  }

  /** The first `i` steps have been put on Pending and nothing else has changed since `p0`. */
  ghost predicate Pended(def: WorkflowDef, p0: Progress, p: Progress, i: nat) {
    && i <= |def.steps|
    && p.state == Some(FlowRunning)
    && (forall s :: s in p0.steps ==> In(p, s, p0.steps[s]))
    && (forall s :: s in p.steps && s !in p0.steps ==> p.steps[s] == Pending)
    && (forall j :: 0 <= j < i ==> In(p, def.steps[j].id, Pending))
  }

  /** Putting steps on Pending neither starts nor forgets anything. */
  lemma PendedSame(def: WorkflowDef, p0: Progress, p: Progress, i: nat)
    requires Pended(def, p0, p, i)
    ensures p.state == Some(FlowRunning) && (NeverStarted(p) <==> NeverStarted(p0))
  {
    forall s | s in p0.steps
      ensures s in p.steps && p.steps[s] == p0.steps[s]
    {
      assert In(p, s, p0.steps[s]);
    }
  }

  lemma StartPending(def: WorkflowDef, p: Progress)
    requires p.state == Some(FlowRunning)
    ensures Pended(def, p, p, 0)
  {
  }

  lemma PendOne(def: WorkflowDef, p0: Progress, p: Progress, i: nat)
    requires Pended(def, p0, p, i) && i < |def.steps|
    ensures var s := def.steps[i].id;
            if s in p.steps && p.steps[s] != Pending then !NeverStarted(p0)
            else Pended(def, p0, Apply(p, Recorded(s, Pending, [])), i + 1)
  {
  }

  lemma AllPended(w: Workflow, p0: Progress, log: seq<Event>)
    requires Good(w.def, log) && Pended(w.def, p0, Replay(log), |w.def.steps|)
    ensures AllPending(w.def, Replay(log)) && NeverStarted(p0)
  {
    GoodInv(w.def, log);
    forall s | s in Replay(log).steps
      ensures Replay(log).steps[s] == Pending
    {
      assert HasStep(w.def, s);
    }
    forall s | s in p0.steps
      ensures p0.steps[s] == Pending
    {
      assert In(Replay(log), s, p0.steps[s]);
    }
  }

  predicate IsReady(p: Progress, s: StepSpec, committed: set<StepId>) {
    && s.id !in committed
    && (forall d :: d in s.dependsOn ==> d in committed)
    && (s.id in p.steps ==> p.steps[s.id] == Pending)
  }

  lemma ReadyMayStart(def: WorkflowDef, p: Progress, i: nat, committed: set<StepId>)
    requires DistinctIds(def.steps) && Going(def, p, committed) && i < |def.steps|
    requires IsReady(p, def.steps[i], committed)
    ensures HasStep(def, def.steps[i].id) && In(p, def.steps[i].id, Pending)
    ensures DependenciesCommitted(def, p, def.steps[i].id)
  {
  }

  /** When nothing is ready in an accepted workflow, everything has committed. */
  lemma NothingReadyMeansDone(w: Workflow, p: Progress, committed: set<StepId>)
    requires Accepted(w) && Going(w.def, p, committed)
    requires forall i :: 0 <= i < |w.def.steps| ==> !IsReady(p, w.def.steps[i], committed)
    ensures |committed| == |w.def.steps| && committed != {} && AllCommitted(w.def, p) && p.state == Some(FlowRunning)
    ensures committed == IdSet(w.def)
  {
    forall i | 0 <= i < |w.def.steps| && w.def.steps[i].id !in committed
      ensures exists d :: d in w.def.steps[i].dependsOn && d !in committed
    {
      assert !IsReady(p, w.def.steps[i], committed);
    }
    NoDeadlock(w, committed);
    assert committed == IdSet(w.def);
    IdSetSize(w.def.steps, committed);
  }

  // ---- Extending a legal history ----

  ghost predicate Extends(def: WorkflowDef, log: seq<Event>, e: Event) {
    Good(def, log + [e]) && Replay(log + [e]) == Apply(Replay(log), e)
  }

  lemma MayUndo(def: WorkflowDef, log: seq<Event>, s: StepId, given: Bytes, ok: bool)
    requires Good(def, log) && Settled(log) && Replay(log).state == Some(Compensating)
    requires LastStanding(Replay(log), s) && given == OutputOf(Replay(log), s)
    ensures Extends(def, log, Undid(s, given, ok)) && Apply(Replay(log), Undid(s, given, ok)) == Replay(log)
  {
    GoodSnoc(def, log, Undid(s, given, ok));
  }

  /** `n` calls of a compensator, all failing but perhaps the last. */
  function Tries(s: StepId, given: Bytes, n: nat, ok: bool): (r: seq<Event>) {
    if n == 0 then [] else seq(n - 1, _ => Undid(s, given, false)) + [Undid(s, given, ok)]
  }

  lemma TriesSize(s: StepId, given: Bytes)
    ensures forall n: nat, ok :: |Tries(s, given, n, ok)| == n
  {
  }

  lemma TriesSnoc(log: seq<Event>, s: StepId, given: Bytes, n: nat, ok: bool)
    ensures log + Tries(s, given, n, false) + [Undid(s, given, ok)] == log + Tries(s, given, n + 1, ok)
  {
    assert Tries(s, given, n, false) == seq(n, _ => Undid(s, given, false));
  }

  lemma MayMarkUndone(def: WorkflowDef, log: seq<Event>, s: StepId)
    requires Good(def, log) && log != [] && log[|log| - 1].Undid? && log[|log| - 1].ok && log[|log| - 1].step == s
    ensures Extends(def, log, Recorded(s, Compensated, [])) && In(Replay(log), s, Committed)
  {
    AfterUndid(def, log);
    assert HasStep(def, s) by {
      GoodInv(def, log);
    }
    GoodSnoc(def, log, Recorded(s, Compensated, []));
  }

  lemma UndoneMeans(p: Progress, s: StepId)
    requires In(p, s, Committed)
    ensures var p' := Apply(p, Recorded(s, Compensated, []));
            p'.order == p.order && p'.state == p.state && p'.steps == p.steps[s := Compensated]
  {
  }

  /** The coordinator's occasions to enter a workflow state. */
  ghost predicate MayGoTo(def: WorkflowDef, p: Progress, to: FlowState) {
    match to
    case FlowRunning => p.state.None? || p.state.value == FlowRunning
    case Succeeded => p.state == Some(FlowRunning) && AllCommitted(def, p)
    case FlowFailed => false
    case Compensating => p.state == Some(FlowRunning) && exists s :: In(p, s, Failed)
    case FlowCompensated => p.state == Some(Compensating) && AllUndone(p)
  }

  lemma MayEnter(def: WorkflowDef, log: seq<Event>, to: FlowState)
    requires Good(def, log) && Settled(log) && MayGoTo(def, Replay(log), to)
    ensures Extends(def, log, Entered(to))
  {
    GoodSnoc(def, log, Entered(to));
  }

  lemma EnterMeans(p: Progress, log: seq<Event>, to: FlowState)
    ensures Settled(log + [Entered(to)])
    ensures Apply(p, Entered(to)) == p.(state := Some(to)) && (NeverStarted(Apply(p, Entered(to))) <==> NeverStarted(p))
  {
  }

  lemma MayPend(def: WorkflowDef, log: seq<Event>, i: nat)
    requires Good(def, log) && Settled(log) && Replay(log).state == Some(FlowRunning) && i < |def.steps|
    requires def.steps[i].id in Replay(log).steps ==> Replay(log).steps[def.steps[i].id] == Pending
    ensures Extends(def, log, Recorded(def.steps[i].id, Pending, []))
  {
    GoodSnoc(def, log, Recorded(def.steps[i].id, Pending, []));
  }

  lemma MayStart(w: Workflow, log: seq<Event>, i: nat, committed: set<StepId>)
    requires Accepted(w) && Good(w.def, log) && Settled(log) && i < |w.def.steps|
    requires Going(w.def, Replay(log), committed) && IsReady(Replay(log), w.def.steps[i], committed)
    ensures In(Replay(log), w.def.steps[i].id, Pending)
    ensures Extends(w.def, log, Recorded(w.def.steps[i].id, Running, []))
  {
    var def := w.def;
    ReadyMayStart(def, Replay(log), i, committed);
    GoodSnoc(def, log, Recorded(def.steps[i].id, Running, []));
  }

  lemma MayRun(def: WorkflowDef, log: seq<Event>, s: StepId, r: Result<Bytes, string>)
    requires Good(def, log) && log != [] && log[|log| - 1] == Recorded(s, Running, [])
    ensures Extends(def, log, Ran(s, r)) && Apply(Replay(log), Ran(s, r)) == Replay(log)
  {
    GoodSnoc(def, log, Ran(s, r));
  }

  lemma MayFinish(def: WorkflowDef, log: seq<Event>, s: StepId, r: Result<Bytes, string>)
    requires Good(def, log) && log != [] && log[|log| - 1] == Ran(s, r)
    ensures In(Replay(log), s, Running)
    ensures Extends(def, log, Ending(s, r))
  {
    AfterRan(def, log);
    assert HasStep(def, s) by {
      GoodInv(def, log);
    }
    GoodSnoc(def, log, Ending(s, r));
  }

  /** The latest committed step not yet undone, found walking the order backwards. */
  lemma NextToUndo(def: WorkflowDef, log: seq<Event>, k: nat)
    requires Good(def, log) && k < |Replay(log).order|
    requires forall j :: k < j < |Replay(log).order| ==> In(Replay(log), Replay(log).order[j], Compensated)
    ensures HasStep(def, Replay(log).order[k])
    ensures In(Replay(log), Replay(log).order[k], Compensated) || LastStanding(Replay(log), Replay(log).order[k])
  {
    GoodInv(def, log);
  }

  // ---- What the world answered ----

  /** A logged call is one of a step of the workflow, and its result is what the world answered to call `n`. */
  ghost predicate Told(world: World, def: WorkflowDef, e: Event, n: nat) {
    match e
    case Ran(s, r) =>
      exists i :: 0 <= i < |def.steps| && def.steps[i].id == s && r == world.run(n, def.id, def.steps[i])
    case Undid(s, given, ok) =>
      exists i :: 0 <= i < |def.steps| && def.steps[i].id == s && ok == world.undo(n, def.id, def.steps[i], given)
    case _ => true
  }

  /** The call numbers of a history: every event but an entry into a workflow state has one of its own, in order. */
  ghost predicate Numbered(log: seq<Event>, asked: seq<nat>, calls: nat) {
    && |asked| == |log|
    && (forall k :: 0 <= k < |log| ==> asked[k] <= calls && (!log[k].Entered? ==> asked[k] < calls))
    && (forall k, l :: 0 <= k < l < |log| ==> asked[k] <= asked[l] && (!log[k].Entered? ==> asked[k] < asked[l]))
  }

  /** Nothing in the history is made up. */
  ghost predicate Truthful(world: World, def: WorkflowDef, log: seq<Event>, asked: seq<nat>, calls: nat) {
    Numbered(log, asked, calls) && forall k :: 0 <= k < |log| ==> Told(world, def, log[k], asked[k])
  }

  lemma TruthfulSnoc(world: World, def: WorkflowDef, log: seq<Event>, asked: seq<nat>, calls: nat, e: Event)
    requires Truthful(world, def, log, asked, calls) && Told(world, def, e, calls)
    ensures Truthful(world, def, log + [e], asked + [calls], if e.Entered? then calls else calls + 1)
  {
    hide Told;
  }

  lemma RanIsTold(world: World, def: WorkflowDef, i: nat, n: nat)
    requires i < |def.steps|
    ensures Told(world, def, Ran(def.steps[i].id, world.run(n, def.id, def.steps[i])), n)
  {
  }

  lemma UndidIsTold(world: World, def: WorkflowDef, i: nat, given: Bytes, n: nat)
    requires i < |def.steps|
    ensures Told(world, def, Undid(def.steps[i].id, given, world.undo(n, def.id, def.steps[i], given)), n)
  {
  }

  lemma MoveIsTold(world: World, def: WorkflowDef, e: Event, n: nat)
    requires e.Entered? || e.Recorded?
    ensures Told(world, def, e, n)
  {
  }

  /** The executor of the i-th step answered so to one of these calls. */
  ghost predicate RanSo(world: World, def: WorkflowDef, i: nat, ok: bool, first: nat, calls: nat)
    requires i < |def.steps|
  {
    exists n :: first <= n < calls && world.run(n, def.id, def.steps[i]).Ok? == ok
  }

  ghost predicate AllRanWell(world: World, def: WorkflowDef, first: nat, calls: nat) {
    forall i :: 0 <= i < |def.steps| ==> RanSo(world, def, i, true, first, calls)
  }

  ghost predicate SomeRefused(world: World, def: WorkflowDef, first: nat, calls: nat) {
    exists i :: 0 <= i < |def.steps| && RanSo(world, def, i, false, first, calls)
  }

  /** The result logged for a step is what its own executor answered. */
  lemma RunAnswer(world: World, w: Workflow, log: seq<Event>, asked: seq<nat>, calls: nat, k: nat, i: nat)
    requires Accepted(w) && Truthful(world, w.def, log, asked, calls) && k < |log| && log[k].Ran?
    requires i < |w.def.steps| && log[k].step == w.def.steps[i].id
    ensures |asked| == |log| && asked[k] < calls && log[k].result == world.run(asked[k], w.def.id, w.def.steps[i])
  {
    assert Told(world, w.def, log[k], asked[k]);
    var j :| 0 <= j < |w.def.steps| && w.def.steps[j].id == log[k].step
             && log[k].result == world.run(asked[k], w.def.id, w.def.steps[j]);
    SameId(w.def.steps, i, j);
  }

  /** Where a step stands is what the world answered about it: a committed step's executor returned the output that
      is kept, a failed step's refused, and an undone step's compensator accepted that output. */
  lemma StepsAreEarned(world: World, w: Workflow, log: seq<Event>, asked: seq<nat>, calls: nat, i: nat)
    requires Accepted(w) && Good(w.def, log) && Truthful(world, w.def, log, asked, calls) && i < |w.def.steps|
    ensures var p, spec := Replay(log), w.def.steps[i];
            && (In(p, spec.id, Committed) || In(p, spec.id, Compensated) ==>
                  exists n :: 0 <= n < calls && world.run(n, w.def.id, spec) == Ok(OutputOf(p, spec.id)))
            && (In(p, spec.id, Failed) ==> exists n :: 0 <= n < calls && world.run(n, w.def.id, spec).Err?)
            && (In(p, spec.id, Compensated) ==>
                  exists n :: 0 <= n < calls && world.undo(n, w.def.id, spec, OutputOf(p, spec.id)))
  {
    hide Good, Replay, Accepted, Truthful, OutputOf;
    var p, s := Replay(log), w.def.steps[i].id;
    if In(p, s, Committed) || In(p, s, Compensated) {
      var k := CommittedRan(w.def, log, s);
      RunAnswer(world, w, log, asked, calls, k, i);
    }
    if In(p, s, Failed) {
      var k := FailedRan(w.def, log, s);
      RunAnswer(world, w, log, asked, calls, k, i);
    }
    if In(p, s, Compensated) {
      var k := CompensatedUndid(w.def, log, s);
      UndoAnswer(world, w, log, asked, calls, k, i);
    }
  }

  lemma UndoAnswer(world: World, w: Workflow, log: seq<Event>, asked: seq<nat>, calls: nat, k: nat, i: nat)
    requires Accepted(w) && Truthful(world, w.def, log, asked, calls) && k < |log| && log[k].Undid?
    requires i < |w.def.steps| && log[k].step == w.def.steps[i].id
    ensures |asked| == |log| && asked[k] < calls
    ensures log[k].ok == world.undo(asked[k], w.def.id, w.def.steps[i], log[k].given)
  {
    assert Told(world, w.def, log[k], asked[k]);
    var j :| 0 <= j < |w.def.steps| && w.def.steps[j].id == log[k].step
             && log[k].ok == world.undo(asked[k], w.def.id, w.def.steps[j], log[k].given);
    SameId(w.def.steps, i, j);
  }

  lemma SameId(steps: seq<StepSpec>, i: nat, j: nat)
    requires DistinctIds(steps) && i < |steps| && j < |steps| && steps[i].id == steps[j].id
    ensures i == j
  {
  }

  /** Every step of the set ran well. */
  ghost predicate ToldOf(world: World, def: WorkflowDef, steps: set<StepId>, first: nat, calls: nat) {
    forall i :: 0 <= i < |def.steps| && def.steps[i].id in steps ==> RanSo(world, def, i, true, first, calls)
  }

  lemma RanSoLater(world: World, def: WorkflowDef, i: nat, ok: bool, first: nat, from: nat, at: nat, calls: nat)
    requires i < |def.steps| && first <= from && at <= calls && RanSo(world, def, i, ok, from, at)
    ensures RanSo(world, def, i, ok, first, calls)
  {
  }

  lemma ToldOfNone(world: World, def: WorkflowDef, first: nat, calls: nat)
    ensures ToldOf(world, def, {}, first, calls)
  {
  }

  lemma ToldOfMore(world: World, w: Workflow, steps: set<StepId>, i: nat, first: nat, at: nat, calls: nat)
    requires Accepted(w) && i < |w.def.steps| && first <= at <= calls
    requires ToldOf(world, w.def, steps, first, at) && RanSo(world, w.def, i, true, at, calls)
    ensures ToldOf(world, w.def, steps + {w.def.steps[i].id}, first, calls)
  {
    hide RanSo;
    forall j | 0 <= j < |w.def.steps| && w.def.steps[j].id in steps + {w.def.steps[i].id}
      ensures RanSo(world, w.def, j, true, first, calls)
    {
      if w.def.steps[j].id in steps {
        RanSoLater(world, w.def, j, true, first, first, at, calls);
      } else {
        SameId(w.def.steps, i, j);
        RanSoLater(world, w.def, i, true, first, at, calls, calls);
      }
    }
  }

  lemma ToldOfAll(world: World, w: Workflow, steps: set<StepId>, first: nat, calls: nat)
    requires ToldOf(world, w.def, steps, first, calls)
    ensures steps == IdSet(w.def) ==> AllRanWell(world, w.def, first, calls)
  {
    hide RanSo;
  }

  lemma ToldSooner(world: World, def: WorkflowDef, first: nat, from: nat, calls: nat)
    requires first <= from
    ensures AllRanWell(world, def, from, calls) ==> AllRanWell(world, def, first, calls)
    ensures SomeRefused(world, def, from, calls) ==> SomeRefused(world, def, first, calls)
  {
    forall i, ok | 0 <= i < |def.steps| && RanSo(world, def, i, ok, from, calls)
      ensures RanSo(world, def, i, ok, first, calls)
    {
    }
  }

  lemma RefusedLater(world: World, def: WorkflowDef, i: nat, first: nat, at: nat, calls: nat)
    requires i < |def.steps| && first <= at
    ensures RanSo(world, def, i, false, at, calls) ==> SomeRefused(world, def, first, calls)
  {
    if RanSo(world, def, i, false, at, calls) {
      RanSoLater(world, def, i, false, first, at, calls, calls);
    }
    hide RanSo;
  }

  /** The history ends with `n` refused calls of the compensator of `s`. */
  ghost predicate GaveUp(log: seq<Event>, s: StepId, n: nat) {
    n <= |log| && forall k :: |log| - n <= k < |log| ==> log[k].Undid? && log[k].step == s && !log[k].ok
  }

  lemma RecordedSettles(log: seq<Event>, s: StepId, to: StepState, output: Bytes)
    ensures Settled(log + [Recorded(s, to, output)])
  {
  }

  lemma UpdateElsewhere<K, V>(m: map<K, V>, k: K, v: V)
    ensures m[k := v] - {k} == m - {k}
  {
  }

  lemma TriesGiveUp(log: seq<Event>, s: StepId, given: Bytes, n: nat)
    ensures GaveUp(log + Tries(s, given, n, false), s, n)
  {
  }

  class SagaCoordinator {
    const world: World
    var executors: set<string>
    var compensators: set<string>
    var attempts: nat
    var seqNo: nat
    var calls: nat
    var flows: map<WorkflowId, Progress>
    ghost var logs: map<WorkflowId, History>

    function Flow(id: WorkflowId): (r: Progress)
      reads this
    {
      if id in flows then flows[id] else FRESH
    }

    ghost function Log(id: WorkflowId): (r: seq<Event>)
      reads this
    {
      if id in logs then logs[id].log else []
    }

    /** The number of the call behind each event of the history. */
    ghost function Asked(id: WorkflowId): (r: seq<nat>)
      reads this
    {
      if id in logs then logs[id].asked else []
    }

    /** The history says what the world answered. */
    ghost predicate Answered(w: Workflow)
      reads this
    {
      Truthful(world, w.def, Log(w.def.id), Asked(w.def.id), calls)
    }

    /** The state kept for the workflow is what its history replays to, and that history is legal. */
    ghost predicate Tracked(w: Workflow)
      reads this
    {
      Good(w.def, Log(w.def.id)) && Flow(w.def.id) == Replay(Log(w.def.id))
    }

    ghost predicate Valid(w: Workflow)
      reads this
    {
      Accepted(w) && Tracked(w) && Settled(Log(w.def.id)) && Answered(w) && attempts >= 1
    }

    /** Only workflow `id` moved, and its history only grew. */
    twostate predicate OnlyMoves(id: WorkflowId)
      reads this
    {
      && flows - {id} == old(flows) - {id}
      && logs - {id} == old(logs) - {id}
      && executors == old(executors) && compensators == old(compensators) && attempts == old(attempts)
      && |old(Log(id))| <= |Log(id)| && Log(id)[..|old(Log(id))|] == old(Log(id))
      && AsksAnew(id)
    }

    /** New events have call numbers that nobody has used before. */
    twostate predicate AsksAnew(id: WorkflowId)
      reads this
    {
      && old(Asked(id)) <= Asked(id)
      && (forall k :: |old(Asked(id))| <= k < |Asked(id)| ==> Asked(id)[k] >= old(calls))
      && calls >= old(calls)
    }

    /** The error is true: the named kind is not registered for what was to be done, or the compensator has just
        refused as often as it may be asked. */
    ghost predicate Excused(w: Workflow, e: OrchError)
      reads this
    {
      match e
      case NoExecutor(kind) =>
        exists i :: 0 <= i < |w.def.steps| && w.def.steps[i].kind == kind
                    && kind !in (if Flow(w.def.id).state == Some(Compensating) then compensators else executors)
      case CompensateFailed(s) => GaveUp(Log(w.def.id), s, attempts)
      case _ => true
    }

    /** Some call of the journal since then failed. */
    twostate predicate JournalFailed()
      reads this
    {
      exists n :: old(calls) <= n < calls && !world.append(n)
    }

    /** Workflow `id` made exactly the step `e`. */
    twostate predicate Logged(id: WorkflowId, e: Event)
      reads this
    {
      && OnlyMoves(id)
      && Flow(id) == Apply(old(Flow(id)), e)
      && Log(id) == old(Log(id)) + [e]
      && Asked(id) == old(Asked(id)) + [old(calls)]
      && calls == (if e.Entered? then old(calls) else old(calls) + 1)
    }

    /** No executor and no compensator was called. */
    twostate predicate NoCallSince(id: WorkflowId)
      reads this
    {
      forall k :: |old(Log(id))| <= k < |Log(id)| ==> !Log(id)[k].Ran? && !Log(id)[k].Undid?
    }

    /** Some step has an executor. */
    ghost predicate SomeEquipped(w: Workflow)
      reads this
    {
      exists i :: 0 <= i < |w.def.steps| && w.def.steps[i].kind in executors
    }

    ghost predicate RunsWork(w: Workflow)
      reads this
    {
      && Equipped(w)
      && (forall n: nat, i :: 0 <= i < |w.def.steps| ==> world.run(n, w.def.id, w.def.steps[i]).Ok?)
      && (forall n: nat :: world.append(n))
    }

    ghost predicate Equipped(w: Workflow)
      reads this
    {
      forall i :: 0 <= i < |w.def.steps| ==> w.def.steps[i].kind in executors
    }

    ghost predicate UndosWork(w: Workflow)
      reads this
    {
      && (forall i :: 0 <= i < |w.def.steps| ==> w.def.steps[i].kind in compensators)
      && (forall n: nat, i, b :: 0 <= i < |w.def.steps| ==> world.undo(n, w.def.id, w.def.steps[i], b))
      && (forall n: nat :: world.append(n))
    }

    constructor (world: World)
      ensures this.world == world && flows == map[] && logs == map[] && attempts == DEFAULT_COMPENSATION_ATTEMPTS
      ensures calls == 0
      ensures executors == {} && compensators == {}
    {
      this.world := world;
      executors, compensators, attempts := {}, {}, DEFAULT_COMPENSATION_ATTEMPTS;
      seqNo, calls, flows, logs := 0, 0, map[], map[];
    }

    /** Zero attempts would mark steps undone without undoing them, so one is the least. */
    method SetCompensationAttempts(n: nat)
      modifies this`attempts
      ensures attempts >= 1 && attempts >= n && (n >= 1 ==> attempts == n)
    {
      attempts := if n == 0 then 1 else n;
    }

    method RegisterExecutor(kind: string)
      modifies this`executors
      ensures executors == old(executors) + {kind}
    {
      executors := executors + {kind};
    }

    method RegisterCompensator(kind: string)
      modifies this`compensators
      ensures compensators == old(compensators) + {kind}
    {
      compensators := compensators + {kind};
    }

    /** Move a step, if the table allows it, and then journal the move; a journal failure is reported but
        the move stands. */
    method Record(id: WorkflowId, step: StepId, to: StepState, output: Bytes) returns (r: Result<nat, OrchError>)
      modifies this
      ensures var p := old(Flow(id));
              if step in p.steps && !p.steps[step].CanBecome(to)
              then r == Err(Terminal(step, p.steps[step])) && flows == old(flows) && logs == old(logs) && OnlyMoves(id)
                   && calls == old(calls)
              else Logged(id, Recorded(step, to, output)) && seqNo == old(seqNo) + 1
                   && r == if world.append(old(calls)) then Ok(seqNo) else Err(JournalDown)
    {
      hide Truthful, Good, Replay, Legal, Settled;
      var p := Flow(id);
      if step in p.steps && !p.steps[step].CanBecome(to) {
        return Err(Terminal(step, p.steps[step]));
      }
      seqNo := seqNo + 1;
      p := p.(steps := p.steps[step := to]);
      if output != [] {
        p := p.(outputs := p.outputs[step := output]);
      }
      if to == Committed {
        p := p.(order := p.order + [step]);
      }
      UpdateElsewhere(flows, id, p);
      flows := flows[id := p];
      ghost var history := History(Log(id) + [Recorded(step, to, output)], Asked(id) + [calls]);
      UpdateElsewhere(logs, id, history);
      logs := logs[id := history];
      var ok := world.append(calls);
      calls := calls + 1;
      return if ok then Ok(seqNo) else Err(JournalDown);
    }

    /** The only place a workflow's state changes; the table decides. */
    method SetFlow(id: WorkflowId, to: FlowState) returns (r: Result<(), OrchError>)
      modifies this
      ensures var p := old(Flow(id));
              if p.state.Some? && !p.state.value.CanBecome(to)
              then r == Err(WorkflowTransition(p.state.value, to)) && flows == old(flows) && logs == old(logs)
                      && OnlyMoves(id) && calls == old(calls)
              else Logged(id, Entered(to)) && r == Ok(())
    {
      var p := Flow(id);
      if p.state.Some? && !p.state.value.CanBecome(to) {
        return Err(WorkflowTransition(p.state.value, to));
      }
      flows := flows[id := p.(state := Some(to))];
      logs := logs[id := History(Log(id) + [Entered(to)], Asked(id) + [calls])];
      return Ok(());
    }

    /** Record a move of a step that its history allows. */
    method Mark(w: Workflow, s: StepId, to: StepState, output: Bytes) returns (r: Result<nat, OrchError>)
      requires Accepted(w) && Tracked(w) && Answered(w) && attempts >= 1
      requires s in Flow(w.def.id).steps && !Flow(w.def.id).steps[s].CanBecome(to) ==> Settled(Log(w.def.id))
      requires !(s in Flow(w.def.id).steps && !Flow(w.def.id).steps[s].CanBecome(to)) ==>
                 Extends(w.def, Log(w.def.id), Recorded(s, to, output))
      modifies this
      ensures OnlyMoves(w.def.id) && Valid(w) && NoCallSince(w.def.id)
      ensures var p := old(Flow(w.def.id));
              if s in p.steps && !p.steps[s].CanBecome(to)
              then r == Err(Terminal(s, p.steps[s])) && flows == old(flows) && logs == old(logs) && calls == old(calls)
              else Flow(w.def.id) == Apply(p, Recorded(s, to, output)) && calls == old(calls) + 1
                   && r == (if world.append(old(calls)) then Ok(seqNo) else Err(JournalDown))
                   && Log(w.def.id) == old(Log(w.def.id)) + [Recorded(s, to, output)]
    {
      hide Truthful, Good, Replay, Apply, Accepted, Settled, Legal, Told, Numbered;
      var id := w.def.id;
      RecordedSettles(Log(id), s, to, output);
      MoveIsTold(world, w.def, Recorded(s, to, output), calls);
      TruthfulSnoc(world, w.def, Log(id), Asked(id), calls, Recorded(s, to, output));
      r := Record(id, s, to, output);
    }

    /** Move an accepted workflow on to the state that it is due for; the table still decides. */
    method GoTo(w: Workflow, to: FlowState) returns (r: Result<(), OrchError>)
      requires Valid(w)
      requires Flow(w.def.id).state.None? || Default(Flow(w.def.id)).CanBecome(to) ==>
                 MayGoTo(w.def, Flow(w.def.id), to)
      modifies this
      ensures OnlyMoves(w.def.id) && Valid(w) && calls == old(calls) && NoCallSince(w.def.id)
      ensures if old(Flow(w.def.id)).state.None? || Default(old(Flow(w.def.id))).CanBecome(to)
              then r == Ok(()) && Flow(w.def.id) == old(Flow(w.def.id)).(state := Some(to))
              else r == Err(WorkflowTransition(Default(old(Flow(w.def.id))), to)) && flows == old(flows)
                   && logs == old(logs)
    {
      hide Truthful, Good, Replay, Legal, Accepted, MayGoTo, LastStanding;
      var id := w.def.id;
      if Flow(id).state.None? || Default(Flow(id)).CanBecome(to) {
        MayEnter(w.def, Log(id), to);
        EnterMeans(Flow(id), Log(id), to);
        MoveIsTold(world, w.def, Entered(to), calls);
        TruthfulSnoc(world, w.def, Log(id), Asked(id), calls, Entered(to));
      }
      r := SetFlow(id, to);
    }

    method RunStep(id: WorkflowId, step: StepSpec) returns (r: Result<Bytes, string>)
      modifies this
      ensures Logged(id, Ran(step.id, r)) && flows == old(flows)
      ensures r == world.run(old(calls), id, step)
    {
      r := world.run(calls, id, step);
      logs := logs[id := History(Log(id) + [Ran(step.id, r)], Asked(id) + [calls])];
      calls := calls + 1;
    }

    /** One call of the compensator of a step that may be undone. */
    method UndoOnce(w: Workflow, i: nat, output: Bytes) returns (ok: bool)
      requires Valid(w) && Flow(w.def.id).state == Some(Compensating) && i < |w.def.steps|
      requires LastStanding(Flow(w.def.id), w.def.steps[i].id)
      requires output == OutputOf(Flow(w.def.id), w.def.steps[i].id)
      modifies this
      ensures OnlyMoves(w.def.id) && flows == old(flows) && Tracked(w) && Answered(w) && calls == old(calls) + 1
      ensures ok == world.undo(old(calls), w.def.id, w.def.steps[i], output)
      ensures Log(w.def.id) == old(Log(w.def.id)) + [Undid(w.def.steps[i].id, output, ok)]
    {
      hide Truthful, Good, Replay, LastStanding, OutputOf, Accepted, Apply;
      var id, step := w.def.id, w.def.steps[i];
      ok := world.undo(calls, id, step, output);
      UndidIsTold(world, w.def, i, output, calls);
      TruthfulSnoc(world, w.def, Log(id), Asked(id), calls, Undid(step.id, output, ok));
      MayUndo(w.def, Log(id), step.id, output, ok);
      logs := logs[id := History(Log(id) + [Undid(step.id, output, ok)], Asked(id) + [calls])];
      calls := calls + 1;
    }

    /** Call the compensator until it succeeds or the attempts are used up. */
    method TryUndo(w: Workflow, i: nat, output: Bytes) returns (ok: bool)
      requires Valid(w) && Flow(w.def.id).state == Some(Compensating) && i < |w.def.steps|
      requires LastStanding(Flow(w.def.id), w.def.steps[i].id)
      requires output == OutputOf(Flow(w.def.id), w.def.steps[i].id)
      modifies this
      ensures OnlyMoves(w.def.id) && flows == old(flows) && Tracked(w) && Answered(w)
      ensures ok ==> Log(w.def.id) != [] && Log(w.def.id)[|Log(w.def.id)| - 1] == Undid(w.def.steps[i].id, output, true)
      ensures !ok ==> Settled(Log(w.def.id))
      ensures var n := |Log(w.def.id)| - |old(Log(w.def.id))|;
              && 1 <= n <= attempts && (!ok ==> n == attempts) && calls == old(calls) + n
              && Log(w.def.id) == old(Log(w.def.id)) + Tries(w.def.steps[i].id, output, n, ok)
      ensures ok == exists n :: old(calls) <= n < old(calls) + attempts
                                && world.undo(n, w.def.id, w.def.steps[i], output)
      ensures (forall n: nat :: world.undo(n, w.def.id, w.def.steps[i], output)) ==> ok
    {
      hide Truthful, Good, Replay, LastStanding, OutputOf, Accepted, Apply, Tries;
      var id, s := w.def.id, w.def.steps[i].id;
      TriesSize(s, output);
      ok := false;
      var n := 0;
      while n < attempts && !ok
        invariant n <= attempts && attempts == old(attempts) && calls == old(calls) + n && (ok ==> n > 0)
        invariant Log(id) == old(Log(id)) + Tries(s, output, n, ok)
        invariant OnlyMoves(id) && flows == old(flows) && Tracked(w) && Answered(w)
        invariant ok ==> Log(id) != [] && Log(id)[|Log(id)| - 1] == Undid(s, output, true)
        invariant !ok ==> Settled(Log(id))
        invariant ok == exists m :: old(calls) <= m < calls && world.undo(m, id, w.def.steps[i], output)
        invariant n > 0 && (forall m: nat :: world.undo(m, id, w.def.steps[i], output)) ==> ok
      {
        ok := UndoOnce(w, i, output);
        TriesSnoc(old(Log(id)), s, output, n, ok);
        n := n + 1;
      }
    }

    /** The compensator has just succeeded: mark the step undone. */
    method MarkUndone(w: Workflow, s: StepId) returns (r: Result<(), OrchError>)
      requires Accepted(w) && Tracked(w) && Answered(w) && attempts >= 1 && Log(w.def.id) != []
      requires var last := Log(w.def.id)[|Log(w.def.id)| - 1]; last.Undid? && last.ok && last.step == s
      modifies this
      ensures OnlyMoves(w.def.id) && Valid(w)
      ensures Flow(w.def.id).order == old(Flow(w.def.id)).order && Flow(w.def.id).state == old(Flow(w.def.id)).state
      ensures Flow(w.def.id).steps == old(Flow(w.def.id)).steps[s := Compensated]
      ensures r == (if world.append(old(calls)) then Ok(()) else Err(JournalDown)) && calls == old(calls) + 1
    {
      hide Truthful, Good, Replay, LastStanding, Legal, Apply, Accepted, Settled;
      MayMarkUndone(w.def, Log(w.def.id), s);
      UndoneMeans(Flow(w.def.id), s);
      var rec := Mark(w, s, Compensated, []);
      r := if rec.Ok? then Ok(()) else Err(rec.error);
    }

    /** Undo the last standing step and mark it undone. */
    method UndoStep(w: Workflow, s: StepId) returns (r: Result<(), OrchError>)
      requires Valid(w) && Flow(w.def.id).state == Some(Compensating)
      requires LastStanding(Flow(w.def.id), s) && HasStep(w.def, s)
      modifies this
      ensures OnlyMoves(w.def.id) && Valid(w) && Flow(w.def.id).state == Some(Compensating)
      ensures r.Ok? ==>
                && Flow(w.def.id).order == old(Flow(w.def.id)).order
                && Flow(w.def.id).steps == old(Flow(w.def.id)).steps[s := Compensated]
      ensures r.Err? ==> Halted(Flow(w.def.id), r.error)
      ensures UndosWork(w) ==> r.Ok?
      ensures r == Err(JournalDown) ==> JournalFailed()
      ensures r.Err? ==> Excused(w, r.error)
    {
      hide Truthful, Good, Replay, LastStanding, OutputOf, Legal, Apply, Tries, GaveUp, AllUndone, Numbered;
      var id := w.def.id;
      var i := w.index[s];
      var spec := w.def.steps[i];
      if spec.kind !in compensators {
        return Err(NoExecutor(spec.kind));
      }
      var output := OutputOf(Flow(id), s);
      var ok := TryUndo(w, i, output);
      if !ok {
        TriesGiveUp(old(Log(id)), s, output, attempts);
        return Err(CompensateFailed(s));
      }
      r := MarkUndone(w, s);
    }

    /** Undo the committed steps, latest first, skipping those already undone; halt at the first one that
        cannot be undone. */
    method CompensateCommitted(w: Workflow) returns (r: Result<(), OrchError>)
      requires Valid(w) && Flow(w.def.id).state == Some(Compensating)
      modifies this
      ensures OnlyMoves(w.def.id) && Valid(w) && Flow(w.def.id).state == Some(Compensating)
      ensures r.Ok? ==> AllUndone(Flow(w.def.id))
      ensures r.Err? ==> Halted(Flow(w.def.id), r.error)
      ensures UndosWork(w) ==> r.Ok?
      ensures r == Err(JournalDown) ==> JournalFailed()
      ensures r.Err? ==> Excused(w, r.error)
    {
      hide Truthful, Good, Replay, LastStanding, Legal, Apply, Accepted, Halted, Settled;
      var id := w.def.id;
      var order := Flow(id).order;
      var k := |order|;
      while k > 0
        invariant 0 <= k <= |order| && order == Flow(id).order
        invariant OnlyMoves(id) && Valid(w) && Flow(id).state == Some(Compensating)
        invariant forall j :: k <= j < |order| ==> In(Flow(id), order[j], Compensated)
      {
        k := k - 1;
        var s := order[k];
        NextToUndo(w.def, Log(id), k);
        if In(Flow(id), s, Compensated) {
          continue;
        }
        var undone := UndoStep(w, s);
        if undone.Err? {
          return Err(undone.error);
        }
      }
      return Ok(());
    }

    /** Finish a rollback that halted; anything else is refused. */
    method ResumeCompensation(w: Workflow) returns (r: Result<FlowState, OrchError>)
      requires Valid(w)
      modifies this
      ensures OnlyMoves(w.def.id) && Valid(w)
      ensures Default(old(Flow(w.def.id))) != Compensating ==>
                r == Err(WorkflowTransition(Default(old(Flow(w.def.id))), FlowCompensated)) && flows == old(flows)
                        && logs == old(logs)
      ensures Default(old(Flow(w.def.id))) == Compensating && r.Ok? ==>
                r == Ok(FlowCompensated) && Flow(w.def.id).state == Some(FlowCompensated)
      ensures Default(old(Flow(w.def.id))) == Compensating && r.Err? ==>
                && Flow(w.def.id).state == Some(Compensating)
                && Halted(Flow(w.def.id), r.error)
      ensures UndosWork(w) ==> (r.Ok? <==> Default(old(Flow(w.def.id))) == Compensating)
      ensures r == Err(JournalDown) ==> JournalFailed()
      ensures r.Err? ==> Excused(w, r.error)
    {
      hide Truthful, Good, Replay, LastStanding, Legal, Accepted;
      var id := w.def.id;
      var current := Default(Flow(id));
      if current != Compensating {
        return Err(WorkflowTransition(current, FlowCompensated));
      }
      var undone := CompensateCommitted(w);
      if undone.Err? {
        return Err(undone.error);
      }
      var done := GoTo(w, FlowCompensated);
      return Ok(FlowCompensated);
    }

    /** Re-assert Pending for one step. */
    method Pend(w: Workflow, i: nat, ghost p0: Progress) returns (r: Result<nat, OrchError>)
      requires Valid(w) && i < |w.def.steps| && Flow(w.def.id).state == Some(FlowRunning)
      requires Pended(w.def, p0, Flow(w.def.id), i)
      modifies this
      ensures OnlyMoves(w.def.id) && Valid(w) && NoCallSince(w.def.id) && Flow(w.def.id).state == Some(FlowRunning)
      ensures r.Ok? || r == Err(JournalDown) ==> Pended(w.def, p0, Flow(w.def.id), i + 1)
      ensures r == Err(JournalDown) ==> calls == old(calls) + 1 && !world.append(old(calls))
      ensures r.Err? && r != Err(JournalDown) ==>
                r.error.Terminal? && !NeverStarted(p0) && Pended(w.def, p0, Flow(w.def.id), i)
    {
      hide Truthful, Good, Replay, Legal, Pended, Accepted, NeverStarted;
      var s := w.def.steps[i].id;
      PendOne(w.def, p0, Flow(w.def.id), i);
      if s in Flow(w.def.id).steps ==> Flow(w.def.id).steps[s] == Pending {
        MayPend(w.def, Log(w.def.id), i);
      }
      r := Mark(w, s, Pending, []);
    }

    /** Re-assert Pending for every step; refused as soon as one has left Pending. */
    method InitSteps(w: Workflow) returns (r: Result<(), OrchError>)
      requires Valid(w) && Flow(w.def.id).state == Some(FlowRunning)
      modifies this
      ensures OnlyMoves(w.def.id) && Valid(w) && NoCallSince(w.def.id)
      ensures r.Ok? ==> AllPending(w.def, Flow(w.def.id)) && NeverStarted(old(Flow(w.def.id)))
      ensures r.Err? ==> r.error.JournalDown? || (r.error.Terminal? && !NeverStarted(old(Flow(w.def.id))))
      ensures NeverStarted(old(Flow(w.def.id))) && (forall n: nat :: world.append(n)) ==> r.Ok?
      ensures r == Err(JournalDown) ==> JournalFailed()
      ensures r.Err? ==> !r.error.NoExecutor? && !r.error.CompensateFailed?
      ensures Flow(w.def.id).state == Some(FlowRunning)
              && (NeverStarted(Flow(w.def.id)) <==> NeverStarted(old(Flow(w.def.id))))
    {
      hide Truthful, Good, Replay, Legal, Pended, AllPending, Accepted, NeverStarted;
      var id := w.def.id;
      var i := 0;
      StartPending(w.def, Flow(id));
      while i < |w.def.steps|
        invariant i <= |w.def.steps|
        invariant OnlyMoves(id) && Valid(w) && NoCallSince(id) && Flow(id).state == Some(FlowRunning)
        invariant Pended(w.def, old(Flow(id)), Flow(id), i)
      {
        var rec := Pend(w, i, old(Flow(id)));
        if rec.Err? {
          PendedSame(w.def, old(Flow(id)), Flow(id), if rec.error.JournalDown? then i + 1 else i);
          return Err(rec.error);
        }
        i := i + 1;
      }
      PendedSame(w.def, old(Flow(id)), Flow(id), i);
      AllPended(w, old(Flow(id)), Log(id));
      return Ok(());
    }

    /** The first step in definition order that may start. */
    method NextReady(w: Workflow, committed: set<StepId>) returns (r: Option<nat>)
      ensures r.Some? ==> r.value < |w.def.steps| && IsReady(Flow(w.def.id), w.def.steps[r.value], committed)
      ensures r.Some? ==> forall i :: 0 <= i < r.value ==> !IsReady(Flow(w.def.id), w.def.steps[i], committed)
      ensures r.None? ==> forall i :: 0 <= i < |w.def.steps| ==> !IsReady(Flow(w.def.id), w.def.steps[i], committed)
    {
      var i := 0;
      while i < |w.def.steps|
        invariant i <= |w.def.steps|
        invariant forall j :: 0 <= j < i ==> !IsReady(Flow(w.def.id), w.def.steps[j], committed)
      {
        if IsReady(Flow(w.def.id), w.def.steps[i], committed) {
          return Some(i);
        }
        i := i + 1;
      }
      return None;
    }

    /** A step has failed: roll everything back. */
    method RollBack(w: Workflow) returns (r: Result<FlowState, OrchError>)
      requires Valid(w) && Flow(w.def.id).state == Some(FlowRunning) && exists s :: In(Flow(w.def.id), s, Failed)
      modifies this
      ensures OnlyMoves(w.def.id) && Valid(w)
      ensures r.Ok? ==> r == Ok(FlowCompensated) && Flow(w.def.id).state == Some(FlowCompensated)
      ensures r.Err? ==> Flow(w.def.id).state == Some(Compensating) && Halted(Flow(w.def.id), r.error)
      ensures UndosWork(w) ==> r.Ok?
      ensures r == Err(JournalDown) ==> JournalFailed()
      ensures r.Err? ==> Excused(w, r.error)
    {
      hide Truthful, Good, Replay, LastStanding, Legal, Accepted, GaveUp, Halted, Settled, Apply;
      var id := w.def.id;
      var entered := GoTo(w, Compensating);
      var undone := CompensateCommitted(w);
      if undone.Err? {
        return Err(undone.error);
      }
      var done := GoTo(w, FlowCompensated);
      return Ok(FlowCompensated);
    }

    /** Call the executor of a step just started and record how it ended. */
    method Perform(w: Workflow, i: nat) returns (result: Result<Bytes, string>, recorded: bool)
      requires Valid(w) && Log(w.def.id) != [] && i < |w.def.steps|
      requires Log(w.def.id)[|Log(w.def.id)| - 1] == Recorded(w.def.steps[i].id, Running, [])
      modifies this
      ensures OnlyMoves(w.def.id) && Valid(w)
      ensures Flow(w.def.id) == Apply(old(Flow(w.def.id)), Ending(w.def.steps[i].id, result))
      ensures result == world.run(old(calls), w.def.id, w.def.steps[i])
      ensures recorded == world.append(old(calls) + 1) && calls == old(calls) + 2
    {
      hide Truthful, Good, Replay, Legal, Accepted, Apply;
      var id, step := w.def.id, w.def.steps[i];
      ghost var log := Log(id);
      RanIsTold(world, w.def, i, calls);
      TruthfulSnoc(world, w.def, Log(id), Asked(id), calls, Ran(step.id, world.run(calls, id, step)));
      result := RunStep(id, step);
      MayRun(w.def, log, step.id, result);
      MayFinish(w.def, Log(id), step.id, result);
      var finished;
      match result {
        case Ok(out) =>
          finished := Mark(w, step.id, Committed, out);
        case Err(why) =>
          finished := Mark(w, step.id, Failed, why);
      }
      recorded := finished.Ok?;
    }

    /** Start one ready step and bring it to an end: true when it committed, false when it failed. */
    method RunReady(w: Workflow, i: nat, committed: set<StepId>) returns (r: Result<bool, OrchError>)
      requires Valid(w) && i < |w.def.steps|
      requires Going(w.def, Flow(w.def.id), committed) && IsReady(Flow(w.def.id), w.def.steps[i], committed)
      modifies this
      ensures OnlyMoves(w.def.id) && Valid(w)
      ensures r == Ok(true) ==> Going(w.def, Flow(w.def.id), committed + {w.def.steps[i].id})
      ensures r == Ok(false) ==>
                Flow(w.def.id).state == Some(FlowRunning) && In(Flow(w.def.id), w.def.steps[i].id, Failed)
      ensures r.Err? ==> Interrupted(r.error) && Stranded(Flow(w.def.id)) && Flow(w.def.id).state == Some(FlowRunning)
      ensures r.Ok? ==> w.def.steps[i].kind in executors
      ensures r == Err(JournalDown) ==> JournalFailed()
      ensures r.Err? ==> Excused(w, r.error)
      ensures (forall n: nat :: world.append(n)) && w.def.steps[i].kind in executors ==> r.Ok?
      ensures r.Ok? ==> RanSo(world, w.def, i, r.value, old(calls), calls)
      ensures r.Ok? && (forall n: nat :: world.run(n, w.def.id, w.def.steps[i]).Ok?) ==> r.value
    {
      hide Truthful, Good, Replay, LastStanding, Legal, Accepted, Going, IsReady, Apply, Stranded, Ending;
      var id, step := w.def.id, w.def.steps[i];
      GoingRuns(w.def, Flow(id), committed);
      MayStart(w, Log(id), i, committed);
      StartMeans(Flow(id), step.id);
      var started := Mark(w, step.id, Running, []);
      if started.Err? {
        return Err(started.error);
      }
      if step.kind !in executors {
        return Err(NoExecutor(step.kind));
      }
      var result, recorded := Perform(w, i);
      StepEnds(w.def, old(Flow(id)), i, committed, result);
      if !recorded {
        return Err(JournalDown);
      }
      return Ok(result.Ok?);
    }

    /** Run one ready step and, if it fails, roll everything back: the state this ends in, or nothing to go on. */
    method Proceed(w: Workflow, i: nat, committed: set<StepId>) returns (r: Result<Option<FlowState>, OrchError>)
      requires Valid(w) && i < |w.def.steps|
      requires Going(w.def, Flow(w.def.id), committed) && IsReady(Flow(w.def.id), w.def.steps[i], committed)
      modifies this
      ensures OnlyMoves(w.def.id) && Valid(w)
      ensures r == Ok(None) ==>
                && Going(w.def, Flow(w.def.id), committed + {w.def.steps[i].id})
                && RanSo(world, w.def, i, true, old(calls), calls)
      ensures r.Ok? && r.value.Some? ==>
                r == Ok(Some(FlowCompensated)) && Flow(w.def.id).state == Some(FlowCompensated)
      ensures r.Err? ==> || (Flow(w.def.id).state == Some(Compensating) && Halted(Flow(w.def.id), r.error))
                         || (Stranded(Flow(w.def.id)) && Interrupted(r.error))
      ensures r != Ok(None) && (r.Ok? || Flow(w.def.id).state == Some(Compensating)) ==>
                RanSo(world, w.def, i, false, old(calls), calls)
      ensures r.Ok? || Flow(w.def.id).state == Some(Compensating) ==> w.def.steps[i].kind in executors
      ensures r == Err(JournalDown) ==> JournalFailed()
      ensures r.Err? ==> Excused(w, r.error)
      ensures RunsWork(w) ==> r == Ok(None)
      ensures UndosWork(w) && w.def.steps[i].kind in executors ==> r.Ok?
    {
      hide Truthful, Good, Replay, LastStanding, Legal, Accepted, Going, IsReady, Apply, Stranded, Interrupted, Halted,
              RanSo, GaveUp;
      var ran := RunReady(w, i, committed);
      if ran.Err? {
        return Err(ran.error);
      }
      if ran.value {
        return Ok(None);
      }
      ghost var at := calls;
      var undone := RollBack(w);
      RanSoLater(world, w.def, i, false, old(calls), old(calls), at, calls);
      r := if undone.Ok? then Ok(Some(undone.value)) else Err(undone.error);
    }

    /** Refuse a finished or half-rolled-back workflow untouched; otherwise put every step on Pending. */
    method Begin(w: Workflow) returns (r: Result<(), OrchError>)
      requires Valid(w)
      modifies this
      ensures OnlyMoves(w.def.id) && Valid(w) && NoCallSince(w.def.id)
      ensures Default(old(Flow(w.def.id))).IsTerminal() ==>
                r == Err(WorkflowTerminal(Default(old(Flow(w.def.id))))) && flows == old(flows) && logs == old(logs)
      ensures Default(old(Flow(w.def.id))) == Compensating ==>
                r == Err(WorkflowTransition(Compensating, FlowRunning)) && flows == old(flows) && logs == old(logs)
      ensures r.Ok? ==> AllPending(w.def, Flow(w.def.id)) && NeverStarted(old(Flow(w.def.id)))
      ensures r.Err? && Default(old(Flow(w.def.id))) == FlowRunning ==>
                && Flow(w.def.id).state == Some(FlowRunning)
                && (NeverStarted(Flow(w.def.id)) <==> NeverStarted(old(Flow(w.def.id))))
                && (NeverStarted(old(Flow(w.def.id))) ==> r.error.JournalDown?)
      ensures r == Err(JournalDown) ==> JournalFailed()
      ensures r.Err? ==> !r.error.NoExecutor? && !r.error.CompensateFailed?
      ensures Restartable(old(Flow(w.def.id))) && (forall n: nat :: world.append(n)) ==> r.Ok?
    {
      hide Truthful, Good, Replay, LastStanding, Legal, Accepted, AllPending, Settled, Apply, NeverStarted, AllUndone,
              AllCommitted, LeftBy, Halted, Numbered;
      var id := w.def.id;
      var current := Default(Flow(id));
      if current.IsTerminal() {
        return Err(WorkflowTerminal(current));
      }
      EnterMeans(Flow(id), Log(id), FlowRunning);
      var entered := GoTo(w, FlowRunning);
      if entered.Err? {
        return Err(entered.error);
      }
      r := InitSteps(w);
    }

    /** Nothing is ready any more: everything has committed. */
    method Conclude(w: Workflow, committed: set<StepId>) returns (r: Result<FlowState, OrchError>)
      requires Valid(w) && Going(w.def, Flow(w.def.id), committed)
      requires forall i :: 0 <= i < |w.def.steps| ==> !IsReady(Flow(w.def.id), w.def.steps[i], committed)
      modifies this
      ensures OnlyMoves(w.def.id) && Valid(w) && calls == old(calls) && committed == IdSet(w.def) && committed != {}
      ensures r == Ok(Succeeded) && Flow(w.def.id).state == Some(Succeeded)
    {
      hide Truthful, Good, Replay, LastStanding, Legal, Accepted, IsReady, Going, AllCommitted, IdSet;
      NothingReadyMeansDone(w, Flow(w.def.id), committed);
      if |committed| != |w.def.steps| {
        // The deadlock branch, where the workflow would be marked failed.
        assert false;
      }
      var done := GoTo(w, Succeeded);
      return Ok(Succeeded);
    }

    /** Run ready steps until none is left or one fails. */
    method Drive(w: Workflow) returns (r: Result<FlowState, OrchError>)
      requires Valid(w) && AllPending(w.def, Flow(w.def.id))
      modifies this
      ensures OnlyMoves(w.def.id) && Valid(w)
      ensures r.Ok? ==> (r.value == Succeeded || r.value == FlowCompensated) && Flow(w.def.id).state == Some(r.value)
      ensures r.Err? ==> || (Flow(w.def.id).state == Some(Compensating) && Halted(Flow(w.def.id), r.error))
                         || (Stranded(Flow(w.def.id)) && Interrupted(r.error))
      ensures r.Ok? || Flow(w.def.id).state == Some(Compensating) ==> SomeEquipped(w)
      ensures r == Err(JournalDown) ==> JournalFailed()
      ensures r.Err? ==> Excused(w, r.error)
      ensures RunsWork(w) ==> r == Ok(Succeeded)
      ensures UndosWork(w) && Equipped(w) ==> r.Ok?
      ensures r == Ok(Succeeded) ==> AllRanWell(world, w.def, old(calls), calls)
      ensures r == Ok(FlowCompensated) || Flow(w.def.id).state == Some(Compensating) ==>
                SomeRefused(world, w.def, old(calls), calls)
    {
      hide Truthful, Good, Replay, LastStanding, Legal, Accepted, IsReady, Going, AllPending, AllCommitted, Stranded,
              IdSet, Interrupted, Halted, ToldOf, RanSo, AllRanWell, SomeRefused, GaveUp, LeftBy, NeverStarted;
      var id := w.def.id;
      var committed: set<StepId> := {};
      StartGoing(w.def, Flow(id));
      ToldOfNone(world, w.def, old(calls), calls);
      while true
        invariant OnlyMoves(id) && Valid(w) && Going(w.def, Flow(id), committed)
        invariant committed != {} ==> SomeEquipped(w)
        invariant ToldOf(world, w.def, committed, old(calls), calls)
        decreases IdSet(w.def) - committed
      {
        var ready := NextReady(w, committed);
        if ready.None? {
          break;
        }
        ReadyIsNew(w.def, Flow(id), ready.value, committed);
        ghost var at := calls;
        var over := Proceed(w, ready.value, committed);
        RefusedLater(world, w.def, ready.value, old(calls), at, calls);
        if over.Err? {
          return Err(over.error);
        }
        if over.value.Some? {
          return Ok(over.value.value);
        }
        ToldOfMore(world, w, committed, ready.value, old(calls), at, calls);
        committed := committed + {w.def.steps[ready.value].id};
      }
      ToldOfAll(world, w, committed, old(calls), calls);
      r := Conclude(w, committed);
    }

    /** Drive a workflow from start to end. Whatever happens, a workflow that has started before runs
        nothing further, and the result names the state it is left in. */
    method Execute(w: Workflow) returns (r: Result<FlowState, OrchError>)
      requires Valid(w)
      modifies this
      ensures OnlyMoves(w.def.id) && Valid(w)
      ensures Default(old(Flow(w.def.id))).IsTerminal() ==>
                r == Err(WorkflowTerminal(Default(old(Flow(w.def.id))))) && flows == old(flows) && logs == old(logs)
      ensures Default(old(Flow(w.def.id))) == Compensating ==>
                r == Err(WorkflowTransition(Compensating, FlowRunning)) && flows == old(flows) && logs == old(logs)
      ensures r.Ok? ==> (r.value == Succeeded || r.value == FlowCompensated) && Flow(w.def.id).state == Some(r.value)
      ensures !NeverStarted(old(Flow(w.def.id))) ==> r.Err? && NoCallSince(w.def.id)
      ensures Default(old(Flow(w.def.id))) == FlowRunning && r.Err? ==>
                LeftBy(old(Flow(w.def.id)), Flow(w.def.id), r.error)
      ensures Stranded(old(Flow(w.def.id))) ==> r.Err? && Stranded(Flow(w.def.id))
      ensures r.Ok? || (Default(old(Flow(w.def.id))) == FlowRunning && Flow(w.def.id).state == Some(Compensating)) ==>
                SomeEquipped(w)
      ensures r == Err(JournalDown) ==> JournalFailed()
      ensures r.Err? ==> Excused(w, r.error)
      ensures RunsWork(w) ==> (r.Ok? <==> Restartable(old(Flow(w.def.id)))) && (r.Ok? ==> r == Ok(Succeeded))
      ensures Restartable(old(Flow(w.def.id))) && UndosWork(w) && Equipped(w) ==> r.Ok?
      ensures r == Ok(Succeeded) ==> AllRanWell(world, w.def, old(calls), calls)
      ensures r == Ok(FlowCompensated) ==> SomeRefused(world, w.def, old(calls), calls)
    {
      hide Truthful, Good, Replay, LastStanding, Legal, Accepted, AllPending, NeverStarted, Halted, AllRanWell,
              SomeRefused;
      var begun := Begin(w);
      if begun.Err? {
        return Err(begun.error);
      }
      ghost var at := calls;
      r := Drive(w);
      ToldSooner(world, w.def, old(calls), at, calls);
    }
  }

  // ---- A stranded workflow stays stranded ----

  /** Any number of further executions and resumptions, in any order and whatever the world does: a stranded
      workflow is refused every time, nothing is run or undone, and it stays stranded. */
  method Insist(c: SagaCoordinator, w: Workflow, resumes: seq<bool>)
    returns (answers: seq<Result<FlowState, OrchError>>)
    requires c.Valid(w) && Stranded(c.Flow(w.def.id))
    modifies c
    ensures c.Valid(w) && Stranded(c.Flow(w.def.id)) && c.OnlyMoves(w.def.id) && c.NoCallSince(w.def.id)
    ensures |answers| == |resumes| && forall i :: 0 <= i < |answers| ==> answers[i].Err?
  {
    hide Truthful, Good, Replay, Accepted, Settled, LeftBy;
    answers := [];
    for i := 0 to |resumes|
      invariant c.Valid(w) && Stranded(c.Flow(w.def.id)) && c.OnlyMoves(w.def.id) && c.NoCallSince(w.def.id)
      invariant |answers| == i && forall j :: 0 <= j < |answers| ==> answers[j].Err?
    {
      var answer;
      if resumes[i] {
        answer := c.ResumeCompensation(w);
      } else {
        answer := c.Execute(w);
      }
      answers := answers + [answer];
    }
  }

  /** The exact condition: with an executor, a compensator and a journal that all work, some call still gets a
      workflow to its end if and only if it is neither finished nor stranded. */
  method Retry(c: SagaCoordinator, w: Workflow)
    returns (resumed: Result<FlowState, OrchError>, executed: Result<FlowState, OrchError>)
    requires c.Valid(w) && c.RunsWork(w) && c.UndosWork(w)
    modifies c
    ensures c.Valid(w)
    ensures resumed.Ok? || executed.Ok?
            <==> !Default(old(c.Flow(w.def.id))).IsTerminal() && !Stranded(old(c.Flow(w.def.id)))
    ensures resumed.Ok? || executed.Ok?
            <==> Default(old(c.Flow(w.def.id))) == Compensating || Restartable(old(c.Flow(w.def.id)))
  {
    hide Truthful, Good, Replay, Accepted, Settled, LeftBy, Halted, NeverStarted;
    resumed := c.ResumeCompensation(w);
    executed := c.Execute(w);
  }

  /** A coordinator without executors strands every accepted workflow at its first step, as long as the
      journal works. */
  method Strand(world: World, w: Workflow) returns (c: SagaCoordinator, r: Result<FlowState, OrchError>)
    requires Accepted(w) && forall n: nat :: world.append(n)
    ensures fresh(c) && c.Valid(w) && Stranded(c.Flow(w.def.id))
    ensures r.Err? && r.error.NoExecutor?
  {
    c := new SagaCoordinator(world);
    assert c.Log(w.def.id) == [] && c.Flow(w.def.id) == FRESH;
    r := c.Execute(w);
  }
}
