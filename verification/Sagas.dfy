/** The saga state machine of one workflow: the two transition tables, the events that move it, and
    what holds after any legal history. */
module Sagas {
  import opened Basics
  import opened Workflows

  datatype StepState = Pending | Running | Committed | Failed | Compensated {
    predicate CanBecome(next: StepState) {
      || this == next
      || (this == Pending && next == Running)
      || (this == Running && (next == Committed || next == Failed))
      || (this == Committed && next == Compensated)
    }
  }

  datatype FlowState = FlowRunning | Succeeded | FlowFailed | Compensating | FlowCompensated {
    predicate IsTerminal() {
      this == Succeeded || this == FlowFailed || this == FlowCompensated
    }

    predicate CanBecome(next: FlowState) {
      || this == next
      || (this == FlowRunning && (next == Succeeded || next == FlowFailed || next == Compensating))
      || (this == Compensating && (next == FlowCompensated || next == FlowFailed))
    }
  }

  /** A life of a step: each state may become the next. */
  ghost predicate StepLife(path: seq<StepState>) {
    path != [] && forall i :: 0 <= i < |path| - 1 ==> path[i].CanBecome(path[i + 1])
  }

  /** Whatever moves are asked for, a step that has been tried stays tried, a committed step can only be undone,
      failed and undone steps stay so, and nothing commits, fails or is undone out of turn. */
  lemma {:induction false} StepLives(path: seq<StepState>)
    requires StepLife(path)
    ensures var first, last := path[0], path[|path| - 1];
            && (first == Failed ==> last == Failed) && (first == Compensated ==> last == Compensated)
            && (first == Committed ==> last == Committed || last == Compensated)
            && (first == Running ==> last != Pending)
            && (first == Pending && (last == Committed || last == Failed) ==> Running in path)
            && ((first == Pending || first == Running) && last == Compensated ==> Committed in path)
    decreases |path|
  {
    if |path| > 1 {
      var init := path[..|path| - 1];
      assert path == init + [path[|path| - 1]];
      assert init[|init| - 1].CanBecome(path[|path| - 1]);
      StepLives(init);
      assert forall x :: x in init ==> x in path;
      assert init[|init| - 1] in init;
    }
  }

  ghost predicate FlowLife(path: seq<FlowState>) {
    path != [] && forall i :: 0 <= i < |path| - 1 ==> path[i].CanBecome(path[i + 1])
  }

  /** Final workflow states stay, and are exactly those from which nothing else can follow; a rollback never goes
      back to running or on to success, and is the only way to Compensated. */
  lemma {:induction false} FlowLives(path: seq<FlowState>)
    requires FlowLife(path)
    ensures var first, last := path[0], path[|path| - 1];
            && (first.IsTerminal() ==> last == first)
            && (first == Compensating ==> last != FlowRunning && last != Succeeded)
            && (first == FlowRunning && last == FlowCompensated ==> Compensating in path)
            && (first.IsTerminal() <==> forall next: FlowState :: first.CanBecome(next) ==> next == first)
    decreases |path|
  {
    assert path[0] == Compensating ==> path[0].CanBecome(FlowCompensated);
    assert path[0] == FlowRunning ==> path[0].CanBecome(Compensating);
    if |path| > 1 {
      var init := path[..|path| - 1];
      assert path == init + [path[|path| - 1]];
      assert init[|init| - 1].CanBecome(path[|path| - 1]);
      FlowLives(init);
      assert forall x :: x in init ==> x in path;
      assert init[|init| - 1] in init;
    }
  }

  /** What the coordinator keeps for one workflow. */
  datatype Progress = Progress(
    state: Option<FlowState>,
    steps: map<StepId, StepState>,
    outputs: map<StepId, Bytes>,
    order: seq<StepId>)

  const FRESH := Progress(None, map[], map[], [])

  /** `Ran` and `Undid` are calls of an executor and of a compensator, with what they returned. */
  datatype Event =
    | Entered(state: FlowState)
    | Recorded(step: StepId, to: StepState, output: Bytes)
    | Ran(step: StepId, result: Result<Bytes, string>)
    | Undid(step: StepId, given: Bytes, ok: bool)

  function Apply(p: Progress, e: Event): (r: Progress) {
    match e
    case Entered(state) => p.(state := Some(state))
    case Recorded(step, to, output) =>
      p.(steps := p.steps[step := to],
         outputs := if output == [] then p.outputs else p.outputs[step := output],
         order := if to == Committed then p.order + [step] else p.order)
    case _ => p
  }

  function Replay(log: seq<Event>): (r: Progress) {
    if log == [] then FRESH else Apply(Replay(log[..|log| - 1]), log[|log| - 1])
  }

  predicate In(p: Progress, step: StepId, state: StepState) {
    step in p.steps && p.steps[step] == state
  }

  function OutputOf(p: Progress, step: StepId): (r: Bytes) {
    if step in p.outputs then p.outputs[step] else []
  }

  function Default(p: Progress): (r: FlowState) {
    if p.state.Some? then p.state.value else FlowRunning
  }

  /** The step is committed and every step committed after it has been undone. */
  ghost predicate LastStanding(p: Progress, step: StepId) {
    && In(p, step, Committed)
    && exists k :: 0 <= k < |p.order| && p.order[k] == step && forall j :: k < j < |p.order| ==>
              In(p, p.order[j], Compensated)
  }

  ghost predicate DependenciesCommitted(def: WorkflowDef, p: Progress, step: StepId) {
    forall d :: DependsOn(def, step, d) ==> In(p, d, Committed)
  }

  ghost predicate AllCommitted(def: WorkflowDef, p: Progress) {
    forall i :: 0 <= i < |def.steps| ==> In(p, def.steps[i].id, Committed)
  }

  ghost predicate AllUndone(p: Progress) {
    forall j :: 0 <= j < |p.order| ==> In(p, p.order[j], Compensated)
  }

  ghost predicate OnlyForward(p: Progress) {
    forall s :: s in p.steps ==> p.steps[s] == Pending || p.steps[s] == Committed
  }

  /** When the next event of a history may be `e`. */
  ghost predicate Legal(def: WorkflowDef, log: seq<Event>, e: Event) {
    var p := Replay(log);
    && ((log != [] && log[|log| - 1].Undid? && log[|log| - 1].ok) ==>
              e == Recorded(log[|log| - 1].step, Compensated, []))
    && match e
       case Entered(to) =>
         (match to
          case FlowRunning => p.state.None? || p.state.value == FlowRunning
          case Succeeded => p.state == Some(FlowRunning) && AllCommitted(def, p)
          case FlowFailed => false
          case Compensating => p.state == Some(FlowRunning) && exists s :: In(p, s, Failed)
          case FlowCompensated => p.state == Some(Compensating) && AllUndone(p))
       case Recorded(s, to, output) =>
         HasStep(def, s) &&
         (match to
          case Pending => p.state == Some(FlowRunning) && output == [] && (s !in p.steps || p.steps[s] == Pending)
          case Running =>
            && p.state == Some(FlowRunning) && output == []
            && In(p, s, Pending) && OnlyForward(p) && DependenciesCommitted(def, p, s)
          case Committed => p.state == Some(FlowRunning) && log != [] && log[|log| - 1] == Ran(s, Ok(output))
          case Failed => p.state == Some(FlowRunning) && log != [] && log[|log| - 1] == Ran(s, Err(output))
          case Compensated =>
            && output == [] && log != []
            && log[|log| - 1].Undid? && log[|log| - 1].ok && log[|log| - 1].step == s)
       case Ran(s, _) => log != [] && log[|log| - 1] == Recorded(s, Running, [])
       case Undid(s, given, _) => p.state == Some(Compensating) && LastStanding(p, s) && given == OutputOf(p, s)
  }

  ghost predicate Good(def: WorkflowDef, log: seq<Event>) {
    log == [] || (Good(def, log[..|log| - 1]) && Legal(def, log[..|log| - 1], log[|log| - 1]))
  }

  lemma GoodSnoc(def: WorkflowDef, log: seq<Event>, e: Event)
    requires Good(def, log) && Legal(def, log, e)
    ensures Good(def, log + [e]) && Replay(log + [e]) == Apply(Replay(log), e)
  {
    assert (log + [e])[..|log|] == log;
  }

  /** Every point of a legal history has a legal history behind it. */
  lemma {:induction false} GoodPrefix(def: WorkflowDef, log: seq<Event>, k: nat)
    requires Good(def, log) && k <= |log|
    ensures Good(def, log[..k])
    ensures k < |log| ==> Legal(def, log[..k], log[k])
    decreases |log|
  {
    if k == |log| {
      assert log[..k] == log;
    } else {
      if k < |log| - 1 {
        GoodPrefix(def, log[..|log| - 1], k);
      }
      assert log[..|log| - 1][..k] == log[..k];
    }
  }

  // ---- Invariant ----

  ghost predicate OrderOk(p: Progress) {
    && (forall j, k :: 0 <= j < k < |p.order| ==> p.order[j] != p.order[k])
    && (forall j :: 0 <= j < |p.order| ==> In(p, p.order[j], Committed) || In(p, p.order[j], Compensated))
    && (forall s :: In(p, s, Committed) || In(p, s, Compensated) ==> s in p.order)
  }

  /** From some point of the commit order on everything has been undone, and nothing before it. */
  ghost predicate SuffixUndone(p: Progress, k: nat) {
    k <= |p.order| && forall j :: 0 <= j < |p.order| ==> (In(p, p.order[j], Compensated) <==> k <= j)
  }

  /** Steps commit only after everything they depend on. */
  ghost predicate OrderRespects(def: WorkflowDef, p: Progress) {
    forall k, d :: 0 <= k < |p.order| && DependsOn(def, p.order[k], d) ==> d in p.order[..k]
  }

  ghost predicate PhaseOk(def: WorkflowDef, p: Progress) {
    && (p.steps != map[] ==> p.state.Some?)
    && ((exists s :: In(p, s, Compensated)) ==> p.state == Some(Compensating) || p.state == Some(FlowCompensated))
    && (p.state == Some(FlowCompensated) ==> AllUndone(p))
    && (p.state == Some(Succeeded) ==> AllCommitted(def, p))
    && (p.state == Some(Compensating) || p.state == Some(FlowCompensated) ==> exists s :: In(p, s, Failed))
    && p.state != Some(FlowFailed)
    && (forall s :: s in p.steps ==> HasStep(def, s))
  }

  /** At most one step is past Pending without having committed. */
  ghost predicate OneAtATime(p: Progress) {
    forall s, t :: s in p.steps && t in p.steps && s != t && (p.steps[s] == Running || p.steps[s] == Failed) ==>
              p.steps[t] != Running && p.steps[t] != Failed
  }

  ghost predicate RunningRespects(def: WorkflowDef, p: Progress) {
    forall s, d :: In(p, s, Running) && DependsOn(def, s, d) ==> d in p.order
  }

  ghost predicate Inv(def: WorkflowDef, p: Progress) {
    && OrderOk(p)
    && (exists k :: SuffixUndone(p, k))
    && OrderRespects(def, p)
    && RunningRespects(def, p)
    && PhaseOk(def, p)
    && OneAtATime(p)
  }

  /** A step whose executor has just returned is running. */
  lemma AfterRan(def: WorkflowDef, log: seq<Event>)
    requires Good(def, log) && log != [] && log[|log| - 1].Ran?
    ensures In(Replay(log), log[|log| - 1].step, Running) && Replay(log).state == Some(FlowRunning)
  {
    var before := log[..|log| - 1];
    assert Legal(def, before, log[|log| - 1]) && Good(def, before);
    assert Legal(def, before[..|before| - 1], before[|before| - 1]);
  }

  lemma AfterUndid(def: WorkflowDef, log: seq<Event>)
    requires Good(def, log) && log != [] && log[|log| - 1].Undid?
    ensures LastStanding(Replay(log), log[|log| - 1].step) && Replay(log).state == Some(Compensating)
  {
    assert Legal(def, log[..|log| - 1], log[|log| - 1]);
  }

  lemma CommitKeepsInv(def: WorkflowDef, p: Progress, s: StepId, output: Bytes)
    requires Inv(def, p) && In(p, s, Running) && p.state == Some(FlowRunning)
    ensures Inv(def, Apply(p, Recorded(s, Committed, output)))
  {
    var p' := Apply(p, Recorded(s, Committed, output));
    var k :| SuffixUndone(p, k);
    assert s !in p.order;
    forall j | 0 <= j < |p'.order|
      ensures In(p', p'.order[j], Committed)
    {
      assert j < |p.order| ==> !In(p, p.order[j], Compensated);
    }
    assert SuffixUndone(p', |p'.order|);
    assert OrderOk(p') by {
      forall x | In(p', x, Committed) || In(p', x, Compensated)
        ensures x in p'.order
      {
        assert x != s ==> In(p, x, Committed) || In(p, x, Compensated);
      }
    }
    forall j, d | 0 <= j < |p'.order| && DependsOn(def, p'.order[j], d)
      ensures d in p'.order[..j]
    {
      if j < |p.order| {
        assert p'.order[..j] == p.order[..j];
      } else {
        assert p'.order[..j] == p.order;
      }
    }
  }

  /** Undoing the last standing step lengthens the undone suffix by one. */
  lemma UndoExtendsSuffix(p: Progress, s: StepId)
    requires OrderOk(p) && (exists k :: SuffixUndone(p, k)) && LastStanding(p, s)
    ensures exists k :: SuffixUndone(Apply(p, Recorded(s, Compensated, [])), k)
  {
    var p' := Apply(p, Recorded(s, Compensated, []));
    var k: nat :| SuffixUndone(p, k);
    var m :| 0 <= m < |p.order| && p.order[m] == s && forall j :: m < j < |p.order| ==> In(p, p.order[j], Compensated);
    assert !In(p, p.order[m], Compensated);
    assert m + 1 < |p.order| ==> In(p, p.order[m + 1], Compensated);
    assert k == m + 1;
    assert SuffixUndone(p', m);
  }

  lemma UndoKeepsInv(def: WorkflowDef, p: Progress, s: StepId)
    requires Inv(def, p) && LastStanding(p, s) && p.state == Some(Compensating)
    ensures Inv(def, Apply(p, Recorded(s, Compensated, [])))
  {
    hide SuffixUndone, LastStanding;
    var p' := Apply(p, Recorded(s, Compensated, []));
    UndoExtendsSuffix(p, s);
    assert In(p, s, Committed) by { LastStands(p, s); }
    assert In(p', s, Compensated);
    var f :| In(p, f, Failed);
    assert In(p', f, Failed);
    assert OrderOk(p') by {
      forall x | In(p', x, Committed) || In(p', x, Compensated)
        ensures x in p'.order
      {
        assert In(p, x, Committed) || In(p, x, Compensated);
      }
    }
  }

  lemma LastStands(p: Progress, s: StepId)
    requires LastStanding(p, s)
    ensures In(p, s, Committed)
  {
  }

  lemma ForwardKeepsInv(def: WorkflowDef, p: Progress, s: StepId, to: StepState, output: Bytes)
    requires Inv(def, p) && p.state == Some(FlowRunning) && HasStep(def, s)
    requires to == Pending ==> s !in p.steps || p.steps[s] == Pending
    requires to == Running ==> In(p, s, Pending) && OnlyForward(p) && DependenciesCommitted(def, p, s)
    requires to == Failed ==> In(p, s, Running)
    requires to == Pending || to == Running || to == Failed
    ensures Inv(def, Apply(p, Recorded(s, to, output)))
  {
    var p' := Apply(p, Recorded(s, to, output));
    var k :| SuffixUndone(p, k);
    assert SuffixUndone(p', k);
    assert OrderOk(p') by {
      forall x | In(p', x, Committed) || In(p', x, Compensated)
        ensures x in p'.order
      {
        assert In(p, x, Committed) || In(p, x, Compensated);
      }
    }
    forall x, d | In(p', x, Running) && DependsOn(def, x, d)
      ensures d in p'.order
    {
      if x == s {
        assert In(p, d, Committed);
      } else {
        assert In(p, x, Running);
      }
    }
    forall x | In(p', x, Compensated)
      ensures false
    {
      assert In(p, x, Compensated);
    }
  }

  lemma EnterKeepsInv(def: WorkflowDef, log: seq<Event>, to: FlowState)
    requires Inv(def, Replay(log)) && Legal(def, log, Entered(to))
    ensures Inv(def, Apply(Replay(log), Entered(to)))
  {
    var p := Replay(log);
    var p' := Apply(p, Entered(to));
    var k :| SuffixUndone(p, k);
    assert SuffixUndone(p', k);
    assert forall s, st :: In(p', s, st) <==> In(p, s, st);
  }

  lemma StepKeepsInv(def: WorkflowDef, log: seq<Event>, e: Event)
    requires Good(def, log) && Inv(def, Replay(log)) && Legal(def, log, e)
    ensures Inv(def, Apply(Replay(log), e))
  {
    hide Inv, Good;
    match e
    case Entered(to) => EnterKeepsInv(def, log, to);
    case Recorded(s, to, output) =>
      if to == Committed {
        AfterRan(def, log);
        CommitKeepsInv(def, Replay(log), s, output);
      } else if to == Compensated {
        AfterUndid(def, log);
        UndoKeepsInv(def, Replay(log), s);
      } else {
        if to == Failed {
          AfterRan(def, log);
        }
        ForwardKeepsInv(def, Replay(log), s, to, output);
      }
    case _ =>
  }

  lemma {:induction false} GoodInv(def: WorkflowDef, log: seq<Event>)
    requires Good(def, log)
    ensures Inv(def, Replay(log))
    decreases |log|
  {
    if log == [] {
      assert SuffixUndone(FRESH, 0);
    } else {
      GoodInv(def, log[..|log| - 1]);
      StepKeepsInv(def, log[..|log| - 1], log[|log| - 1]);
    }
  }

  // ---- What every legal history has in common ----

  /** At every point of a history, the steps undone so far are a suffix of the commit order. */
  lemma UndoneIsSuffix(def: WorkflowDef, log: seq<Event>, at: nat) returns (k: nat)
    requires Good(def, log) && at <= |log|
    ensures var p := Replay(log[..at]);
            k <= |p.order| && forall j :: 0 <= j < |p.order| ==> (In(p, p.order[j], Compensated) <==> k <= j)
  {
    GoodPrefix(def, log, at);
    GoodInv(def, log[..at]);
    k :| SuffixUndone(Replay(log[..at]), k);
  }

  /** At every point, no step is undone while a committed step that depends on it still stands. */
  lemma UndoRespectsDependencies(def: WorkflowDef, log: seq<Event>, at: nat, s: StepId, t: StepId)
    requires Good(def, log) && at <= |log| && DependsOn(def, t, s)
    ensures var p := Replay(log[..at]);
            In(p, s, Compensated) ==> !In(p, t, Committed)
  {
    GoodPrefix(def, log, at);
    GoodInv(def, log[..at]);
    var p := Replay(log[..at]);
    var k: nat :| SuffixUndone(p, k);
    if t in p.order {
      var j :| 0 <= j < |p.order| && p.order[j] == t;
      assert s in p.order[..j];
      var i :| 0 <= i < j && p.order[..j][i] == s;
      assert In(p, p.order[i], Compensated) ==> k <= j;
    }
  }

  /** At every point, workflow state Compensated means no committed step is left standing, and Succeeded
      means that every step of the definition is committed; Failed is never reached. */
  lemma FinalStatesMean(def: WorkflowDef, log: seq<Event>, at: nat)
    requires Good(def, log) && at <= |log|
    ensures var p := Replay(log[..at]);
            && (p.state == Some(FlowCompensated) ==> forall s :: !In(p, s, Committed))
            && (p.state == Some(Succeeded) ==> AllCommitted(def, p))
            && p.state != Some(FlowFailed)
  {
    GoodPrefix(def, log, at);
    GoodInv(def, log[..at]);
    var p := Replay(log[..at]);
    forall s | p.state == Some(FlowCompensated) && In(p, s, Committed)
      ensures false
    {
    }
  }

  // ---- What a history says about single steps ----

  /** A step that has started never waits again. */
  lemma {:induction false} StartedStays(def: WorkflowDef, log: seq<Event>, i: nat, s: StepId)
    requires Good(def, log) && i < |log| && log[i] == Recorded(s, Running, [])
    ensures s in Replay(log).steps && Replay(log).steps[s] != Pending
    decreases |log|
  {
    var n := |log| - 1;
    if i < n {
      StartedStays(def, log[..n], i, s);
    }
  }

  lemma RanAfterStart(def: WorkflowDef, log: seq<Event>, i: nat)
    requires Good(def, log) && i < |log| && log[i].Ran?
    ensures i >= 1 && log[i - 1] == Recorded(log[i].step, Running, [])
  {
    GoodPrefix(def, log, i);
  }

  /** No step's executor is called twice in the whole history of a workflow. */
  lemma RunsOnce(def: WorkflowDef, log: seq<Event>, i: nat, j: nat)
    requires Good(def, log) && i < j < |log| && log[i].Ran? && log[j].Ran?
    ensures log[i].step != log[j].step
  {
    RanAfterStart(def, log, i);
    RanAfterStart(def, log, j);
    GoodPrefix(def, log, j - 1);
    if i < j - 1 {
      StartedStays(def, log[..j - 1], i - 1, log[i].step);
    }
  }

  /** A committed or undone step's executor was called and returned the output kept for it. */
  lemma {:induction false} CommittedRan(def: WorkflowDef, log: seq<Event>, s: StepId) returns (i: nat)
    requires Good(def, log) && (In(Replay(log), s, Committed) || In(Replay(log), s, Compensated))
    ensures i < |log| && log[i] == Ran(s, Ok(OutputOf(Replay(log), s)))
    decreases |log|
  {
    var n := |log| - 1;
    var before, e := log[..n], log[n];
    if e.Recorded? && e.step == s && e.to == Committed {
      i := n - 1;
      AfterRan(def, before);
      if s in Replay(before).outputs {
        NoOutputYet(def, before, s);
      }
    } else {
      if e.Recorded? && e.to == Compensated {
        AfterUndid(def, before);
      }
      if e.Recorded? && (e.to == Committed || e.to == Failed) {
        AfterRan(def, before);
      }
      i := CommittedRan(def, before, s);
    }
  }

  /** A failed step's executor was called and refused. */
  lemma {:induction false} FailedRan(def: WorkflowDef, log: seq<Event>, s: StepId) returns (i: nat)
    requires Good(def, log) && In(Replay(log), s, Failed)
    ensures i < |log| && log[i].Ran? && log[i].step == s && log[i].result.Err?
    decreases |log|
  {
    var n := |log| - 1;
    if log[n].Recorded? && log[n].step == s && log[n].to == Failed {
      i := n - 1;
    } else {
      i := FailedRan(def, log[..n], s);
    }
  }

  /** An undone step's compensator was called with the output kept for the step, and succeeded. */
  lemma {:induction false} CompensatedUndid(def: WorkflowDef, log: seq<Event>, s: StepId) returns (i: nat)
    requires Good(def, log) && In(Replay(log), s, Compensated)
    ensures i < |log| && log[i] == Undid(s, OutputOf(Replay(log), s), true)
    decreases |log|
  {
    var n := |log| - 1;
    var before, e := log[..n], log[n];
    if e.Recorded? && e.step == s && e.to == Compensated {
      i := n - 1;
      assert Legal(def, before[..n - 1], before[n - 1]);
    } else {
      i := CompensatedUndid(def, before, s);
      if e.Recorded? && (e.to == Committed || e.to == Failed) {
        AfterRan(def, before);
      }
    }
  }

  /** Until a step commits or fails nothing is kept as its output. */
  lemma {:induction false} NoOutputYet(def: WorkflowDef, log: seq<Event>, s: StepId)
    requires Good(def, log) && (s in Replay(log).outputs)
    ensures In(Replay(log), s, Committed) || In(Replay(log), s, Failed) || In(Replay(log), s, Compensated)
    decreases |log|
  {
    var n := |log| - 1;
    var before, e := log[..n], log[n];
    if s in Replay(before).outputs {
      NoOutputYet(def, before, s);
    }
    if e.Recorded? && (e.to == Committed || e.to == Failed) {
      AfterRan(def, before);
    }
  }

  /** A step starts only after everything it depends on has been run successfully, and nothing is run
      once a rollback has begun. */
  lemma StartsAfterDependencies(def: WorkflowDef, log: seq<Event>, i: nat, d: StepId) returns (k: nat)
    requires Good(def, log) && i < |log| && log[i].Ran? && DependsOn(def, log[i].step, d)
    ensures k < i && log[k].Ran? && log[k].step == d && log[k].result.Ok?
    ensures Replay(log[..i]).state == Some(FlowRunning)
  {
    RanAfterStart(def, log, i);
    GoodPrefix(def, log, i - 1);
    GoodPrefix(def, log, i + 1);
    assert Legal(def, log[..i - 1], log[i - 1]);
    assert log[..i + 1][..i] == log[..i];
    assert log[..i][..i - 1] == log[..i - 1];
    assert In(Replay(log[..i - 1]), d, Committed);
    k := CommittedRan(def, log[..i - 1], d);
  }

  /** A compensator is given exactly what its step's executor returned. */
  lemma UndoGetsForwardOutput(def: WorkflowDef, log: seq<Event>, i: nat) returns (k: nat)
    requires Good(def, log) && i < |log| && log[i].Undid?
    ensures k < i && log[k] == Ran(log[i].step, Ok(log[i].given))
  {
    GoodPrefix(def, log, i);
    k := CommittedRan(def, log[..i], log[i].step);
  }

  lemma {:induction false} UndoneStays(def: WorkflowDef, log: seq<Event>, i: nat, s: StepId)
    requires Good(def, log) && i < |log| && log[i] == Recorded(s, Compensated, [])
    ensures In(Replay(log), s, Compensated)
    decreases |log|
  {
    var n := |log| - 1;
    if i < n {
      var before, e := log[..n], log[n];
      UndoneStays(def, before, i, s);
      if e.Recorded? && (e.to == Committed || e.to == Failed) {
        AfterRan(def, before);
      }
    }
  }

  /** Once a compensation has succeeded the step is never compensated again. */
  lemma UndoneOnce(def: WorkflowDef, log: seq<Event>, i: nat, j: nat)
    requires Good(def, log) && i < j < |log| && log[i].Undid? && log[i].ok && log[j].Undid?
    ensures log[i].step != log[j].step
  {
    GoodPrefix(def, log, i + 1);
    assert log[..i + 1][i] == log[i];
    assert Legal(def, log[..i + 1], log[i + 1]);
    GoodPrefix(def, log, j);
    UndoneStays(def, log[..j], i + 1, log[i].step);
  }

  /** A workflow that ends Succeeded ran every step of its definition successfully, each exactly once. */
  lemma SucceededRanEachOnce(def: WorkflowDef, log: seq<Event>, i: nat) returns (k: nat)
    requires Good(def, log) && Replay(log).state == Some(Succeeded) && i < |def.steps|
    ensures k < |log| && log[k].Ran? && log[k].step == def.steps[i].id && log[k].result.Ok?
    ensures forall j :: 0 <= j < |log| && j != k && log[j].Ran? ==> log[j].step != def.steps[i].id
  {
    GoodInv(def, log);
    k := CommittedRan(def, log, def.steps[i].id);
    forall j | 0 <= j < |log| && j != k && log[j].Ran?
      ensures log[j].step != def.steps[i].id
    {
      if j < k {
        RunsOnce(def, log, j, k);
      } else {
        RunsOnce(def, log, k, j);
      }
    }
  }
}
