/** What the compute exchange can still do from a reachable state: accept a grant, accept a verdict, wind up. */
module ExchangeProgress {
  import opened Basics
  import opened Exchange
  import opened ExchangeRuns

  /** Handling the command now is its first time, and it is accepted. */
  predicate Accepts(k: Kernel, e: CommandEnvelope) {
    var o := Handled(k, e).1;
    o.Accepted? && !o.replayed
  }

  lemma AcceptsMeans(k: Kernel, e: CommandEnvelope)
    ensures Accepts(k, e) <==>
              && e.key != "" && e.key !in k.inbox && e.generation == ExpectedGeneration(k.aggregate, e.command)
              && Decide(k.aggregate, k.policy, e.key, e.command, e.generation).Ok?
  {
    hide Decide, EvolvedAll;
  }

  // ---- Time ----

  /** No accepted command turns time back. */
  lemma DecisionTime(p: EnginePolicy, s: Aggregate, key: IdempotencyKey, c: Command, generation: U64)
    requires Decide(s, p, key, c, generation).Ok?
    ensures EvolvedAll(s, Decide(s, p, key, c, generation).value.events).observedAt >= s.observedAt
  {
    DecisionEvolves(s, p, key, c, generation);
    hide EvolvedAll, StopEvents, StopEffect, CheckGrant, CheckWithin, CheckPositive, CheckMode, OrElse;
  }

  lemma HandledTime(k: Kernel, e: CommandEnvelope)
    ensures Handled(k, e).0.aggregate.observedAt >= k.aggregate.observedAt
  {
    if Decide(k.aggregate, k.policy, e.key, e.command, e.generation).Ok? {
      DecisionTime(k.policy, k.aggregate, e.key, e.command, e.generation);
    }
    hide Decide, EvolvedAll;
  }

  lemma {:induction false} TimeIsMonotone(node: NodeId, p: EnginePolicy, stream: seq<CommandEnvelope>,
                                          more: seq<CommandEnvelope>)
    ensures Run(node, p, stream + more).kernel.aggregate.observedAt >= Run(node, p, stream).kernel.aggregate.observedAt
    decreases |more|
  {
    hide Handled, Run;
    if more == [] {
      assert stream + more == stream;
    } else {
      var init, last := more[..|more| - 1], more[|more| - 1];
      TimeIsMonotone(node, p, stream, init);
      assert stream + more == stream + init + [last];
      RunSnoc(node, p, stream + init, last);
      HandledTime(Run(node, p, stream + init).kernel, last);
    }
  }

  // ---- Winding up ----

  /** A result waits for its verdict and time has run out. */
  predicate Wedged(s: Aggregate) {
    s.attempt.Submitted? && s.observedAt == MAX_U64
  }

  /** What is left to wind up: a verdict, a settlement and its receipt, and the consent. */
  function Rank(s: Aggregate): (n: nat) {
    (match s.attempt
     case Submitted(_, _) => 1
     case Verified(_, _, _) => if s.settlement.NoSettlement? then 2 else if s.settlement.Prepared? then 1 else 0
     case _ => 0) +
    (if s.consent.Active? then 1 else 0)
  }

  lemma WoundUp(p: EnginePolicy, s: Aggregate)
    requires AggregateOk(p, s) && Rank(s) == 0
    ensures AllowsGrant(s)
  {
  }

  function WindUp(s: Aggregate): (c: Command)
    requires Rank(s) > 0 && (s.attempt.Verified? && !s.settlement.NoSettlement? ==>
              s.settlement.Prepared? || s.consent.Active?)
  {
    match s.attempt
    case Submitted(t, r) =>
      var verifier := if r.producer == "x" then "y" else "x";
      VerifyResult(t.id, verifier, VerifierCapability("capability", verifier, s.nodeId, t.id, 0, MAX_U64),
                   Reject("wound up"))
    case Verified(t, _, _) =>
      if s.settlement.NoSettlement? then PrepareSettlement("settlement", t.id, 1)
      else if s.settlement.Prepared? then
        RecordSettlementReceipt(SettlementReceipt(s.settlement.plan.id, s.settlement.plan.serviceCredits, "reference"))
      else RevokeConsent(s.consent.grantId, "wound up")
    case _ => RevokeConsent(s.consent.grantId, "wound up")
  }

  lemma WindUpVerdict(p: EnginePolicy, s: Aggregate, key: IdempotencyKey)
    requires AggregateOk(p, s) && !Wedged(s) && s.attempt.Submitted?
    ensures var d := Decide(s, p, key, WindUp(s), s.generation);
            && d.Ok?
            && var s' := EvolvedAll(s, d.value.events);
               Rank(s') < Rank(s) && !Wedged(s') && s'.observedAt == s.observedAt
  {
    var d := Decide(s, p, key, WindUp(s), s.generation);
    EvolvedOne(s, ResultRejected(s.attempt.attempt.id, "wound up"));
    hide EvolvedAll;
  }

  lemma WindUpSettlement(p: EnginePolicy, s: Aggregate, key: IdempotencyKey)
    requires AggregateOk(p, s) && s.attempt.Verified? && !s.settlement.Posted?
    ensures var d := Decide(s, p, key, WindUp(s), s.generation);
            && d.Ok?
            && var s' := EvolvedAll(s, d.value.events);
               Rank(s') < Rank(s) && !Wedged(s') && s'.observedAt == s.observedAt
  {
    var d := Decide(s, p, key, WindUp(s), s.generation).value;
    assert d.events == [d.events[0]];
    EvolvedOne(s, d.events[0]);
    hide EvolvedAll;
  }

  lemma WindUpConsent(p: EnginePolicy, s: Aggregate, key: IdempotencyKey)
    requires AggregateOk(p, s) && s.consent.Active? && !s.attempt.Submitted?
    requires s.attempt.Verified? ==> s.settlement.Posted?
    ensures var d := Decide(s, p, key, WindUp(s), s.generation);
            && d.Ok?
            && var s' := EvolvedAll(s, d.value.events);
               Rank(s') < Rank(s) && !Wedged(s') && s'.observedAt == s.observedAt
  {
    RevocationEvolves(s, s.consent.grantId, "wound up");
    hide EvolvedAll, StopEvents, StopEffect, AttemptOk, LeaseOk, SettlementOk;
  }

  /** One command that is accepted and leaves less to wind up. */
  lemma WindUpStep(p: EnginePolicy, s: Aggregate, key: IdempotencyKey)
    requires AggregateOk(p, s) && !Wedged(s) && Rank(s) > 0
    ensures s.attempt.Verified? && !s.settlement.NoSettlement? ==> s.settlement.Prepared? || s.consent.Active?
    ensures !WindUp(s).GrantConsent?
    ensures var d := Decide(s, p, key, WindUp(s), s.generation);
            && d.Ok?
            && var s' := EvolvedAll(s, d.value.events);
               Rank(s') < Rank(s) && !Wedged(s') && s'.observedAt == s.observedAt
  {
    hide Decide, EvolvedAll, AggregateOk;
    if s.attempt.Submitted? {
      WindUpVerdict(p, s, key);
    } else if s.attempt.Verified? && !s.settlement.Posted? {
      WindUpSettlement(p, s, key);
    } else {
      WindUpConsent(p, s, key);
    }
  }

  /** A key longer than every key in use is unused. */
  lemma {:induction false} LongKey(used: set<IdempotencyKey>) returns (key: IdempotencyKey)
    ensures key != "" && forall k :: k in used ==> |k| < |key|
  {
    if used == {} {
      return "k";
    }
    var k :| k in used;
    var rest := LongKey(used - {k});
    key := rest + k + "k";
  }

  /** An accepted command under an unused key lengthens the stream by its effect. */
  lemma Extend(node: NodeId, p: EnginePolicy, stream: seq<CommandEnvelope>, e: CommandEnvelope)
    requires var k := Run(node, p, stream).kernel;
             && k.policy == p && e.key != "" && e.key !in k.inbox
             && e.generation == ExpectedGeneration(k.aggregate, e.command)
             && Decide(k.aggregate, p, e.key, e.command, e.generation).Ok?
    ensures var s := Run(node, p, stream).kernel.aggregate;
            Run(node, p, stream + [e]).kernel.aggregate
                    == EvolvedAll(s, Decide(s, p, e.key, e.command, e.generation).value.events)
  {
    hide Decide, EvolvedAll, Run;
    RunSnoc(node, p, stream, e);
  }

  /** Each command of the continuation is accepted, and for the first time. */
  ghost predicate AllAccepted(node: NodeId, p: EnginePolicy, stream: seq<CommandEnvelope>, more: seq<CommandEnvelope>) {
    forall i :: 0 <= i < |more| ==> Accepts(Run(node, p, stream + more[..i]).kernel, more[i])
  }

  lemma AcceptedCons(node: NodeId, p: EnginePolicy, stream: seq<CommandEnvelope>, e: CommandEnvelope,
                     rest: seq<CommandEnvelope>)
    requires Accepts(Run(node, p, stream).kernel, e) && AllAccepted(node, p, stream + [e], rest)
    ensures AllAccepted(node, p, stream, [e] + rest)
  {
    hide Accepts, Run;
    var more := [e] + rest;
    forall i | 0 <= i < |more|
      ensures Accepts(Run(node, p, stream + more[..i]).kernel, more[i])
    {
      if i == 0 {
        assert stream + more[..0] == stream;
      } else {
        assert more[..i] == [e] + rest[..i - 1];
        assert stream + more[..i] == stream + [e] + rest[..i - 1];
      }
    }
  }

  /** An unused key and the right generation make any acceptable command acceptable by the exchange. */
  lemma FreshEnvelope(k: Kernel, c: Command) returns (e: CommandEnvelope)
    ensures e.command == c && e.generation == ExpectedGeneration(k.aggregate, c) && e.key != "" && e.key !in k.inbox
  {
    var key := LongKey(k.inbox.Keys);
    e := CommandEnvelope(key, ExpectedGeneration(k.aggregate, c), c);
    assert key in k.inbox.Keys ==> |key| < |key|;
  }

  /** Verdict, settlement, receipt and revocation as far as they are due: accepted one after the other, without
      time passing, until nothing is outstanding. */
  lemma {:induction false} WindsUp(node: NodeId, p: EnginePolicy, stream: seq<CommandEnvelope>)
    returns (more: seq<CommandEnvelope>)
    requires !Wedged(Run(node, p, stream).kernel.aggregate)
    ensures AllAccepted(node, p, stream, more)
    ensures AllowsGrant(Run(node, p, stream + more).kernel.aggregate)
    ensures Run(node, p, stream + more).kernel.aggregate.observedAt == Run(node, p, stream).kernel.aggregate.observedAt
    decreases Rank(Run(node, p, stream).kernel.aggregate)
  {
    hide Run, Decide, EvolvedAll, AggregateOk, MeterOk, Wedged, AllowsGrant, Accepts;
    RunKeepsHistory(node, p, stream);
    var k := Run(node, p, stream).kernel;
    if Rank(k.aggregate) == 0 {
      WoundUp(p, k.aggregate);
      more := [];
      assert stream + more == stream;
    } else {
      WindUpStep(p, k.aggregate, "");
      var e := FreshEnvelope(k, WindUp(k.aggregate));
      WindUpStep(p, k.aggregate, e.key);
      AcceptsMeans(k, e);
      Extend(node, p, stream, e);
      var rest := WindsUp(node, p, stream + [e]);
      AcceptedCons(node, p, stream, e, rest);
      more := [e] + rest;
      assert stream + more == stream + [e] + rest;
    }
  }

  /** Everything outstanding can be wound up if and only if no submitted result waits for its verdict at the end of
      time. */
  lemma WindingUpExactly(node: NodeId, p: EnginePolicy, stream: seq<CommandEnvelope>)
    ensures (exists more :: AllowsGrant(Run(node, p, stream + more).kernel.aggregate))
            <==> !Wedged(Run(node, p, stream).kernel.aggregate)
  {
    hide Run;
    if Wedged(Run(node, p, stream).kernel.aggregate) {
      forall more
        ensures !AllowsGrant(Run(node, p, stream + more).kernel.aggregate)
      {
        WedgedForever(node, p, stream, more);
      }
    } else {
      var more := WindsUp(node, p, stream);
    }
  }

  lemma WedgedDecision(p: EnginePolicy, s: Aggregate, key: IdempotencyKey, c: Command, generation: U64)
    requires AggregateOk(p, s) && Wedged(s) && Decide(s, p, key, c, generation).Ok?
    ensures c.ObserveTime? && c.observedAt == MAX_U64
  {
    hide StopEvents, StopEffect, CheckGrant, CheckWithin, CheckPositive, CheckMode, OrElse, Within;
  }

  lemma WedgedStays(p: EnginePolicy, k: Kernel, e: CommandEnvelope)
    requires k.policy == p && AggregateOk(p, k.aggregate) && Wedged(k.aggregate)
    ensures Wedged(Handled(k, e).0.aggregate)
  {
    var s := k.aggregate;
    if Decide(s, p, e.key, e.command, e.generation).Ok? {
      WedgedDecision(p, s, e.key, e.command, e.generation);
      DecisionEvolves(s, p, e.key, e.command, e.generation);
      hide EvolvedAll, StopEvents, StopEffect, AggregateOk;
    } else {
      hide Decide, EvolvedAll, AggregateOk;
    }
  }

  lemma {:induction false} WedgedForever(node: NodeId, p: EnginePolicy, stream: seq<CommandEnvelope>,
                                         more: seq<CommandEnvelope>)
    requires Wedged(Run(node, p, stream).kernel.aggregate)
    ensures Wedged(Run(node, p, stream + more).kernel.aggregate)
    decreases |more|
  {
    hide Handled, AggregateOk, MeterOk, Wedged, Run;
    if more == [] {
      assert stream + more == stream;
    } else {
      var init, last := more[..|more| - 1], more[|more| - 1];
      WedgedForever(node, p, stream, init);
      RunKeepsHistory(node, p, stream + init);
      assert stream + more == stream + init + [last];
      RunSnoc(node, p, stream + init, last);
      WedgedStays(p, Run(node, p, stream + init).kernel, last);
    }
  }

  // ---- Grants ----

  /** The policy leaves room for some grant: it has a hash, and its maximum allows some work. */
  predicate Grantable(p: EnginePolicy) {
    p.policyHash != "" && p.maximum.workers > 0 && p.maximum.dutyCyclePercent > 0 && p.maximum.memoryMib > 0
  }

  /** The least grant, from now until the end of time. */
  function LeastGrant(p: EnginePolicy, now: U64): (g: ResourceGrant) {
    ResourceGrant("grant", "principal", now, MAX_U64, true, ResourceCaps(1, 1, 1, 0, false), p.policyHash)
  }

  lemma LeastGrantOk(p: EnginePolicy, s: Aggregate, key: IdempotencyKey, generation: U64)
    requires Grantable(p) && AllowsGrant(s) && s.observedAt < MAX_U64
    ensures Decide(s, p, key, GrantConsent(LeastGrant(p, s.observedAt)), generation).Ok?
  {
  }

  lemma GrantNeeds(p: EnginePolicy, s: Aggregate, key: IdempotencyKey, g: ResourceGrant, generation: U64)
    requires Decide(s, p, key, GrantConsent(g), generation).Ok?
    ensures Grantable(p) && s.observedAt < MAX_U64
  {
  }

  ghost predicate CanBeGranted(node: NodeId, p: EnginePolicy, stream: seq<CommandEnvelope>) {
    exists more, e: CommandEnvelope :: e.command.GrantConsent? && Accepts(Run(node, p, stream + more).kernel, e)
  }

  /** From every state a stream can reach, some continuation gets a grant accepted if and only if the largest time
      has not been observed and the policy leaves room for a grant. */
  lemma GrantReachableExactly(node: NodeId, p: EnginePolicy, stream: seq<CommandEnvelope>)
    ensures CanBeGranted(node, p, stream)
            <==> Run(node, p, stream).kernel.aggregate.observedAt < MAX_U64 && Grantable(p)
  {
    hide Run, Decide, Accepts, AllowsGrant, Grantable, AggregateOk, MeterOk;
    if CanBeGranted(node, p, stream) {
      var more, e: CommandEnvelope :| e.command.GrantConsent? && Accepts(Run(node, p, stream + more).kernel, e);
      var k := Run(node, p, stream + more).kernel;
      RunKeepsHistory(node, p, stream + more);
      AcceptsMeans(k, e);
      GrantNeeds(p, k.aggregate, e.key, e.command.grant, e.generation);
      TimeIsMonotone(node, p, stream, more);
    }
    if Run(node, p, stream).kernel.aggregate.observedAt < MAX_U64 && Grantable(p) {
      var more := WindsUp(node, p, stream);
      var k := Run(node, p, stream + more).kernel;
      RunKeepsHistory(node, p, stream + more);
      var e := FreshEnvelope(k, GrantConsent(LeastGrant(p, k.aggregate.observedAt)));
      LeastGrantOk(p, k.aggregate, e.key, e.generation);
      AcceptsMeans(k, e);
      assert e.command.GrantConsent? && Accepts(Run(node, p, stream + more).kernel, e);
    }
  }

  // ---- Verdicts ----

  predicate Judges(c: Command, attempt: AttemptId) {
    c.VerifyResult? && c.attemptId == attempt
  }

  /** Some continuation gets a verdict on the attempt accepted. */
  ghost predicate CanBeJudged(node: NodeId, p: EnginePolicy, stream: seq<CommandEnvelope>, attempt: AttemptId) {
    exists more, e: CommandEnvelope :: Judges(e.command, attempt) && Accepts(Run(node, p, stream + more).kernel, e)
  }

  lemma VerdictNeeds(p: EnginePolicy, s: Aggregate, key: IdempotencyKey, c: Command, generation: U64)
    requires c.VerifyResult? && Decide(s, p, key, c, generation).Ok?
    ensures s.observedAt < MAX_U64
  {
  }

  /** A submitted result can still get a verdict if and only if the largest time has not been observed. */
  lemma VerdictReachableExactly(node: NodeId, p: EnginePolicy, stream: seq<CommandEnvelope>)
    requires Run(node, p, stream).kernel.aggregate.attempt.Submitted?
    ensures var s := Run(node, p, stream).kernel.aggregate;
            CanBeJudged(node, p, stream, s.attempt.attempt.id) <==> s.observedAt < MAX_U64
  {
    hide Run, Decide, Accepts, AggregateOk, MeterOk;
    var id := Run(node, p, stream).kernel.aggregate.attempt.attempt.id;
    if CanBeJudged(node, p, stream, id) {
      var more, e: CommandEnvelope :| Judges(e.command, id) && Accepts(Run(node, p, stream + more).kernel, e);
      var k := Run(node, p, stream + more).kernel;
      RunKeepsHistory(node, p, stream + more);
      AcceptsMeans(k, e);
      VerdictNeeds(p, k.aggregate, e.key, e.command, e.generation);
      TimeIsMonotone(node, p, stream, more);
    }
    if Run(node, p, stream).kernel.aggregate.observedAt < MAX_U64 {
      var k := Run(node, p, stream).kernel;
      RunKeepsHistory(node, p, stream);
      var e := FreshEnvelope(k, WindUp(k.aggregate));
      WindUpVerdict(p, k.aggregate, e.key);
      AcceptsMeans(k, e);
      assert stream + [] == stream;
      assert Judges(e.command, id) && Accepts(Run(node, p, stream + []).kernel, e);
    }
  }

  /** Observing the end of time while a result waits for its verdict. */
  lemma LateObservation(p: EnginePolicy, s: Aggregate, key: IdempotencyKey)
    requires s.attempt.Submitted?
    ensures var d := Decide(s, p, key, ObserveTime(MAX_U64), s.generation);
            d.Ok? && Wedged(EvolvedAll(s, d.value.events))
  {
    DecisionEvolves(s, p, key, ObserveTime(MAX_U64), s.generation);
    hide EvolvedAll, StopEvents, StopEffect;
  }

  /** The exception is real: a result submitted, and then the end of time observed. */
  lemma WedgeHappens(node: NodeId) returns (stream: seq<CommandEnvelope>)
    ensures Wedged(Run(node, BROWSER_ALPHA_V1, stream).kernel.aggregate)
  {
    hide Run, Decide, EvolvedAll, Wedged, GoodJob, ExampleJob, Handled;
    var p, j := BROWSER_ALPHA_V1, ExampleJob(node);
    ExampleIsGood(node);
    var first := Envelopes(j, KEYS, 5);
    JobReaches(node, p, [], j, KEYS, 5);
    assert [] + first == first;
    var k := Run(node, p, first).kernel;
    assert k.aggregate == Stage(NewAggregate(node), j, 5);
    var e := FreshEnvelope(k, ObserveTime(MAX_U64));
    LateObservation(p, k.aggregate, e.key);
    Extend(node, p, first, e);
    stream := first + [e];
  }
}
