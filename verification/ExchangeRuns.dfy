/** Runs of the compute-exchange kernel over arbitrary command streams: the consent invariant, the
    order and number of sandbox starts, verifications and credits, and the harmlessness of repeats. */
module ExchangeRuns {
  import opened Basics
  import opened Exchange

  // ---- Invariant of the aggregate ----

  predicate Within(c: ResourceCaps, upper: ResourceCaps) {
    && c.workers <= upper.workers
    && c.dutyCyclePercent <= upper.dutyCyclePercent
    && c.memoryMib <= upper.memoryMib
    && c.networkBytes <= upper.networkBytes
    && (c.gpu ==> upper.gpu)
  }

  lemma WithinMeans(c: ResourceCaps, upper: ResourceCaps)
    ensures CheckWithin(c, upper).None? <==> Within(c, upper)
  {
  }

  ghost predicate ConsentOk(p: EnginePolicy, s: Aggregate) {
    && (s.grant.Some? ==> Within(s.grant.value.caps, p.maximum) && s.grant.value.policyHash == p.policyHash)
    && (s.consent.Active? ==>
          s.grant.Some? && s.grant.value.id == s.consent.grantId && s.observedAt < s.grant.value.expiresAt)
  }

  ghost predicate LeaseOk(p: EnginePolicy, s: Aggregate) {
    s.lease.Open? ==>
      && s.consent.Active? && s.grant.Some?
      && s.lease.lease.grantId == s.grant.value.id
      && s.lease.lease.generation == s.generation
      && Within(s.lease.lease.resources, s.grant.value.caps)
      && (p.browserForegroundOnly ==> s.lease.lease.mode == BrowserForeground)
  }

  ghost predicate AttemptOk(p: EnginePolicy, s: Aggregate) {
    match s.attempt
    case Offered(a) =>
      && s.lease.Open? && a.leaseId == s.lease.lease.id && a.generation == s.generation
      && Within(a.resources, s.lease.lease.resources)
      && (p.browserForegroundOnly ==> a.mode == BrowserForeground)
    case Running(t) =>
      && s.lease.Open? && s.grant.Some? && t.producer == s.grant.value.principal && t.generation == s.generation
      && Within(t.resources, s.lease.lease.resources)
    case Submitted(t, r) =>
      && s.grant.Some? && r.producer == t.producer == s.grant.value.principal
      && Within(r.usage, t.resources)
    case Verified(t, r, v) =>
      && s.grant.Some? && r.producer == t.producer == s.grant.value.principal
      && Within(r.usage, t.resources)
      && v.attemptId == t.id && v.digest == r.digest && v.verifier != t.producer
    case _ => true
  }

  ghost predicate PlanOk(s: Aggregate, plan: SettlementPlan) {
    && s.attempt.Verified?
    && plan.attemptId == s.attempt.attempt.id
    && plan.beneficiary == s.attempt.attempt.producer
    && plan.digest == s.attempt.verification.digest
    && plan.serviceCredits > 0
  }

  ghost predicate SettlementOk(s: Aggregate) {
    match s.settlement
    case NoSettlement => true
    case Prepared(plan) => PlanOk(s, plan)
    case Posted(plan, receipt) =>
      PlanOk(s, plan) && receipt.settlementId == plan.id && receipt.serviceCredits == plan.serviceCredits
  }

  ghost predicate AggregateOk(p: EnginePolicy, s: Aggregate) {
    ConsentOk(p, s) && LeaseOk(p, s) && AttemptOk(p, s) && SettlementOk(s)
  }

  // ---- What one accepted command does to the aggregate ----

  lemma EvolvedOne(s: Aggregate, e: Event)
    ensures EvolvedAll(s, [e]) == Evolved(s, e)
  {
    assert [e][..0] == [];
    assert EvolvedAll(s, []) == s;
  }

  lemma EvolvedNone(s: Aggregate)
    ensures EvolvedAll(s, []) == s
  {
  }

  function StoppedLease(s: Aggregate, reason: StopReason): (r: LeaseState) {
    if s.lease.Open? then Stopped(s.lease.lease.id, reason) else s.lease
  }

  function StoppedAttempt(s: Aggregate, reason: StopReason): (r: AttemptState) {
    match s.attempt
    case Offered(a) => Failed(a.id, None, ConsentEnded(reason))
    case Running(a) => Failed(a.assignmentId, Some(a.id), ConsentEnded(reason))
    case _ => s.attempt
  }

  /** The aggregate once consent has ended and the stop events have been applied. */
  function AfterStop(s: Aggregate, consent: ConsentState, reason: StopReason): (r: Aggregate) {
    s.(consent := consent, lease := StoppedLease(s, reason), attempt := StoppedAttempt(s, reason))
  }

  lemma LeaseStopEvolves(s: Aggregate, t: Aggregate, reason: StopReason)
    requires t.lease == s.lease
    ensures EvolvedAll(t, LeaseStops(s, reason)) == t.(lease := StoppedLease(s, reason))
  {
    hide EvolvedAll;
    if s.lease.Open? {
      EvolvedOne(t, LeaseStopped(s.lease.lease.id, reason));
    } else {
      EvolvedNone(t);
    }
  }

  lemma AttemptStopEvolves(s: Aggregate, t: Aggregate, reason: StopReason)
    requires t.attempt == s.attempt
    ensures EvolvedAll(t, AttemptStops(s, reason)) == t.(attempt := StoppedAttempt(s, reason))
  {
    hide EvolvedAll;
    match s.attempt
    case Offered(a) => EvolvedOne(t, AttemptFailed(a.id, None, ConsentEnded(reason)));
    case Running(a) => EvolvedOne(t, AttemptFailed(a.assignmentId, Some(a.id), ConsentEnded(reason)));
    case _ => EvolvedNone(t);
  }

  lemma StopEvolves(s: Aggregate, t: Aggregate, reason: StopReason)
    requires t.lease == s.lease && t.attempt == s.attempt
    ensures EvolvedAll(t, StopEvents(s, reason)) == AfterStop(t, t.consent, reason)
  {
    hide EvolvedAll, LeaseStops, AttemptStops;
    EvolvedAllConcat(t, LeaseStops(s, reason), AttemptStops(s, reason));
    LeaseStopEvolves(s, t, reason);
    AttemptStopEvolves(s, t.(lease := StoppedLease(s, reason)), reason);
  }

  lemma ExpiryEvolves(s: Aggregate, at: U64, grantId: GrantId)
    ensures EvolvedAll(s, [TimeObserved(at), ConsentExpired(grantId, at)] + StopEvents(s, ByExpiry))
            == AfterStop(s.(observedAt := at), Expired(grantId, at), ByExpiry)
  {
    hide EvolvedAll, StopEvents;
    var two := [TimeObserved(at), ConsentExpired(grantId, at)];
    var t := s.(observedAt := at, consent := Expired(grantId, at));
    assert two == [TimeObserved(at)] + [ConsentExpired(grantId, at)];
    EvolvedAllConcat(s, [TimeObserved(at)], [ConsentExpired(grantId, at)]);
    EvolvedOne(s, TimeObserved(at));
    EvolvedOne(s.(observedAt := at), ConsentExpired(grantId, at));
    EvolvedAllConcat(s, two, StopEvents(s, ByExpiry));
    StopEvolves(s, t, ByExpiry);
  }

  lemma RevocationEvolves(s: Aggregate, grantId: GrantId, why: string)
    ensures EvolvedAll(s, [ConsentRevoked(grantId, s.observedAt, why)] + StopEvents(s, ByRevocation))
            == AfterStop(s, Revoked(grantId, s.observedAt), ByRevocation)
  {
    hide EvolvedAll, StopEvents;
    var t := s.(consent := Revoked(grantId, s.observedAt));
    EvolvedOne(s, ConsentRevoked(grantId, s.observedAt, why));
    EvolvedAllConcat(s, [ConsentRevoked(grantId, s.observedAt, why)], StopEvents(s, ByRevocation));
    StopEvolves(s, t, ByRevocation);
  }

  /** Whether the command ends consent when accepted in `s`. */
  predicate EndsConsent(s: Aggregate, c: Command) {
    || c.RevokeConsent?
    || (c.ObserveTime? && s.consent.Active? && s.grant.Some? && c.observedAt >= s.grant.value.expiresAt)
  }

  function EndOf(s: Aggregate, c: Command): (r: Aggregate)
    requires EndsConsent(s, c)
  {
    if c.RevokeConsent? then AfterStop(s, Revoked(c.grantId, s.observedAt), ByRevocation)
    else AfterStop(s.(observedAt := c.observedAt), Expired(s.consent.grantId, c.observedAt), ByExpiry)
  }

  /** An accepted command either ends consent, or is a single event. */
  lemma DecisionEvolves(s: Aggregate, p: EnginePolicy, key: IdempotencyKey, c: Command, generation: U64)
    requires Decide(s, p, key, c, generation).Ok?
    ensures var d := Decide(s, p, key, c, generation).value;
            if EndsConsent(s, c) then EvolvedAll(s, d.events) == EndOf(s, c)
            else |d.events| == 1 && EvolvedAll(s, d.events) == Evolved(s, d.events[0])
  {
    var d := Decide(s, p, key, c, generation).value;
    if c.RevokeConsent? {
      RevocationEvolves(s, c.grantId, c.reason);
    } else if EndsConsent(s, c) {
      ExpiryEvolves(s, c.observedAt, s.consent.grantId);
    } else {
      assert d.events == [d.events[0]];
      EvolvedOne(s, d.events[0]);
    }
  }

  lemma EndKeepsOk(p: EnginePolicy, s: Aggregate, c: Command)
    requires AggregateOk(p, s) && EndsConsent(s, c)
    ensures AggregateOk(p, EndOf(s, c))
  {
  }

  lemma StepKeepsOk(s: Aggregate, p: EnginePolicy, key: IdempotencyKey, c: Command, generation: U64)
    requires AggregateOk(p, s) && Decide(s, p, key, c, generation).Ok?
    ensures AggregateOk(p, EvolvedAll(s, Decide(s, p, key, c, generation).value.events))
  {
    DecisionEvolves(s, p, key, c, generation);
    if EndsConsent(s, c) {
      EndKeepsOk(p, s, c);
    } else {
      SingleKeepsOk(s, p, key, c, generation);
    }
  }

  lemma SingleKeepsOk(s: Aggregate, p: EnginePolicy, key: IdempotencyKey, c: Command, generation: U64)
    requires AggregateOk(p, s) && Decide(s, p, key, c, generation).Ok? && !EndsConsent(s, c)
    requires |Decide(s, p, key, c, generation).value.events| == 1
    ensures AggregateOk(p, Evolved(s, Decide(s, p, key, c, generation).value.events[0]))
  {
    hide AggregateOk, Decide, Evolved;
    match c
    case GrantConsent(_) => ConsentKeepsOk(s, p, key, c, generation);
    case ObserveTime(_) => ConsentKeepsOk(s, p, key, c, generation);
    case OpenLease(_) => ConsentKeepsOk(s, p, key, c, generation);
    case OfferAssignment(_) => AttemptKeepsOk(s, p, key, c, generation);
    case StartAttempt(_, _) => AttemptKeepsOk(s, p, key, c, generation);
    case SubmitResult(_, _) => AttemptKeepsOk(s, p, key, c, generation);
    case _ => ResultKeepsOk(s, p, key, c, generation);
  }

  lemma ConsentKeepsOk(s: Aggregate, p: EnginePolicy, key: IdempotencyKey, c: Command, generation: U64)
    requires AggregateOk(p, s) && Decide(s, p, key, c, generation).Ok? && !EndsConsent(s, c)
    requires |Decide(s, p, key, c, generation).value.events| == 1
    requires c.GrantConsent? || c.ObserveTime? || c.OpenLease?
    ensures AggregateOk(p, Evolved(s, Decide(s, p, key, c, generation).value.events[0]))
  {
    match c
    case GrantConsent(g) => WithinMeans(g.caps, p.maximum);
    case OpenLease(l) => WithinMeans(l.resources, s.grant.value.caps);
    case ObserveTime(_) =>
  }

  lemma AttemptKeepsOk(s: Aggregate, p: EnginePolicy, key: IdempotencyKey, c: Command, generation: U64)
    requires AggregateOk(p, s) && Decide(s, p, key, c, generation).Ok? && !EndsConsent(s, c)
    requires |Decide(s, p, key, c, generation).value.events| == 1
    requires c.OfferAssignment? || c.StartAttempt? || c.SubmitResult?
    ensures AggregateOk(p, Evolved(s, Decide(s, p, key, c, generation).value.events[0]))
  {
    match c
    case OfferAssignment(a) => WithinMeans(a.resources, s.lease.lease.resources);
    case SubmitResult(_, r) => WithinMeans(r.usage, s.attempt.attempt.resources);
    case StartAttempt(_, _) =>
  }

  lemma ResultKeepsOk(s: Aggregate, p: EnginePolicy, key: IdempotencyKey, c: Command, generation: U64)
    requires AggregateOk(p, s) && Decide(s, p, key, c, generation).Ok? && !EndsConsent(s, c)
    requires |Decide(s, p, key, c, generation).value.events| == 1
    requires c.VerifyResult? || c.PrepareSettlement? || c.RecordSettlementReceipt? || c.RevokeConsent?
    ensures AggregateOk(p, Evolved(s, Decide(s, p, key, c, generation).value.events[0]))
  {
  }

  // ---- Facts ----

  /** The history the outside world sees: accepted events and emitted effects, in order. */
  datatype Fact = Happened(event: Event) | Emitted(effect: Effect)

  function Events(events: seq<Event>): (r: seq<Fact>) {
    seq(|events|, i requires 0 <= i < |events| => Happened(events[i]))
  }

  function Effects(effects: seq<Effect>): (r: seq<Fact>) {
    seq(|effects|, i requires 0 <= i < |effects| => Emitted(effects[i]))
  }

  function FactsOf(o: Outcome): (r: seq<Fact>) {
    if o.Accepted? && !o.replayed then Events(o.events) + Effects(o.effects) else []
  }

  datatype History = History(kernel: Kernel, facts: seq<Fact>)

  function Fed(h: History, e: CommandEnvelope): (r: History) {
    var (after, o) := Handled(h.kernel, e);
    History(after, h.facts + FactsOf(o))
  }

  /** Feed a stream of commands to a new exchange. */
  function Run(node: NodeId, p: EnginePolicy, stream: seq<CommandEnvelope>): (r: History) {
    if stream == [] then History(Kernel(p, NewAggregate(node), map[]), [])
    else Fed(Run(node, p, stream[..|stream| - 1]), stream[|stream| - 1])
  }

  // ---- Meter: what a sequence of facts adds up to ----

  /** The sandbox started and not stopped, whether consent stands, three counts, and whether every start so
      far found no sandbox open and consent standing. */
  datatype Meter = Meter(sandbox: Option<AttemptId>, consented: bool, starts: nat, verified: nat, posts: nat, ok: bool)

  const ZERO := Meter(None, false, 0, 0, 0, true)

  function Tick(m: Meter, f: Fact): (r: Meter) {
    match f
    case Happened(ConsentGranted(_, _)) => m.(consented := true)
    case Happened(ConsentRevoked(_, _, _)) => m.(consented := false)
    case Happened(ConsentExpired(_, _)) => m.(consented := false)
    case Happened(ResultVerified(_)) => m.(verified := m.verified + 1)
    case Emitted(StartSandbox(_, _, _, a, _)) =>
      m.(sandbox := Some(a.id), starts := m.starts + 1, ok := m.ok && m.sandbox.None? && m.consented)
    case Emitted(StopSandbox(_, _, _, id, _)) => if id.Some? && id == m.sandbox then m.(sandbox := None) else m
    case Emitted(PostServiceCredit(_, _)) => m.(posts := m.posts + 1)
    case _ => m
  }

  function TickAll(m: Meter, facts: seq<Fact>): (r: Meter) {
    if facts == [] then m else Tick(TickAll(m, facts[..|facts| - 1]), facts[|facts| - 1])
  }

  lemma {:induction false} TickAllConcat(m: Meter, a: seq<Fact>, b: seq<Fact>)
    ensures TickAll(m, a + b) == TickAll(TickAll(m, a), b)
    decreases |b|
  {
    if b == [] {
      assert a + b == a;
    } else {
      TickAllConcat(m, a, b[..|b| - 1]);
      assert (a + b)[..|a + b| - 1] == a + b[..|b| - 1];
    }
  }

  ghost predicate MeterOk(m: Meter, s: Aggregate) {
    && m.ok
    && m.sandbox == (if s.attempt.Running? then Some(s.attempt.attempt.id) else None)
    && m.consented == s.consent.Active?
    && m.starts >= m.verified + (if s.attempt.Running? || s.attempt.Submitted? then 1 else 0)
    && m.verified >= m.posts + (if s.attempt.Verified? && s.settlement.NoSettlement? then 1 else 0)
  }

  lemma {:induction false} TickEvents(m: Meter, events: seq<Event>)
    requires forall i :: 0 <= i < |events| ==> Tick(m, Happened(events[i])) == m
    ensures TickAll(m, Events(events)) == m
  {
    if events != [] {
      TickEvents(m, events[..|events| - 1]);
      assert Events(events)[..|events| - 1] == Events(events[..|events| - 1]);
    }
  }

  lemma TickOne(m: Meter, f: Fact)
    ensures TickAll(m, [f]) == Tick(m, f)
  {
    assert [f][..0] == [];
    assert TickAll(m, []) == m;
  }

  /** The facts of a decision with a single event and at most one effect. */
  lemma TickSingle(m: Meter, d: Decision)
    requires |d.events| == 1 && |d.effects| <= 1
    ensures var n := Tick(m, Happened(d.events[0]));
            TickAll(m, Events(d.events) + Effects(d.effects))
            == if d.effects == [] then n else Tick(n, Emitted(d.effects[0]))
  {
    TickAllConcat(m, Events(d.events), Effects(d.effects));
    assert Events(d.events) == [Happened(d.events[0])];
    TickOne(m, Happened(d.events[0]));
    if d.effects != [] {
      assert Effects(d.effects) == [Emitted(d.effects[0])];
      TickOne(Tick(m, Happened(d.events[0])), Emitted(d.effects[0]));
    }
  }

  /** The facts of a decision with one event that counts, some that do not, and one effect. */
  lemma TickEnding(m: Meter, first: seq<Event>, ended: Event, stops: seq<Event>, effect: Effect)
    requires forall i :: 0 <= i < |first| ==> Tick(m, Happened(first[i])) == m
    requires var n := Tick(m, Happened(ended)); forall i :: 0 <= i < |stops| ==> Tick(n, Happened(stops[i])) == n
    ensures TickAll(m, Events(first + [ended] + stops) + Effects([effect]))
            == Tick(Tick(m, Happened(ended)), Emitted(effect))
  {
    hide Tick, TickAll;
    var n := Tick(m, Happened(ended));
    var all := first + [ended] + stops;
    assert Events(all) == Events(first) + [Happened(ended)] + Events(stops);
    assert Effects([effect]) == [Emitted(effect)];
    TickAllConcat(m, Events(all), [Emitted(effect)]);
    TickAllConcat(m, Events(first) + [Happened(ended)], Events(stops));
    TickAllConcat(m, Events(first), [Happened(ended)]);
    TickEvents(m, first);
    TickOne(m, Happened(ended));
    TickEvents(n, stops);
    TickOne(n, Emitted(effect));
  }

  lemma StopsDoNotCount(m: Meter, s: Aggregate, reason: StopReason)
    ensures forall i :: 0 <= i < |StopEvents(s, reason)| ==> Tick(m, Happened(StopEvents(s, reason)[i])) == m
  {
  }

  /** The facts of a decision that ends consent. */
  lemma TickEnd(m: Meter, s: Aggregate, p: EnginePolicy, key: IdempotencyKey, c: Command, generation: U64)
    requires Decide(s, p, key, c, generation).Ok? && EndsConsent(s, c)
    ensures var d := Decide(s, p, key, c, generation).value;
            TickAll(m, Events(d.events) + Effects(d.effects))
            == Tick(m.(consented := false),
                    Emitted(StopEffect(s, key, if c.RevokeConsent? then ByRevocation else ByExpiry)))
  {
    hide TickAll, StopEffect, StopEvents, Events, Effects;
    var d := Decide(s, p, key, c, generation).value;
    StopsDoNotCount(m.(consented := false), s, if c.RevokeConsent? then ByRevocation else ByExpiry);
    if c.RevokeConsent? {
      var ended := ConsentRevoked(c.grantId, s.observedAt, c.reason);
      TickEnding(m, [], ended, StopEvents(s, ByRevocation), StopEffect(s, key, ByRevocation));
      assert d.events == [] + [ended] + StopEvents(s, ByRevocation);
    } else {
      var first, ended := TimeObserved(c.observedAt), ConsentExpired(s.consent.grantId, c.observedAt);
      TickEnding(m, [first], ended, StopEvents(s, ByExpiry), StopEffect(s, key, ByExpiry));
      assert d.events == [first] + [ended] + StopEvents(s, ByExpiry);
    }
  }

  lemma EndKeepsMeter(m: Meter, s: Aggregate, key: IdempotencyKey, c: Command)
    requires MeterOk(m, s) && EndsConsent(s, c)
    ensures MeterOk(Tick(m.(consented := false),
                         Emitted(StopEffect(s, key, if c.RevokeConsent? then ByRevocation else ByExpiry))), EndOf(s, c))
  {
  }

  lemma SingleKeepsMeter(m: Meter, s: Aggregate, p: EnginePolicy, key: IdempotencyKey, c: Command, generation: U64)
    requires AggregateOk(p, s) && MeterOk(m, s) && Decide(s, p, key, c, generation).Ok? && !EndsConsent(s, c)
    ensures var d := Decide(s, p, key, c, generation).value;
            && |d.events| == 1 && |d.effects| <= 1
            && var n := Tick(m, Happened(d.events[0]));
               MeterOk(if d.effects == [] then n else Tick(n, Emitted(d.effects[0])), Evolved(s, d.events[0]))
  {
    hide Decide, Evolved, Tick, MeterOk, AggregateOk;
    if c.StartAttempt? || c.SubmitResult? || c.VerifyResult? || c.PrepareSettlement? {
      WorkKeepsMeter(m, s, p, key, c, generation);
    } else {
      FrameKeepsMeter(m, s, p, key, c, generation);
    }
  }

  lemma WorkKeepsMeter(m: Meter, s: Aggregate, p: EnginePolicy, key: IdempotencyKey, c: Command, generation: U64)
    requires AggregateOk(p, s) && MeterOk(m, s) && Decide(s, p, key, c, generation).Ok? && !EndsConsent(s, c)
    requires c.StartAttempt? || c.SubmitResult? || c.VerifyResult? || c.PrepareSettlement?
    ensures var d := Decide(s, p, key, c, generation).value;
            && |d.events| == 1 && |d.effects| <= 1
            && var n := Tick(m, Happened(d.events[0]));
               MeterOk(if d.effects == [] then n else Tick(n, Emitted(d.effects[0])), Evolved(s, d.events[0]))
  {
    hide LeaseOk, CheckGrant, CheckPositive, CheckWithin, CheckMode, OrElse, Within;
  }

  lemma FrameKeepsMeter(m: Meter, s: Aggregate, p: EnginePolicy, key: IdempotencyKey, c: Command, generation: U64)
    requires AggregateOk(p, s) && MeterOk(m, s) && Decide(s, p, key, c, generation).Ok? && !EndsConsent(s, c)
    requires !(c.StartAttempt? || c.SubmitResult? || c.VerifyResult? || c.PrepareSettlement?)
    ensures var d := Decide(s, p, key, c, generation).value;
            && |d.events| == 1 && |d.effects| <= 1
            && var n := Tick(m, Happened(d.events[0]));
               MeterOk(if d.effects == [] then n else Tick(n, Emitted(d.effects[0])), Evolved(s, d.events[0]))
  {
    hide LeaseOk, CheckGrant, CheckPositive, CheckWithin, CheckMode, OrElse, Within;
  }

  lemma StepKeepsMeter(m: Meter, s: Aggregate, p: EnginePolicy, key: IdempotencyKey, c: Command, generation: U64)
    requires AggregateOk(p, s) && MeterOk(m, s) && Decide(s, p, key, c, generation).Ok?
    ensures var d := Decide(s, p, key, c, generation).value;
            MeterOk(TickAll(m, Events(d.events) + Effects(d.effects)), EvolvedAll(s, d.events))
  {
    hide Decide, Evolved, EvolvedAll, Tick, TickAll, MeterOk, AggregateOk, Events, Effects, EndOf;
    DecisionEvolves(s, p, key, c, generation);
    if EndsConsent(s, c) {
      TickEnd(m, s, p, key, c, generation);
      EndKeepsMeter(m, s, key, c);
    } else {
      SingleKeepsMeter(m, s, p, key, c, generation);
      TickSingle(m, Decide(s, p, key, c, generation).value);
    }
  }

  // ---- Invariant of a run ----

  function EventsIn(facts: seq<Fact>): (r: seq<Event>) {
    if facts == [] then []
    else
      var rest := EventsIn(facts[..|facts| - 1]);
      match facts[|facts| - 1]
      case Happened(e) => rest + [e]
      case Emitted(_) => rest
  }

  ghost predicate HistoryOk(node: NodeId, p: EnginePolicy, h: History) {
    && h.kernel.policy == p
    && AggregateOk(p, h.kernel.aggregate)
    && MeterOk(TickAll(ZERO, h.facts), h.kernel.aggregate)
    && h.kernel.aggregate == EvolvedAll(NewAggregate(node), EventsIn(h.facts))
  }

  lemma {:induction false} EventsInConcat(a: seq<Fact>, b: seq<Fact>)
    ensures EventsIn(a + b) == EventsIn(a) + EventsIn(b)
    decreases |b|
  {
    if b == [] {
      assert a + b == a;
    } else {
      EventsInConcat(a, b[..|b| - 1]);
      assert (a + b)[..|a + b| - 1] == a + b[..|b| - 1];
    }
  }

  lemma {:induction false} EventsInEvents(events: seq<Event>)
    ensures EventsIn(Events(events)) == events
  {
    if events != [] {
      EventsInEvents(events[..|events| - 1]);
      assert Events(events)[..|events| - 1] == Events(events[..|events| - 1]);
    }
  }

  lemma {:induction false} EventsInEffects(effects: seq<Effect>)
    ensures EventsIn(Effects(effects)) == []
  {
    if effects != [] {
      EventsInEffects(effects[..|effects| - 1]);
      assert Effects(effects)[..|effects| - 1] == Effects(effects[..|effects| - 1]);
    }
  }

  lemma AcceptKeepsHistory(node: NodeId, p: EnginePolicy, h: History, e: CommandEnvelope)
    requires HistoryOk(node, p, h) && Decide(h.kernel.aggregate, p, e.key, e.command, e.generation).Ok?
    ensures var d := Decide(h.kernel.aggregate, p, e.key, e.command, e.generation).value;
            var s', facts := EvolvedAll(h.kernel.aggregate, d.events),
                    h.facts + (Events(d.events) + Effects(d.effects));
            && AggregateOk(p, s') && MeterOk(TickAll(ZERO, facts), s')
            && s' == EvolvedAll(NewAggregate(node), EventsIn(facts))
  {
    hide Decide, Evolved, AggregateOk, MeterOk, EvolvedAll, Tick, TickAll, EventsIn;
    var s := h.kernel.aggregate;
    var d := Decide(s, p, e.key, e.command, e.generation).value;
    var added := Events(d.events) + Effects(d.effects);
    StepKeepsOk(s, p, e.key, e.command, e.generation);
    StepKeepsMeter(TickAll(ZERO, h.facts), s, p, e.key, e.command, e.generation);
    TickAllConcat(ZERO, h.facts, added);
    EventsInConcat(h.facts, added);
    EventsInConcat(Events(d.events), Effects(d.effects));
    EventsInEvents(d.events);
    EventsInEffects(d.effects);
    assert d.events + [] == d.events;
    EvolvedAllConcat(NewAggregate(node), EventsIn(h.facts), d.events);
  }

  lemma StepKeepsHistory(node: NodeId, p: EnginePolicy, h: History, e: CommandEnvelope)
    requires HistoryOk(node, p, h)
    ensures HistoryOk(node, p, History(Handled(h.kernel, e).0, h.facts + FactsOf(Handled(h.kernel, e).1)))
  {
    hide Decide, AggregateOk, MeterOk, EvolvedAll, TickAll, EventsIn;
    if Decide(h.kernel.aggregate, p, e.key, e.command, e.generation).Ok? {
      AcceptKeepsHistory(node, p, h, e);
    }
    assert h.facts + [] == h.facts;
  }

  lemma {:induction false} RunKeepsHistory(node: NodeId, p: EnginePolicy, stream: seq<CommandEnvelope>)
    ensures HistoryOk(node, p, Run(node, p, stream))
  {
    if stream != [] {
      RunKeepsHistory(node, p, stream[..|stream| - 1]);
      StepKeepsHistory(node, p, Run(node, p, stream[..|stream| - 1]), stream[|stream| - 1]);
    }
  }

  // ---- Consent ----

  /** The consent kernel's invariant, in every state any command stream can reach: an open lease stands on
      active, unexpired consent under the current grant; an offered or running attempt sits under that
      lease; and the caps only ever narrow from policy to grant to lease to attempt. */
  lemma ConsentGovernsWork(node: NodeId, p: EnginePolicy, stream: seq<CommandEnvelope>)
    ensures var s := Run(node, p, stream).kernel.aggregate;
            && (s.consent.Active? ==>
                      s.grant.Some? && s.grant.value.id == s.consent.grantId && s.observedAt < s.grant.value.expiresAt)
            && (s.lease.Open? ==>
                  && s.consent.Active? && s.lease.lease.grantId == s.consent.grantId
                  && Within(s.lease.lease.resources, s.grant.value.caps) && Within(s.grant.value.caps, p.maximum))
            && (s.attempt.Offered? ==>
                      s.lease.Open? && s.attempt.assignment.leaseId == s.lease.lease.id
                              && Within(s.attempt.assignment.resources, s.lease.lease.resources))
            && (s.attempt.Running? ==>
                      s.lease.Open? && Within(s.attempt.attempt.resources, s.lease.lease.resources)
                              && Within(s.attempt.attempt.resources, p.maximum))
  {
    RunKeepsHistory(node, p, stream);
  }

  /** A settlement exists only for a verified attempt whose verifier is not its producer, and it pays that
      producer for the digest that was verified. */
  lemma OnlyVerifiedWorkIsPaid(node: NodeId, p: EnginePolicy, stream: seq<CommandEnvelope>)
    ensures var s := Run(node, p, stream).kernel.aggregate;
            !s.settlement.NoSettlement? ==>
              && s.attempt.Verified?
              && s.attempt.verification.verifier != s.attempt.attempt.producer
              && s.settlement.plan.attemptId == s.attempt.attempt.id == s.attempt.verification.attemptId
              && s.settlement.plan.beneficiary == s.attempt.attempt.producer
              && s.settlement.plan.digest == s.attempt.verification.digest == s.attempt.result.digest
              && Within(s.attempt.result.usage, s.attempt.attempt.resources)
  {
    RunKeepsHistory(node, p, stream);
  }

  /** Revocation is always available while consent is active: the contributor's command is accepted in every
      reachable state, and it leaves no open lease, no offered or running attempt, and a stop for the
      sandbox that was running. Commands are never turned away for an expired grant, because expiry itself
      ends consent. */
  lemma RevocationAlwaysWorks(node: NodeId, p: EnginePolicy, stream: seq<CommandEnvelope>, k: Kernel,
                              e: CommandEnvelope)
    requires k == Run(node, p, stream).kernel
    requires && k.aggregate.consent.Active? && e.key != "" && e.key !in k.inbox
             && e.generation == k.aggregate.generation
             && e.command.RevokeConsent? && e.command.grantId == k.aggregate.consent.grantId && e.command.reason != ""
    ensures var (k', o) := Handled(k, e);
            var s, s' := k.aggregate, k'.aggregate;
            && o.Accepted? && !o.replayed
            && s'.consent.Revoked? && !s'.lease.Open? && !s'.attempt.Offered? && !s'.attempt.Running?
            && (s.attempt.Running? ==>
                      exists i :: 0 <= i < |o.effects| && o.effects[i].StopSandbox?
                              && o.effects[i].attemptId == Some(s.attempt.attempt.id))
            && s'.settlement == s.settlement
  {
    RunKeepsHistory(node, p, stream);
    RevokeStops(p, k, e);
  }

  lemma RevokeStops(p: EnginePolicy, k: Kernel, e: CommandEnvelope)
    requires AggregateOk(p, k.aggregate)
    requires k.aggregate.consent.Active? && e.key != "" && e.key !in k.inbox && e.generation == k.aggregate.generation
    requires e.command.RevokeConsent? && e.command.grantId == k.aggregate.consent.grantId && e.command.reason != ""
    ensures Handled(k, e).1 == Accepted([ConsentRevoked(e.command.grantId, k.aggregate.observedAt, e.command.reason)]
                                        + StopEvents(k.aggregate, ByRevocation),
                                        [StopEffect(k.aggregate, e.key, ByRevocation)], false)
    ensures Handled(k, e).0.aggregate == AfterStop(k.aggregate, Revoked(e.command.grantId, k.aggregate.observedAt),
                                                   ByRevocation)
    ensures k.aggregate.attempt.Running? ==>
              StopEffect(k.aggregate, e.key, ByRevocation).attemptId == Some(k.aggregate.attempt.attempt.id)
                      && Handled(k, e).1.effects[0].StopSandbox?
  {
    hide EvolvedAll, AttemptOk, SettlementOk, LeaseOk, StopEvents;
    RevocationEvolves(k.aggregate, e.command.grantId, e.command.reason);
  }

  // ---- Order and number of effects ----

  predicate Starts(f: Fact, id: AttemptId) {
    f.Emitted? && f.effect.StartSandbox? && f.effect.attempt.id == id
  }

  predicate Stops(f: Fact, id: AttemptId) {
    f.Emitted? && f.effect.StopSandbox? && f.effect.attemptId == Some(id)
  }

  predicate EndsIt(f: Fact) {
    f.Happened? && (f.event.ConsentRevoked? || f.event.ConsentExpired?)
  }

  /** Every start in a sound history found no open sandbox and standing consent. */
  lemma {:induction false} StartsAreGuarded(facts: seq<Fact>, j: nat)
    requires TickAll(ZERO, facts).ok && j < |facts| && facts[j].Emitted? && facts[j].effect.StartSandbox?
    ensures TickAll(ZERO, facts[..j]).sandbox.None? && TickAll(ZERO, facts[..j]).consented
    decreases |facts|
  {
    if j < |facts| - 1 {
      StartsAreGuarded(facts[..|facts| - 1], j);
      assert facts[..|facts| - 1][..j] == facts[..j];
    }
  }

  lemma {:induction false} ClosedWasStopped(facts: seq<Fact>, i: nat, id: AttemptId) returns (k: nat)
    requires i < |facts| && Starts(facts[i], id) && TickAll(ZERO, facts).ok && TickAll(ZERO, facts).sandbox != Some(id)
    ensures i < k < |facts| && Stops(facts[k], id)
    decreases |facts|
  {
    var n := |facts| - 1;
    if Stops(facts[n], id) && i < n {
      return n;
    }
    if i < n {
      k := ClosedWasStopped(facts[..n], i, id);
    }
  }

  lemma {:induction false} ConsentWasRenewed(facts: seq<Fact>, i: nat) returns (k: nat)
    requires i < |facts| && EndsIt(facts[i]) && TickAll(ZERO, facts).consented
    ensures i < k < |facts| && facts[k].Happened? && facts[k].event.ConsentGranted?
    decreases |facts|
  {
    var n := |facts| - 1;
    if facts[n].Happened? && facts[n].event.ConsentGranted? && i < n {
      return n;
    }
    if i < n {
      k := ConsentWasRenewed(facts[..n], i);
    }
  }

  lemma {:induction false} OkIsPrefixClosed(facts: seq<Fact>, j: nat)
    requires TickAll(ZERO, facts).ok && j <= |facts|
    ensures TickAll(ZERO, facts[..j]).ok
    decreases |facts|
  {
    if j < |facts| {
      OkIsPrefixClosed(facts[..|facts| - 1], j);
      assert facts[..|facts| - 1][..j] == facts[..j];
    } else {
      assert facts[..j] == facts;
    }
  }

  /** Between any two sandbox starts there is a stop that names the first one's attempt. */
  lemma OneSandboxAtATime(node: NodeId, p: EnginePolicy, stream: seq<CommandEnvelope>, facts: seq<Fact>, i: nat,
                          j: nat, id: AttemptId) returns (k: nat)
    requires facts == Run(node, p, stream).facts && i < j < |facts|
    requires Starts(facts[i], id)
    requires facts[j].Emitted? && facts[j].effect.StartSandbox?
    ensures i < k < j && Stops(facts[k], id)
  {
    RunKeepsHistory(node, p, stream);
    StartsAreGuarded(facts, j);
    OkIsPrefixClosed(facts, j);
    k := ClosedWasStopped(facts[..j], i, id);
  }

  /** After consent has been revoked or has expired no sandbox starts until consent is granted anew. */
  lemma NoStartWithoutConsent(node: NodeId, p: EnginePolicy, stream: seq<CommandEnvelope>, facts: seq<Fact>, i: nat,
                              j: nat) returns (k: nat)
    requires facts == Run(node, p, stream).facts && i < j < |facts|
    requires EndsIt(facts[i])
    requires facts[j].Emitted? && facts[j].effect.StartSandbox?
    ensures i < k < j && facts[k].Happened? && facts[k].event.ConsentGranted?
  {
    RunKeepsHistory(node, p, stream);
    StartsAreGuarded(facts, j);
    k := ConsentWasRenewed(facts[..j], i);
  }

  function CountStarts(facts: seq<Fact>): (r: nat) {
    if facts == [] then 0
    else
      var last := facts[|facts| - 1];
      CountStarts(facts[..|facts| - 1]) + if last.Emitted? && last.effect.StartSandbox? then 1 else 0
  }

  function CountVerified(facts: seq<Fact>): (r: nat) {
    if facts == [] then 0
    else
      var last := facts[|facts| - 1];
      CountVerified(facts[..|facts| - 1]) + if last.Happened? && last.event.ResultVerified? then 1 else 0
  }

  function CountPosts(facts: seq<Fact>): (r: nat) {
    if facts == [] then 0
    else
      var last := facts[|facts| - 1];
      CountPosts(facts[..|facts| - 1]) + if last.Emitted? && last.effect.PostServiceCredit? then 1 else 0
  }

  lemma {:induction false} MeterCounts(facts: seq<Fact>)
    ensures var m := TickAll(ZERO, facts);
            m.starts == CountStarts(facts) && m.verified == CountVerified(facts) && m.posts == CountPosts(facts)
  {
    if facts != [] {
      MeterCounts(facts[..|facts| - 1]);
    }
  }

  /** After every stream, and so at every point of every longer one, credits posted never exceed results
      verified, and those never exceed sandboxes started. */
  lemma CreditsNeverOutrunWork(node: NodeId, p: EnginePolicy, stream: seq<CommandEnvelope>)
    ensures var facts := Run(node, p, stream).facts;
            CountPosts(facts) <= CountVerified(facts) <= CountStarts(facts)
  {
    RunKeepsHistory(node, p, stream);
    MeterCounts(Run(node, p, stream).facts);
  }

  /** Event sourcing: the aggregate is the reducer's fold over the events accepted for the first time. */
  lemma AggregateIsFold(node: NodeId, p: EnginePolicy, stream: seq<CommandEnvelope>)
    ensures var h := Run(node, p, stream);
            h.kernel.aggregate == EvolvedAll(NewAggregate(node), EventsIn(h.facts))
  {
    RunKeepsHistory(node, p, stream);
  }

  // ---- Repeats ----

  /** The command changes nothing and causes nothing. */
  predicate Absorbed(k: Kernel, e: CommandEnvelope) {
    Handled(k, e).0 == k && FactsOf(Handled(k, e).1) == []
  }

  lemma AbsorbedMeans(h: History, e: CommandEnvelope)
    requires Absorbed(h.kernel, e)
    ensures Fed(h, e) == h
  {
    assert h.facts + [] == h.facts;
  }

  /** Every outcome kept in the inbox is a first outcome. */
  ghost predicate InboxOk(k: Kernel) {
    forall key :: key in k.inbox ==> !k.inbox[key].outcome.replayed
  }

  lemma HandledIsAbsorbed(k: Kernel, e: CommandEnvelope)
    requires InboxOk(k)
    ensures Absorbed(Handled(k, e).0, e) && InboxOk(Handled(k, e).0)
  {
    hide Decide, EvolvedAll;
  }

  lemma AbsorbedStays(k: Kernel, e: CommandEnvelope, other: CommandEnvelope)
    requires Absorbed(k, e) && (e.key == "" || e.key in k.inbox)
    ensures Absorbed(Handled(k, other).0, e)
  {
    hide Decide, EvolvedAll;
  }

  lemma {:induction false} SeenIsAbsorbed(node: NodeId, p: EnginePolicy, stream: seq<CommandEnvelope>,
                                          e: CommandEnvelope)
    ensures InboxOk(Run(node, p, stream).kernel)
    ensures e in stream ==>
              var k := Run(node, p, stream).kernel;
              Absorbed(k, e) && (e.key == "" || e.key in k.inbox)
    decreases |stream|
  {
    if stream != [] {
      var init, last := stream[..|stream| - 1], stream[|stream| - 1];
      SeenIsAbsorbed(node, p, init, e);
      HandledIsAbsorbed(Run(node, p, init).kernel, last);
      if e in init {
        AbsorbedStays(Run(node, p, init).kernel, e, last);
      }
    }
  }

  /** The answer a repeat of `e` gets for ever after, given the answer `o` to its first occurrence. */
  function LaterAnswer(k: Kernel, e: CommandEnvelope): (r: Outcome) {
    var o := Handled(k, e).1;
    if e.key != "" && e.key !in k.inbox then ReplayReceipt(o)
    else o
  }

  ghost predicate Answers(k: Kernel, e: CommandEnvelope, o: Outcome) {
    (e.key == "" || e.key in k.inbox) && Handled(k, e).1 == o
  }

  lemma FirstAnswerFixed(k: Kernel, e: CommandEnvelope)
    ensures Answers(Handled(k, e).0, e, LaterAnswer(k, e))
  {
    hide Decide, EvolvedAll;
  }

  lemma AnswerStays(k: Kernel, e: CommandEnvelope, other: CommandEnvelope, o: Outcome)
    requires Answers(k, e, o)
    ensures Answers(Handled(k, other).0, e, o)
  {
    hide Decide, EvolvedAll;
  }

  /** After any stream in which `e` came at position `i`, handling `e` again is answered from that first
      time: a decided command gets its original receipt, marked as replayed and without effects; a command
      refused for an empty key or a key in other use gets the same refusal. */
  lemma {:induction false} RepeatGetsReceipt(node: NodeId, p: EnginePolicy, stream: seq<CommandEnvelope>, i: nat)
    requires i < |stream|
    ensures Answers(Run(node, p, stream).kernel, stream[i], LaterAnswer(Run(node, p, stream[..i]).kernel, stream[i]))
    decreases |stream|
  {
    hide LaterAnswer, Answers, Handled;
    var n := |stream| - 1;
    var init, last := stream[..n], stream[n];
    if i == n {
      FirstAnswerFixed(Run(node, p, init).kernel, last);
    } else {
      RepeatGetsReceipt(node, p, init, i);
      assert init[..i] == stream[..i];
      AnswerStays(Run(node, p, init).kernel, stream[i], last, LaterAnswer(Run(node, p, stream[..i]).kernel, stream[i]));
    }
  }

  // ---- Expiry is never an answer ----

  predicate SaysExpired(o: Outcome) {
    o.Rejected? && o.reason.GrantExpired?
  }

  lemma DecideNeverExpires(p: EnginePolicy, s: Aggregate, key: IdempotencyKey, c: Command, generation: U64)
    requires ConsentOk(p, s)
    ensures Decide(s, p, key, c, generation).Err? ==> !Decide(s, p, key, c, generation).error.GrantExpired?
  {
    hide StopEvents, StopEffect, EffectIdOf;
  }

  ghost predicate InboxUnexpired(k: Kernel) {
    forall key :: key in k.inbox ==> !SaysExpired(k.inbox[key].outcome)
  }

  lemma {:induction false} RunKeepsUnexpired(node: NodeId, p: EnginePolicy, stream: seq<CommandEnvelope>)
    ensures InboxUnexpired(Run(node, p, stream).kernel)
  {
    if stream != [] {
      var init, last := stream[..|stream| - 1], stream[|stream| - 1];
      RunKeepsUnexpired(node, p, init);
      RunKeepsHistory(node, p, init);
      HandleUnexpired(p, Run(node, p, init).kernel, last);
    }
  }

  lemma HandleUnexpired(p: EnginePolicy, k: Kernel, e: CommandEnvelope)
    requires k.policy == p && ConsentOk(p, k.aggregate) && InboxUnexpired(k)
    ensures InboxUnexpired(Handled(k, e).0) && !SaysExpired(Handled(k, e).1)
  {
    DecideNeverExpires(p, k.aggregate, e.key, e.command, e.generation);
    hide Decide, EvolvedAll, ConsentOk;
  }

  /** No command in any stream is ever answered with an expired grant: observing the expiry ends consent
      first, and from then on the answer is that consent has ended. */
  lemma NeverAnswersExpired(node: NodeId, p: EnginePolicy, stream: seq<CommandEnvelope>, e: CommandEnvelope)
    ensures !SaysExpired(Handled(Run(node, p, stream).kernel, e).1)
  {
    RunKeepsUnexpired(node, p, stream);
    RunKeepsHistory(node, p, stream);
    HandleUnexpired(p, Run(node, p, stream).kernel, e);
  }

  /** Putting a copy of an already handled command anywhere later in a stream changes neither the aggregate
      nor the inbox nor the facts. */
  lemma {:induction false} RepeatsAreHarmless(node: NodeId, p: EnginePolicy, a: seq<CommandEnvelope>,
                                              e: CommandEnvelope, b: seq<CommandEnvelope>)
    requires e in a
    ensures Run(node, p, a + [e] + b) == Run(node, p, a + b)
    decreases |b|
  {
    hide Fed, Absorbed;
    if b == [] {
      SeenIsAbsorbed(node, p, a, e);
      AbsorbedMeans(Run(node, p, a), e);
      assert a + [e] + b == a + [e] && a + b == a;
      assert (a + [e])[..|a|] == a;
    } else {
      var init, last := b[..|b| - 1], b[|b| - 1];
      RepeatsAreHarmless(node, p, a, e, init);
      var long, short := a + [e] + b, a + b;
      assert long[..|long| - 1] == a + [e] + init && short[..|short| - 1] == a + init;
    }
  }

  /** The stream with every repeat of an earlier command left out. */
  function WithoutRepeats(stream: seq<CommandEnvelope>): (r: seq<CommandEnvelope>) {
    if stream == [] then []
    else
      var rest := WithoutRepeats(stream[..|stream| - 1]);
      if stream[|stream| - 1] in stream[..|stream| - 1] then rest else rest + [stream[|stream| - 1]]
  }

  /** Any stream does exactly what it does with all repeats removed. */
  lemma {:induction false} OnlyFirstTimesCount(node: NodeId, p: EnginePolicy, stream: seq<CommandEnvelope>)
    ensures Run(node, p, stream) == Run(node, p, WithoutRepeats(stream))
    decreases |stream|
  {
    if stream != [] {
      var init, last := stream[..|stream| - 1], stream[|stream| - 1];
      hide Fed, Absorbed;
      OnlyFirstTimesCount(node, p, init);
      var rest := WithoutRepeats(init);
      if last in init {
        SeenIsAbsorbed(node, p, init, last);
        AbsorbedMeans(Run(node, p, init), last);
      } else {
        assert (rest + [last])[..|rest|] == rest;
      }
    }
  }

  // ---- The whole job can be done ----

  /** The inputs of one job. */
  datatype Job = Job(
    grant: ResourceGrant,
    lease: ResourceLease,
    assignment: Assignment,
    attemptId: AttemptId,
    result: SubmittedResult,
    capability: VerifierCapability,
    settlement: SettlementId,
    credits: U64,
    reference: string)

  /** The job as a well-behaved contributor, requester and verifier would choose it in state `s`. */
  ghost predicate GoodJob(p: EnginePolicy, s: Aggregate, j: Job) {
    var (g, l, a, r, c) := (j.grant, j.lease, j.assignment, j.result, j.capability);
    && CheckGrant(p, g).None? && s.observedAt <= g.issuedAt && p.maximumOutstandingAssignments > 0
    && l.id != "" && l.grantId == g.id && l.generation == ExpectedGeneration(s, GrantConsent(g))
    && CheckMode(p, l.mode).None? && CheckPositive(l.resources).None? && CheckWithin(l.resources, g.caps).None?
    && a.leaseId == l.id && a.generation == l.generation && a.id != "" && a.requester != "" && a.workloadDigest != ""
    && CheckMode(p, a.mode).None? && CheckPositive(a.resources).None? && CheckWithin(a.resources, l.resources).None?
    && j.attemptId != "" && r.producer == g.principal && r.digest != "" && CheckPositive(r.usage).None?
    && CheckWithin(r.usage, a.resources).None?
    && c.id != "" && c.subject != "" && c.subject != g.principal && c.nodeId == s.nodeId && c.attemptId == j.attemptId
    && c.notBefore <= g.issuedAt < c.expiresAt
    && j.settlement != "" && j.credits > 0 && j.reference != ""
  }

  predicate AllowsGrant(s: Aggregate) {
    !s.consent.Active? && !HasOutstandingAssignment(s) && !s.settlement.Prepared?
  }

  const STAGES: nat := 8

  function CommandAt(j: Job, i: nat): (r: Command)
    requires i < STAGES
  {
    if i == 0 then GrantConsent(j.grant)
    else if i == 1 then OpenLease(j.lease)
    else if i == 2 then OfferAssignment(j.assignment)
    else if i == 3 then StartAttempt(j.attemptId, j.assignment.id)
    else if i == 4 then SubmitResult(j.attemptId, j.result)
    else if i == 5 then VerifyResult(j.attemptId, j.capability.subject, j.capability, Accept)
    else if i == 6 then PrepareSettlement(j.settlement, j.attemptId, j.credits)
    else RecordSettlementReceipt(SettlementReceipt(j.settlement, j.credits, j.reference))
  }

  function AttemptOf(j: Job): (r: Attempt) {
    Attempt(j.attemptId, j.assignment.id, j.grant.principal, j.lease.generation, j.assignment.resources,
            j.assignment.workloadDigest)
  }

  function PlanOf(j: Job): (r: SettlementPlan) {
    SettlementPlan(j.settlement, j.attemptId, j.grant.principal, j.credits, j.result.digest)
  }

  /** The aggregate after the first `i` stages of a job begun in `s`. */
  function Stage(s: Aggregate, j: Job, i: nat): (r: Aggregate)
    requires i <= STAGES
  {
    var record := VerificationRecord(j.attemptId, j.capability.subject, j.capability.id, j.result.digest,
                                     j.grant.issuedAt);
    if i == 0 then s
    else
      Aggregate(s.nodeId, j.lease.generation, j.grant.issuedAt, Active(j.grant.id), Some(j.grant),
                if i == 1 then Closed else Open(j.lease),
                if i <= 2 then NoAttempt
                else if i == 3 then Offered(j.assignment)
                else if i == 4 then Running(AttemptOf(j))
                else if i == 5 then Submitted(AttemptOf(j), j.result)
                else Verified(AttemptOf(j), j.result, record),
                if i <= 6 then NoSettlement
                else if i == 7 then Prepared(PlanOf(j))
                else Posted(PlanOf(j), SettlementReceipt(j.settlement, j.credits, j.reference)))
  }

  lemma EarlyStage(p: EnginePolicy, s: Aggregate, j: Job, i: nat, key: IdempotencyKey)
    requires GoodJob(p, s, j) && AllowsGrant(s) && i < 4
    ensures var d := Decide(Stage(s, j, i), p, key, CommandAt(j, i), j.lease.generation);
            d.Ok? && |d.value.events| == 1 && Evolved(Stage(s, j, i), d.value.events[0]) == Stage(s, j, i + 1)
  {
  }

  lemma LateStage(p: EnginePolicy, s: Aggregate, j: Job, i: nat, key: IdempotencyKey)
    requires GoodJob(p, s, j) && 4 <= i < STAGES
    ensures var d := Decide(Stage(s, j, i), p, key, CommandAt(j, i), j.lease.generation);
            d.Ok? && |d.value.events| == 1 && Evolved(Stage(s, j, i), d.value.events[0]) == Stage(s, j, i + 1)
  {
  }

  function Envelopes(j: Job, keys: seq<IdempotencyKey>, i: nat): (r: seq<CommandEnvelope>)
    requires i <= |keys| == STAGES
  {
    seq(i, t requires 0 <= t < i => CommandEnvelope(keys[t], j.lease.generation, CommandAt(j, t)))
  }

  /** A first-time command that is decided with one event moves the kernel by that event. */
  lemma FirstTimeStep(k: Kernel, e: CommandEnvelope)
    requires e.key != "" && e.key !in k.inbox && e.generation == ExpectedGeneration(k.aggregate, e.command)
    requires var d := Decide(k.aggregate, k.policy, e.key, e.command, e.generation); d.Ok? && |d.value.events| == 1
    ensures var d := Decide(k.aggregate, k.policy, e.key, e.command, e.generation).value;
            var (k', o) := Handled(k, e);
            && o == Accepted(d.events, d.effects, false)
            && k'.policy == k.policy && k'.aggregate == Evolved(k.aggregate, d.events[0])
            && k'.inbox.Keys == k.inbox.Keys + {e.key}
  {
    hide Decide, Evolved, EvolvedAll;
    var d := Decide(k.aggregate, k.policy, e.key, e.command, e.generation).value;
    assert d.events == [d.events[0]];
    EvolvedOne(k.aggregate, d.events[0]);
  }

  /** Eight keys that no command has used. */
  ghost predicate UnusedKeys(k: Kernel, keys: seq<IdempotencyKey>) {
    && |keys| == STAGES
    && (forall i :: 0 <= i < |keys| ==> keys[i] != "" && keys[i] !in k.inbox)
    && (forall i, t :: 0 <= i < t < |keys| ==> keys[i] != keys[t])
  }

  lemma RunSnoc(node: NodeId, p: EnginePolicy, stream: seq<CommandEnvelope>, e: CommandEnvelope)
    ensures Run(node, p, stream + [e]).kernel == Handled(Run(node, p, stream).kernel, e).0
  {
    hide Handled;
    assert (stream + [e])[..|stream|] == stream;
  }

  /** After the job's first `i` commands, starting in `k`, the kernel stands at stage `i` and the other keys are
      still unused. */
  ghost predicate Reached(k: Kernel, k': Kernel, j: Job, keys: seq<IdempotencyKey>, i: nat)
    requires i <= STAGES == |keys|
  {
    && k'.policy == k.policy && k'.aggregate == Stage(k.aggregate, j, i)
    && (forall t :: i <= t < STAGES ==> keys[t] !in k'.inbox)
  }

  lemma ReachedNext(k: Kernel, k': Kernel, j: Job, keys: seq<IdempotencyKey>, i: nat)
    requires UnusedKeys(k, keys) && GoodJob(k.policy, k.aggregate, j) && AllowsGrant(k.aggregate) && i < STAGES
    requires Reached(k, k', j, keys, i)
    ensures var (k'', o) := Handled(k', Envelopes(j, keys, STAGES)[i]);
            o.Accepted? && !o.replayed && Reached(k, k'', j, keys, i + 1)
  {
    hide GoodJob, AllowsGrant, Stage, Handled, CommandAt;
    JobStep(k', k.policy, k.aggregate, j, i, Envelopes(j, keys, STAGES)[i]);
  }

  lemma {:induction false} JobReaches(node: NodeId, p: EnginePolicy, stream: seq<CommandEnvelope>, j: Job,
                                      keys: seq<IdempotencyKey>, i: nat)
    requires var k := Run(node, p, stream).kernel;
             k.policy == p && UnusedKeys(k, keys) && GoodJob(p, k.aggregate, j) && AllowsGrant(k.aggregate)
    requires i <= STAGES
    ensures Reached(Run(node, p, stream).kernel, Run(node, p, stream + Envelopes(j, keys, i)).kernel, j, keys, i)
  {
    hide GoodJob, AllowsGrant, Handled, CommandAt, Run;
    var k := Run(node, p, stream).kernel;
    if i == 0 {
      assert stream + Envelopes(j, keys, 0) == stream;
    } else {
      JobReaches(node, p, stream, j, keys, i - 1);
      var before, e := stream + Envelopes(j, keys, i - 1), Envelopes(j, keys, STAGES)[i - 1];
      assert stream + Envelopes(j, keys, i) == before + [e];
      ReachedNext(k, Run(node, p, before).kernel, j, keys, i - 1);
      RunSnoc(node, p, before, e);
    }
  }

  lemma JobStep(k: Kernel, p: EnginePolicy, s: Aggregate, j: Job, i: nat, e: CommandEnvelope)
    requires GoodJob(p, s, j) && AllowsGrant(s) && i < STAGES && k.policy == p && k.aggregate == Stage(s, j, i)
    requires e.key != "" && e.key !in k.inbox && e.generation == j.lease.generation && e.command == CommandAt(j, i)
    ensures var (k', o) := Handled(k, e);
            && o.Accepted? && !o.replayed
            && k'.policy == p && k'.aggregate == Stage(s, j, i + 1) && k'.inbox.Keys == k.inbox.Keys + {e.key}
  {
    assert e.generation == ExpectedGeneration(k.aggregate, e.command);
    hide Decide, Evolved, Stage, Handled;
    if i < 4 {
      EarlyStage(p, s, j, i, e.key);
    } else {
      LateStage(p, s, j, i, e.key);
    }
    FirstTimeStep(k, e);
  }

  /** From any reachable state that allows a new grant, every well-formed job goes through all eight stages
      under eight unused keys: each command is accepted for the first time, and the job ends with its
      credit posted to the contributor for the verified result. */
  lemma JobCanComplete(node: NodeId, p: EnginePolicy, stream: seq<CommandEnvelope>, j: Job, keys: seq<IdempotencyKey>)
    requires var k := Run(node, p, stream).kernel;
             UnusedKeys(k, keys) && GoodJob(p, k.aggregate, j) && AllowsGrant(k.aggregate)
    ensures forall i :: 0 <= i < STAGES ==>
              var (_, o) := Handled(Run(node, p, stream + Envelopes(j, keys, i)).kernel, Envelopes(j, keys, STAGES)[i]);
              o.Accepted? && !o.replayed
    ensures var s := Run(node, p, stream + Envelopes(j, keys, STAGES)).kernel.aggregate;
            && s.settlement == Posted(PlanOf(j), SettlementReceipt(j.settlement, j.credits, j.reference))
            && s.settlement.plan.beneficiary == j.grant.principal && !HasOutstandingAssignment(s)
  {
    hide GoodJob, AllowsGrant, Handled, CommandAt, Run;
    RunKeepsHistory(node, p, stream);
    forall i | 0 <= i < STAGES
      ensures var (_, o) := Handled(Run(node, p, stream + Envelopes(j, keys, i)).kernel, Envelopes(j, keys, STAGES)[i]);
              o.Accepted? && !o.replayed
    {
      JobReaches(node, p, stream, j, keys, i);
      ReachedNext(Run(node, p, stream).kernel, Run(node, p, stream + Envelopes(j, keys, i)).kernel, j, keys, i);
    }
    JobReaches(node, p, stream, j, keys, STAGES);
  }

  function ExampleJob(node: NodeId): (j: Job) {
    var caps := ResourceCaps(1, 10, 64, 0, false);
    Job(ResourceGrant("grant", "contributor", 100, 1000, true, caps, BROWSER_ALPHA_V1.policyHash),
        ResourceLease("lease", "grant", 1, BrowserForeground, caps),
        Assignment("assignment", "lease", 1, "requester", "workload", BrowserForeground, caps),
        "attempt",
        SubmittedResult("contributor", "result", caps, 5),
        VerifierCapability("capability", "verifier", node, "attempt", 50, 500),
        "settlement", 3, "reference")
  }

  const KEYS: seq<IdempotencyKey> := ["a", "b", "c", "d", "e", "f", "g", "h"]

  /** The theorem is not empty: a new exchange under the browser policy can do this job. */
  lemma ExampleIsGood(node: NodeId)
    ensures var k := Run(node, BROWSER_ALPHA_V1, []).kernel;
            && k == Kernel(BROWSER_ALPHA_V1, NewAggregate(node), map[])
            && UnusedKeys(k, KEYS) && GoodJob(BROWSER_ALPHA_V1, k.aggregate, ExampleJob(node))
            && AllowsGrant(k.aggregate)
  {
    assert forall i, t :: 0 <= i < t < |KEYS| ==> KEYS[i][0] != KEYS[t][0];
  }

  lemma FirstJobCompletes(node: NodeId) returns (stream: seq<CommandEnvelope>)
    ensures |stream| == STAGES && Run(node, BROWSER_ALPHA_V1, stream).kernel.aggregate.settlement.Posted?
  {
    ExampleIsGood(node);
    stream := Envelopes(ExampleJob(node), KEYS, STAGES);
    assert [] + stream == stream;
    hide GoodJob, AllowsGrant, UnusedKeys, Run, Handled, ExampleJob;
    JobCanComplete(node, BROWSER_ALPHA_V1, [], ExampleJob(node), KEYS);
  }
}
