/** What every fact of the compute exchange rests on: each event on a command and on earlier events, each effect on
    the event it carries out. Nothing here looks at how decisions are made. */
module ExchangeEffects {
  import opened Basics
  import opened Exchange
  import opened ExchangeRuns
  import opened ExchangeDecisions

  // ---- Reading the facts ----

  function Generation(facts: seq<Fact>): (r: U64) {
    if facts == [] then 0
    else match facts[|facts| - 1]
      case Happened(ConsentGranted(_, _)) => Following(Generation(facts[..|facts| - 1]))
      case _ => Generation(facts[..|facts| - 1])
  }

  function Now(facts: seq<Fact>): (r: U64) {
    if facts == [] then 0
    else match facts[|facts| - 1]
      case Happened(ConsentGranted(_, g)) => g.issuedAt
      case Happened(TimeObserved(at)) => at
      case _ => Now(facts[..|facts| - 1])
  }

  /** The commands that came with this generation, and under which key. */
  predicate Commanded(stream: seq<CommandEnvelope>, c: Command, generation: U64, key: IdempotencyKey) {
    exists i :: 0 <= i < |stream| && stream[i] == CommandEnvelope(key, generation, c)
  }

  ghost predicate Ordered(stream: seq<CommandEnvelope>, c: Command, generation: U64) {
    exists key :: Commanded(stream, c, generation, key)
  }

  /** The grant of the present generation, not run out. */
  predicate Standing(past: seq<Fact>, g: ResourceGrant) {
    Happened(ConsentGranted(Generation(past), g)) in past && Now(past) < g.expiresAt
  }

  /** The consent end, if the past runs out in one and the stops that follow it. */
  function EndReason(past: seq<Fact>): (r: Option<StopReason>) {
    if past == [] then None
    else match past[|past| - 1]
      case Happened(ConsentRevoked(_, _, _)) => Some(ByRevocation)
      case Happened(ConsentExpired(_, _)) => Some(ByExpiry)
      case Happened(LeaseStopped(_, _)) => EndReason(past[..|past| - 1])
      case Happened(AttemptFailed(_, _, _)) => EndReason(past[..|past| - 1])
      case _ => None
  }

  /** The lease and the attempt that these stops name. */
  function StoppedLeaseIn(past: seq<Fact>): (r: Option<LeaseId>) {
    if past == [] then None
    else match past[|past| - 1]
      case Happened(LeaseStopped(id, _)) => Some(id)
      case Happened(AttemptFailed(_, _, _)) => StoppedLeaseIn(past[..|past| - 1])
      case _ => None
  }

  function StoppedAttemptIn(past: seq<Fact>): (r: Option<AttemptId>) {
    if past != [] && past[|past| - 1].Happened? && past[|past| - 1].event.AttemptFailed?
    then past[|past| - 1].event.failedAttempt else None
  }

  // ---- Warrants ----

  ghost predicate Opened(past: seq<Fact>, id: LeaseId) {
    exists l :: Happened(LeaseOpened(l)) in past && l.id == id && l.generation == Generation(past)
  }

  ghost predicate StartedFor(past: seq<Fact>, id: AttemptId, producer: PrincipalId) {
    exists t :: Happened(AttemptStarted(t)) in past && t.id == id && t.producer == producer
                && t.generation == Generation(past)
  }

  ghost predicate Started(past: seq<Fact>, id: AttemptId) {
    exists t :: Happened(AttemptStarted(t)) in past && t.id == id && t.generation == Generation(past)
  }

  /** What a consent event rests on. */
  ghost predicate ConsentWarranted(p: EnginePolicy, stream: seq<CommandEnvelope>, past: seq<Fact>, e: Event) {
    match e
    case ConsentGranted(generation, g) =>
      && generation == Following(Generation(past)) && Ordered(stream, GrantConsent(g), generation)
      && g.id != "" && g.principal != "" && g.policyHash == p.policyHash != ""
      && Now(past) <= g.issuedAt < g.expiresAt
      && (p.browserForegroundOnly ==> g.browserForegroundOnly)
      && Positive(g.caps) && Within(g.caps, p.maximum)
    case TimeObserved(at) => Ordered(stream, ObserveTime(at), Generation(past)) && Now(past) <= at
    case ConsentRevoked(id, at, why) =>
      && Ordered(stream, RevokeConsent(id, why), Generation(past)) && why != "" && at == Now(past)
      && exists g :: Standing(past, g) && g.id == id
    case ConsentExpired(id, at) =>
      && at == Now(past) && past != [] && past[|past| - 1] == Happened(TimeObserved(at))
      && exists g :: Happened(ConsentGranted(Generation(past), g)) in past && g.id == id && g.expiresAt <= at
    case _ => true
  }

  /** What an event about work rests on. */
  ghost predicate WorkWarranted(p: EnginePolicy, stream: seq<CommandEnvelope>, past: seq<Fact>, e: Event) {
    match e
    case LeaseOpened(l) =>
      && Ordered(stream, OpenLease(l), Generation(past)) && l.id != "" && l.generation == Generation(past)
      && Positive(l.resources) && Fitting(p, l.mode)
      && exists g :: Standing(past, g) && g.id == l.grantId && Within(l.resources, g.caps)
    case AssignmentOffered(a) =>
      && Ordered(stream, OfferAssignment(a), Generation(past)) && a.generation == Generation(past)
      && a.id != "" && a.requester != "" && a.workloadDigest != "" && Positive(a.resources) && Fitting(p, a.mode)
      && (exists g :: Standing(past, g))
      && exists l :: Happened(LeaseOpened(l)) in past && l.id == a.leaseId && Within(a.resources, l.resources)
    case AttemptStarted(t) =>
      && Ordered(stream, StartAttempt(t.id, t.assignmentId), Generation(past)) && t.id != ""
      && t.generation == Generation(past)
      && (exists g :: Standing(past, g) && g.principal == t.producer)
      && exists a :: Happened(AssignmentOffered(a)) in past && a.id == t.assignmentId && a.resources == t.resources
                     && a.workloadDigest == t.workloadDigest
    case ResultSubmitted(id, r) =>
      && Ordered(stream, SubmitResult(id, r), Generation(past)) && r.digest != "" && Positive(r.usage)
      && (exists g :: Standing(past, g) && g.principal == r.producer)
      && exists t :: Happened(AttemptStarted(t)) in past && t.id == id && t.producer == r.producer
                     && t.generation == Generation(past) && Within(r.usage, t.resources)
    case _ => true
  }

  /** What a verdict or a settlement rests on. */
  ghost predicate PayWarranted(node: NodeId, stream: seq<CommandEnvelope>, past: seq<Fact>, e: Event) {
    match e
    case ResultVerified(rec) =>
      && rec.verifiedAt == Now(past)
      && (exists c :: Ordered(stream, VerifyResult(rec.attemptId, rec.verifier, c, Accept), Generation(past))
                      && c.id == rec.capabilityId && Entitles(c, node, rec.attemptId, rec.verifier, Now(past)))
      && exists r :: Happened(ResultSubmitted(rec.attemptId, r)) in past && r.digest == rec.digest
                     && r.producer != rec.verifier
    case ResultRejected(id, code) =>
      && code != ""
      && exists verifier, c, r ::
           && Ordered(stream, VerifyResult(id, verifier, c, Reject(code)), Generation(past))
           && Entitles(c, node, id, verifier, Now(past))
           && Happened(ResultSubmitted(id, r)) in past && r.producer != verifier
    case SettlementPrepared(plan) =>
      && Ordered(stream, PrepareSettlement(plan.id, plan.attemptId, plan.serviceCredits), Generation(past))
      && plan.id != "" && plan.serviceCredits > 0
      && StartedFor(past, plan.attemptId, plan.beneficiary)
      && exists rec :: Happened(ResultVerified(rec)) in past && rec.attemptId == plan.attemptId
                       && rec.digest == plan.digest && rec.verifier != plan.beneficiary
    case SettlementReceiptRecorded(receipt) =>
      && Ordered(stream, RecordSettlementReceipt(receipt), Generation(past)) && receipt.externalReference != ""
      && exists plan :: Happened(SettlementPrepared(plan)) in past && plan.id == receipt.settlementId
                        && plan.serviceCredits == receipt.serviceCredits
    case _ => true
  }

  /** What a stop rests on: the end of consent just before it. */
  ghost predicate StopWarranted(past: seq<Fact>, e: Event) {
    match e
    case LeaseStopped(id, reason) => EndReason(past) == Some(reason) && Opened(past, id)
    case AttemptFailed(assignment, attempt, failure) =>
      && EndReason(past).Some? && failure == ConsentEnded(EndReason(past).value)
      && (match attempt
          case None => exists a :: Happened(AssignmentOffered(a)) in past && a.id == assignment
          case Some(id) =>
            exists t :: Happened(AttemptStarted(t)) in past && t.id == id && t.assignmentId == assignment
                        && t.generation == Generation(past))
    case _ => true
  }

  /** What an effect rests on: the event it carries out, just before it, with that event's own contents. */
  ghost predicate EffectWarranted(node: NodeId, stream: seq<CommandEnvelope>, past: seq<Fact>, e: Effect) {
    match e
    case StartSandbox(id, at, lease, t, mode) =>
      && at == node && past != [] && past[|past| - 1] == Happened(AttemptStarted(t)) && Opened(past, lease)
      && (exists a :: Happened(AssignmentOffered(a)) in past && a.id == t.assignmentId && a.leaseId == lease
                      && a.mode == mode)
      && exists key :: Commanded(stream, StartAttempt(t.id, t.assignmentId), Generation(past), key)
                       && id == key + ":" + "start-sandbox"
    case StopSandbox(id, at, lease, attempt, OnResult) =>
      && at == node && lease.Some? && Opened(past, lease.value) && attempt.Some?
      && exists r, key :: past != [] && past[|past| - 1] == Happened(ResultSubmitted(attempt.value, r))
                          && Commanded(stream, SubmitResult(attempt.value, r), Generation(past), key)
                          && id == key + ":" + "stop-sandbox-result-submitted"
    case StopSandbox(id, at, lease, attempt, OnConsentEnd(reason)) =>
      && at == node && EndReason(past) == Some(reason) && lease == StoppedLeaseIn(past)
      && (StoppedAttemptIn(past).Some? ==> attempt == StoppedAttemptIn(past))
      && (attempt.Some? ==> Started(past, attempt.value))
      && exists c, key :: Commanded(stream, c, Generation(past), key) && (c.RevokeConsent? || c.ObserveTime?)
                          && id == key + ":" + "stop-sandbox"
    case PostServiceCredit(id, plan) =>
      && past != [] && past[|past| - 1] == Happened(SettlementPrepared(plan))
      && exists key :: Commanded(stream, PrepareSettlement(plan.id, plan.attemptId, plan.serviceCredits),
                                 Generation(past), key)
                       && id == key + ":" + "post-service-credit"
  }

  ghost predicate Warranted(node: NodeId, p: EnginePolicy, stream: seq<CommandEnvelope>, past: seq<Fact>, f: Fact) {
    match f
    case Happened(e) =>
      && ConsentWarranted(p, stream, past, e) && WorkWarranted(p, stream, past, e)
      && PayWarranted(node, stream, past, e) && StopWarranted(past, e)
    case Emitted(e) => EffectWarranted(node, stream, past, e)
  }

  ghost predicate AllWarranted(node: NodeId, p: EnginePolicy, stream: seq<CommandEnvelope>, facts: seq<Fact>) {
    forall i :: 0 <= i < |facts| ==> Warranted(node, p, stream, facts[..i], facts[i])
  }

  // ---- The aggregate is rooted in the facts ----

  ghost predicate AttemptRooted(s: Aggregate, facts: seq<Fact>) {
    match s.attempt
    case Offered(a) => Happened(AssignmentOffered(a)) in facts
    case Running(t) => Happened(AttemptStarted(t)) in facts && t.generation == s.generation
    case Submitted(t, r) =>
      Happened(AttemptStarted(t)) in facts && t.generation == s.generation
      && Happened(ResultSubmitted(t.id, r)) in facts
    case Verified(t, r, v) =>
      && Happened(AttemptStarted(t)) in facts && t.generation == s.generation
      && Happened(ResultSubmitted(t.id, r)) in facts && Happened(ResultVerified(v)) in facts
    case Failed(assignment, attempt, VerificationRejected(code)) =>
      attempt.Some? && Happened(ResultRejected(attempt.value, code)) in facts
    case Failed(_, _, ConsentEnded(_)) =>
      Happened(AttemptFailed(s.attempt.assignmentId, s.attempt.attemptId, s.attempt.failure)) in facts
    case NoAttempt => true
  }

  /** Consent, lease and settlement stand as the facts say. */
  ghost predicate StandingRooted(s: Aggregate, facts: seq<Fact>) {
    && (match s.consent
        case Unseen => true
        case Active(id) => s.grant.Some? && s.grant.value.id == id
        case Revoked(id, at) => exists why :: Happened(ConsentRevoked(id, at, why)) in facts
        case Expired(id, at) => Happened(ConsentExpired(id, at)) in facts)
    && (match s.lease
        case Closed => true
        case Open(l) => Happened(LeaseOpened(l)) in facts
        case Stopped(id, reason) => Happened(LeaseStopped(id, reason)) in facts)
    && (match s.settlement
        case NoSettlement => true
        case Prepared(plan) => Happened(SettlementPrepared(plan)) in facts
        case Posted(plan, receipt) =>
          Happened(SettlementPrepared(plan)) in facts && Happened(SettlementReceiptRecorded(receipt)) in facts)
  }

  ghost predicate Rooted(node: NodeId, s: Aggregate, facts: seq<Fact>) {
    && s.nodeId == node && s.generation == Generation(facts) && s.observedAt == Now(facts)
    && (s.grant.Some? ==> Happened(ConsentGranted(s.generation, s.grant.value)) in facts)
    && AttemptRooted(s, facts) && StandingRooted(s, facts)
  }

  /** One more fact keeps what the earlier ones say. */
  lemma Snoc(facts: seq<Fact>, f: Fact)
    ensures (facts + [f])[..|facts|] == facts && (facts + [f])[|facts + [f]| - 1] == f
    ensures forall x :: x in facts + [f] <==> x in facts || x == f
  {
  }

  /** An applied event roots the state it leads to. */
  lemma EvolvedRooted(node: NodeId, s: Aggregate, past: seq<Fact>, e: Event)
    requires Rooted(node, s, past)
    requires e.ConsentGranted? ==> e.generation == Following(s.generation)
    requires e.AttemptStarted? ==> e.attempt.generation == s.generation
    requires e.ResultSubmitted? && s.attempt.Running? ==> e.attemptId == s.attempt.attempt.id
    requires e.ResultRejected? && s.attempt.Submitted? ==> e.attemptId == s.attempt.attempt.id
    requires e.AttemptFailed? ==> e.failure.ConsentEnded?
    ensures Rooted(node, Evolved(s, e), past + [Happened(e)])
  {
    Snoc(past, Happened(e));
    EvolvedStanding(s, past, e);
    hide StandingRooted;
  }

  lemma EvolvedStanding(s: Aggregate, past: seq<Fact>, e: Event)
    requires StandingRooted(s, past)
    ensures StandingRooted(Evolved(s, e), past + [Happened(e)])
  {
    Snoc(past, Happened(e));
    StandingStays(s, past, past + [Happened(e)]);
    match e
    case ConsentRevoked(id, at, why) => assert Happened(ConsentRevoked(id, at, why)) in past + [Happened(e)];
    case _ =>
  }

  lemma StandingStays(s: Aggregate, past: seq<Fact>, facts: seq<Fact>)
    requires StandingRooted(s, past) && forall f :: f in past ==> f in facts
    ensures StandingRooted(s, facts)
  {
    if s.consent.Revoked? {
      var why :| Happened(ConsentRevoked(s.consent.grantId, s.consent.at, why)) in past;
      assert Happened(ConsentRevoked(s.consent.grantId, s.consent.at, why)) in facts;
    }
  }

  lemma EffectRooted(node: NodeId, s: Aggregate, past: seq<Fact>, e: Effect)
    requires Rooted(node, s, past)
    ensures Rooted(node, s, past + [Emitted(e)])
  {
    Snoc(past, Emitted(e));
    StandingStays(s, past, past + [Emitted(e)]);
  }

  // ---- Decisions are warranted ----

  /** The command that is being decided on this aggregate is accepted and lies in the stream. */
  ghost predicate Deciding(node: NodeId, p: EnginePolicy, stream: seq<CommandEnvelope>, past: seq<Fact>, s: Aggregate,
                           e: CommandEnvelope) {
    && Rooted(node, s, past) && AggregateOk(p, s)
    && Commanded(stream, e.command, e.generation, e.key) && e.generation == ExpectedGeneration(s, e.command)
    && Decide(s, p, e.key, e.command, e.generation).Ok?
  }

  function Decided(s: Aggregate, p: EnginePolicy, e: CommandEnvelope): (d: Decision)
    requires Decide(s, p, e.key, e.command, e.generation).Ok?
  {
    Decide(s, p, e.key, e.command, e.generation).value
  }

  lemma GrantWarranted(node: NodeId, p: EnginePolicy, stream: seq<CommandEnvelope>, past: seq<Fact>, s: Aggregate,
                       e: CommandEnvelope)
    requires Deciding(node, p, stream, past, s, e) && !EndsConsent(s, e.command)
    requires e.command.GrantConsent? || e.command.ObserveTime?
    ensures |Decided(s, p, e).events| == 1 && Decided(s, p, e).effects == []
    ensures Warranted(node, p, stream, past, Happened(Decided(s, p, e).events[0]))
    ensures Rooted(node, Evolved(s, Decided(s, p, e).events[0]), past + [Happened(Decided(s, p, e).events[0])])
  {
    AcceptsExactly(s, p, e.key, e.command, e.generation);
    GrantEvent(s, p, e);
    RootedMeans(node, s, past);
    hide Decide, Decided, Rooted, Generation, Now, AggregateOk, Commanded, Evolved, Positive, Within, EffectWarranted,
            AttemptRooted, StandingRooted, Busy;
    EvolvedRooted(node, s, past, Decided(s, p, e).events[0]);
    assert Ordered(stream, e.command, e.generation);
  }

  /** A grant and a passing moment are single events. */
  lemma GrantEvent(s: Aggregate, p: EnginePolicy, e: CommandEnvelope)
    requires Decide(s, p, e.key, e.command, e.generation).Ok? && !EndsConsent(s, e.command)
    requires e.command.GrantConsent? || e.command.ObserveTime?
    ensures Decided(s, p, e)
         == Decision([if e.command.GrantConsent? then ConsentGranted(e.generation, e.command.grant)
                      else TimeObserved(e.command.observedAt)], [])
  {
    hide CheckGrant;
  }

  lemma RootedMeans(node: NodeId, s: Aggregate, past: seq<Fact>)
    requires Rooted(node, s, past)
    ensures s.nodeId == node && s.generation == Generation(past) && s.observedAt == Now(past)
    ensures s.grant.Some? ==> Happened(ConsentGranted(Generation(past), s.grant.value)) in past
    ensures s.lease.Open? ==> Happened(LeaseOpened(s.lease.lease)) in past
    ensures AttemptRooted(s, past)
    ensures s.settlement.Prepared? || s.settlement.Posted? ==> Happened(SettlementPrepared(s.settlement.plan)) in past
  {
  }

  /** While consent is active its grant stands. */
  lemma GrantStands(node: NodeId, p: EnginePolicy, s: Aggregate, past: seq<Fact>)
    requires Rooted(node, s, past) && ConsentOk(p, s)
    ensures s.consent.Active? ==> s.grant.Some? && Standing(past, s.grant.value)
  {
  }

  lemma LeaseWarranted(node: NodeId, p: EnginePolicy, stream: seq<CommandEnvelope>, past: seq<Fact>, s: Aggregate,
                       e: CommandEnvelope)
    requires Deciding(node, p, stream, past, s, e)
    requires e.command.OpenLease? || e.command.OfferAssignment?
    ensures |Decided(s, p, e).events| == 1 && Decided(s, p, e).effects == []
    ensures Warranted(node, p, stream, past, Happened(Decided(s, p, e).events[0]))
    ensures Rooted(node, Evolved(s, Decided(s, p, e).events[0]), past + [Happened(Decided(s, p, e).events[0])])
  {
    EvolvedRooted(node, s, past, Decided(s, p, e).events[0]);
    RootedMeans(node, s, past);
    GrantStands(node, p, s, past);
    hide Rooted, CheckPositive, CheckWithin, Generation, Now, AttemptOk, SettlementOk, Commanded, Evolved,
            Positive, Within, Standing, AttemptRooted, EffectWarranted;
    if e.command.OpenLease? {
      CapsMean(e.command.lease.resources, s.grant.value.caps);
    } else {
      CapsMean(e.command.assignment.resources, s.lease.lease.resources);
    }
    assert Ordered(stream, e.command, e.generation);
  }

  lemma StartWarranted(node: NodeId, p: EnginePolicy, stream: seq<CommandEnvelope>, past: seq<Fact>, s: Aggregate,
                       e: CommandEnvelope)
    requires Deciding(node, p, stream, past, s, e) && e.command.StartAttempt?
    ensures |Decided(s, p, e).events| == 1 && |Decided(s, p, e).effects| == 1
    ensures var first := past + [Happened(Decided(s, p, e).events[0])];
            && Warranted(node, p, stream, past, Happened(Decided(s, p, e).events[0]))
            && Warranted(node, p, stream, first, Emitted(Decided(s, p, e).effects[0]))
            && Rooted(node, Evolved(s, Decided(s, p, e).events[0]), first + [Emitted(Decided(s, p, e).effects[0])])
  {
    var ev, ef := Decided(s, p, e).events[0], Decided(s, p, e).effects[0];
    var first := past + [Happened(ev)];
    EvolvedRooted(node, s, past, ev);
    EffectRooted(node, Evolved(s, ev), first, ef);
    RootedMeans(node, s, past);
    GrantStands(node, p, s, past);
    Snoc(past, Happened(ev));
    assert Generation(first) == Generation(past);
    hide Rooted, Generation, Now, SettlementOk, Commanded, Evolved, Within, Standing;
    assert Ordered(stream, e.command, e.generation);
    assert Opened(first, s.lease.lease.id);
  }

  lemma SubmitWarranted(node: NodeId, p: EnginePolicy, stream: seq<CommandEnvelope>, past: seq<Fact>, s: Aggregate,
                        e: CommandEnvelope)
    requires Deciding(node, p, stream, past, s, e) && e.command.SubmitResult?
    ensures |Decided(s, p, e).events| == 1 && |Decided(s, p, e).effects| == 1
    ensures var first := past + [Happened(Decided(s, p, e).events[0])];
            && Warranted(node, p, stream, past, Happened(Decided(s, p, e).events[0]))
            && Warranted(node, p, stream, first, Emitted(Decided(s, p, e).effects[0]))
            && Rooted(node, Evolved(s, Decided(s, p, e).events[0]), first + [Emitted(Decided(s, p, e).effects[0])])
  {
    var ev, ef := Decided(s, p, e).events[0], Decided(s, p, e).effects[0];
    var first := past + [Happened(ev)];
    EvolvedRooted(node, s, past, ev);
    EffectRooted(node, Evolved(s, ev), first, ef);
    RootedMeans(node, s, past);
    GrantStands(node, p, s, past);
    Snoc(past, Happened(ev));
    CapsMean(e.command.result.usage, s.attempt.attempt.resources);
    assert Generation(first) == Generation(past);
    SubmitStops(node, stream, first, s, e);
    hide Rooted, Generation, Now, SettlementOk, Commanded, Evolved, Within, Standing, Positive, CheckPositive,
            CheckWithin, EffectWarranted;
    assert Ordered(stream, e.command, e.generation);
  }

  /** The stop of a sandbox whose result has just been submitted. */
  lemma SubmitStops(node: NodeId, stream: seq<CommandEnvelope>, first: seq<Fact>, s: Aggregate, e: CommandEnvelope)
    requires e.command.SubmitResult? && s.lease.Open? && s.nodeId == node && s.generation == Generation(first)
    requires s.lease.lease.generation == s.generation && Happened(LeaseOpened(s.lease.lease)) in first
    requires first != [] && first[|first| - 1] == Happened(ResultSubmitted(e.command.attemptId, e.command.result))
    requires Commanded(stream, e.command, Generation(first), e.key)
    ensures EffectWarranted(node, stream, first,
                            StopSandbox(EffectIdOf(e.key, "stop-sandbox-result-submitted"), s.nodeId,
                                        Some(s.lease.lease.id), Some(e.command.attemptId), OnResult))
  {
    hide Generation, Commanded;
    assert Opened(first, s.lease.lease.id);
    assert Commanded(stream, SubmitResult(e.command.attemptId, e.command.result), Generation(first), e.key);
  }

  lemma VerdictWarranted(node: NodeId, p: EnginePolicy, stream: seq<CommandEnvelope>, past: seq<Fact>, s: Aggregate,
                         e: CommandEnvelope)
    requires Deciding(node, p, stream, past, s, e) && e.command.VerifyResult?
    ensures |Decided(s, p, e).events| == 1 && Decided(s, p, e).effects == []
    ensures Warranted(node, p, stream, past, Happened(Decided(s, p, e).events[0]))
    ensures Rooted(node, Evolved(s, Decided(s, p, e).events[0]), past + [Happened(Decided(s, p, e).events[0])])
  {
    EvolvedRooted(node, s, past, Decided(s, p, e).events[0]);
    RootedMeans(node, s, past);
    hide Rooted, Generation, Now, LeaseOk, ConsentOk, SettlementOk, Commanded, Evolved, Within, EffectWarranted;
    assert Ordered(stream, e.command, e.generation);
  }

  lemma PrepareWarranted(node: NodeId, p: EnginePolicy, stream: seq<CommandEnvelope>, past: seq<Fact>, s: Aggregate,
                         e: CommandEnvelope)
    requires Deciding(node, p, stream, past, s, e) && e.command.PrepareSettlement?
    ensures |Decided(s, p, e).events| == 1 && |Decided(s, p, e).effects| == 1
    ensures var first := past + [Happened(Decided(s, p, e).events[0])];
            && Warranted(node, p, stream, past, Happened(Decided(s, p, e).events[0]))
            && Warranted(node, p, stream, first, Emitted(Decided(s, p, e).effects[0]))
            && Rooted(node, Evolved(s, Decided(s, p, e).events[0]), first + [Emitted(Decided(s, p, e).effects[0])])
  {
    var ev, ef := Decided(s, p, e).events[0], Decided(s, p, e).effects[0];
    var first := past + [Happened(ev)];
    EvolvedRooted(node, s, past, ev);
    EffectRooted(node, Evolved(s, ev), first, ef);
    RootedMeans(node, s, past);
    Snoc(past, Happened(ev));
    assert Generation(first) == Generation(past);
    hide Rooted, Generation, Now, LeaseOk, ConsentOk, SettlementOk, Commanded, Evolved, Within;
    assert Ordered(stream, e.command, e.generation);
    assert StartedFor(past, s.attempt.attempt.id, s.attempt.attempt.producer);
  }

  lemma ReceiptWarranted(node: NodeId, p: EnginePolicy, stream: seq<CommandEnvelope>, past: seq<Fact>, s: Aggregate,
                         e: CommandEnvelope)
    requires Deciding(node, p, stream, past, s, e) && e.command.RecordSettlementReceipt?
    ensures |Decided(s, p, e).events| == 1 && Decided(s, p, e).effects == []
    ensures Warranted(node, p, stream, past, Happened(Decided(s, p, e).events[0]))
    ensures Rooted(node, Evolved(s, Decided(s, p, e).events[0]), past + [Happened(Decided(s, p, e).events[0])])
  {
    EvolvedRooted(node, s, past, Decided(s, p, e).events[0]);
    RootedMeans(node, s, past);
    hide Rooted, Generation, Now, LeaseOk, ConsentOk, AttemptOk, SettlementOk, Commanded, Evolved, AttemptRooted,
            EffectWarranted;
    assert Ordered(stream, e.command, e.generation);
  }

  // ---- Histories ----

  ghost predicate Sound(node: NodeId, p: EnginePolicy, stream: seq<CommandEnvelope>, s: Aggregate, facts: seq<Fact>) {
    AllWarranted(node, p, stream, facts) && Rooted(node, s, facts)
  }

  lemma SoundSnoc(node: NodeId, p: EnginePolicy, stream: seq<CommandEnvelope>, s: Aggregate, s': Aggregate,
                  past: seq<Fact>, f: Fact)
    requires Sound(node, p, stream, s, past) && Warranted(node, p, stream, past, f) && Rooted(node, s', past + [f])
    ensures Sound(node, p, stream, s', past + [f])
  {
    var facts := past + [f];
    forall i | 0 <= i < |facts|
      ensures Warranted(node, p, stream, facts[..i], facts[i])
    {
      if i < |past| {
        assert facts[..i] == past[..i] && facts[i] == past[i];
      } else {
        assert facts[..i] == past;
      }
    }
  }

  /** A decision of one event and at most one effect. */
  lemma SingleSound(node: NodeId, p: EnginePolicy, stream: seq<CommandEnvelope>, past: seq<Fact>, s: Aggregate,
                    e: CommandEnvelope)
    requires Deciding(node, p, stream, past, s, e) && !EndsConsent(s, e.command)
    requires Sound(node, p, stream, s, past)
    ensures |Decided(s, p, e).events| == 1 && |Decided(s, p, e).effects| <= 1
    ensures Sound(node, p, stream, Evolved(s, Decided(s, p, e).events[0]),
                  past + (Events(Decided(s, p, e).events) + Effects(Decided(s, p, e).effects)))
  {
    SingleWarranted(node, p, stream, past, s, e);
    hide Deciding, Decided, Evolved, Rooted, AllWarranted, Warranted, Sound, Events, Effects;
    var d := Decided(s, p, e);
    var first := past + [Happened(d.events[0])];
    FactsOfSingle(past, d);
    SoundSnoc(node, p, stream, s, Evolved(s, d.events[0]), past, Happened(d.events[0]));
    if d.effects != [] {
      SoundSnoc(node, p, stream, Evolved(s, d.events[0]), Evolved(s, d.events[0]), first, Emitted(d.effects[0]));
    }
  }

  lemma FactsOfSingle(past: seq<Fact>, d: Decision)
    requires |d.events| == 1 && |d.effects| <= 1
    ensures d.effects == [] ==> past + (Events(d.events) + Effects(d.effects)) == past + [Happened(d.events[0])]
    ensures d.effects != [] ==>
              past + (Events(d.events) + Effects(d.effects))
              == past + [Happened(d.events[0])] + [Emitted(d.effects[0])]
  {
    assert Events(d.events) == [Happened(d.events[0])];
  }

  lemma SingleWarranted(node: NodeId, p: EnginePolicy, stream: seq<CommandEnvelope>, past: seq<Fact>, s: Aggregate,
                        e: CommandEnvelope)
    requires Deciding(node, p, stream, past, s, e) && !EndsConsent(s, e.command)
    ensures |Decided(s, p, e).events| == 1 && |Decided(s, p, e).effects| <= 1
    ensures var d := Decided(s, p, e);
            var first := past + [Happened(d.events[0])];
            && Warranted(node, p, stream, past, Happened(d.events[0]))
            && Rooted(node, Evolved(s, d.events[0]), first)
            && (d.effects != [] ==>
                  && Warranted(node, p, stream, first, Emitted(d.effects[0]))
                  && Rooted(node, Evolved(s, d.events[0]), first + [Emitted(d.effects[0])]))
  {
    SingleIsRooted(node, p, stream, past, s, e);
    hide Deciding, Decided, Evolved, Rooted, Warranted;
    match e.command
    case GrantConsent(_) => GrantWarranted(node, p, stream, past, s, e);
    case ObserveTime(_) => GrantWarranted(node, p, stream, past, s, e);
    case OpenLease(_) => LeaseWarranted(node, p, stream, past, s, e);
    case OfferAssignment(_) => LeaseWarranted(node, p, stream, past, s, e);
    case StartAttempt(_, _) => StartWarranted(node, p, stream, past, s, e);
    case SubmitResult(_, _) => SubmitWarranted(node, p, stream, past, s, e);
    case VerifyResult(_, _, _, _) => VerdictWarranted(node, p, stream, past, s, e);
    case PrepareSettlement(_, _, _) => PrepareWarranted(node, p, stream, past, s, e);
    case RecordSettlementReceipt(_) => ReceiptWarranted(node, p, stream, past, s, e);
    case RevokeConsent(_, _) =>
  }

  lemma SingleIsRooted(node: NodeId, p: EnginePolicy, stream: seq<CommandEnvelope>, past: seq<Fact>, s: Aggregate,
                       e: CommandEnvelope)
    requires Deciding(node, p, stream, past, s, e) && !EndsConsent(s, e.command)
    ensures |Decided(s, p, e).events| == 1
    ensures Rooted(node, Evolved(s, Decided(s, p, e).events[0]), past + [Happened(Decided(s, p, e).events[0])])
  {
    assert |Decided(s, p, e).events| == 1;
    EvolvedRooted(node, s, past, Decided(s, p, e).events[0]);
    hide Rooted, Evolved, AggregateOk, CheckGrant, CheckPositive, CheckWithin, CheckMode, OrElse;
  }

  // ---- The end of consent ----

  /** The aggregate at the end of consent, before the stops: everything else still stands. */
  ghost predicate JustEnded(node: NodeId, s: Aggregate, past: seq<Fact>, reason: StopReason) {
    && Rooted(node, s, past) && EndReason(past) == Some(reason)
    && StoppedLeaseIn(past).None? && StoppedAttemptIn(past).None?
    && (s.lease.Open? ==> s.lease.lease.generation == s.generation)
  }

  lemma EndingEvent(past: seq<Fact>, e: Event)
    ensures e.ConsentRevoked? ==> EndReason(past + [Happened(e)]) == Some(ByRevocation)
    ensures e.ConsentExpired? ==> EndReason(past + [Happened(e)]) == Some(ByExpiry)
    ensures e.ConsentRevoked? || e.ConsentExpired? ==>
              StoppedLeaseIn(past + [Happened(e)]).None? && StoppedAttemptIn(past + [Happened(e)]).None?
    ensures e.LeaseStopped? ==>
              && EndReason(past + [Happened(e)]) == EndReason(past)
              && StoppedLeaseIn(past + [Happened(e)]) == Some(e.leaseId)
              && StoppedAttemptIn(past + [Happened(e)]).None?
    ensures e.AttemptFailed? ==>
              && EndReason(past + [Happened(e)]) == EndReason(past)
              && StoppedLeaseIn(past + [Happened(e)]) == StoppedLeaseIn(past)
              && StoppedAttemptIn(past + [Happened(e)]) == e.failedAttempt
  {
    Snoc(past, Happened(e));
  }

  /** The stop of an open lease. */
  lemma LeaseStopSound(node: NodeId, p: EnginePolicy, stream: seq<CommandEnvelope>, s: Aggregate, past: seq<Fact>,
                       reason: StopReason)
    requires Sound(node, p, stream, s, past) && JustEnded(node, s, past, reason)
    ensures var facts := past + Events(LeaseStops(s, reason));
            && Sound(node, p, stream, s.(lease := StoppedLease(s, reason)), facts)
            && EndReason(facts) == Some(reason) && StoppedAttemptIn(facts).None?
            && StoppedLeaseIn(facts) == (if s.lease.Open? then Some(s.lease.lease.id) else None)
  {
    hide Rooted, AllWarranted, Sound, EndReason, StoppedLeaseIn, StoppedAttemptIn, StopWarranted, Evolved, Generation,
            Now;
    if s.lease.Open? {
      var e := LeaseStopped(s.lease.lease.id, reason);
      EndingEvent(past, e);
      OpenLeaseStops(node, s, past, reason);
      assert Events(LeaseStops(s, reason)) == [Happened(e)];
      StopEventSound(node, p, stream, s, past, e);
    } else {
      assert past + Events(LeaseStops(s, reason)) == past;
      assert s.(lease := StoppedLease(s, reason)) == s;
    }
  }

  lemma OpenLeaseStops(node: NodeId, s: Aggregate, past: seq<Fact>, reason: StopReason)
    requires JustEnded(node, s, past, reason) && s.lease.Open?
    ensures StopWarranted(past, LeaseStopped(s.lease.lease.id, reason))
    ensures Evolved(s, LeaseStopped(s.lease.lease.id, reason)) == s.(lease := StoppedLease(s, reason))
  {
    RootedMeans(node, s, past);
    hide Rooted, Generation, EndReason;
    assert Opened(past, s.lease.lease.id);
  }

  /** A stop is a sound next fact. */
  lemma StopEventSound(node: NodeId, p: EnginePolicy, stream: seq<CommandEnvelope>, s: Aggregate, past: seq<Fact>,
                       e: Event)
    requires Sound(node, p, stream, s, past) && (e.AttemptFailed? || e.LeaseStopped?) && StopWarranted(past, e)
    ensures Sound(node, p, stream, Evolved(s, e), past + [Happened(e)])
  {
    EvolvedRooted(node, s, past, e);
    hide Rooted, AllWarranted, StopWarranted, Evolved, EffectWarranted;
    SoundSnoc(node, p, stream, s, Evolved(s, e), past, Happened(e));
  }

  lemma OfferedStops(node: NodeId, s: Aggregate, past: seq<Fact>, reason: StopReason)
    requires Rooted(node, s, past) && EndReason(past) == Some(reason)
    ensures s.attempt.Offered? ==>
              StopWarranted(past, AttemptFailed(s.attempt.assignment.id, None, ConsentEnded(reason)))
    ensures s.attempt.Running? ==>
              StopWarranted(past, AttemptFailed(s.attempt.attempt.assignmentId, Some(s.attempt.attempt.id),
                                                ConsentEnded(reason)))
  {
    RootedMeans(node, s, past);
    hide Rooted, Generation, EndReason;
  }

  /** The stops of offered or running work. */
  lemma AttemptStopSound(node: NodeId, p: EnginePolicy, stream: seq<CommandEnvelope>, s: Aggregate, past: seq<Fact>,
                         reason: StopReason)
    requires Sound(node, p, stream, s, past) && EndReason(past) == Some(reason) && StoppedAttemptIn(past).None?
    ensures var facts := past + Events(AttemptStops(s, reason));
            && Sound(node, p, stream, s.(attempt := StoppedAttempt(s, reason)), facts)
            && EndReason(facts) == Some(reason) && StoppedLeaseIn(facts) == StoppedLeaseIn(past)
            && StoppedAttemptIn(facts) == (if s.attempt.Running? then Some(s.attempt.attempt.id) else None)
  {
    hide Rooted, AllWarranted, Sound, EndReason, StoppedLeaseIn, StoppedAttemptIn, StopWarranted, Evolved, Generation,
            Now;
    OfferedStops(node, s, past, reason) by {
      SoundGeneration(node, p, stream, s, past);
    }
    if s.attempt.Offered? || s.attempt.Running? {
      var e := if s.attempt.Offered? then AttemptFailed(s.attempt.assignment.id, None, ConsentEnded(reason))
               else AttemptFailed(s.attempt.attempt.assignmentId, Some(s.attempt.attempt.id), ConsentEnded(reason));
      StopEventSound(node, p, stream, s, past, e);
      EndingEvent(past, e);
      OneStop(s, reason, e);
    } else {
      NoStop(s, reason);
      assert past + [] == past;
    }
  }

  lemma OneStop(s: Aggregate, reason: StopReason, e: Event)
    requires s.attempt.Offered? || s.attempt.Running?
    requires e == if s.attempt.Offered? then AttemptFailed(s.attempt.assignment.id, None, ConsentEnded(reason))
                  else AttemptFailed(s.attempt.attempt.assignmentId, Some(s.attempt.attempt.id), ConsentEnded(reason))
    ensures Events(AttemptStops(s, reason)) == [Happened(e)]
    ensures Evolved(s, e) == s.(attempt := StoppedAttempt(s, reason))
  {
  }

  lemma NoStop(s: Aggregate, reason: StopReason)
    requires !s.attempt.Offered? && !s.attempt.Running?
    ensures Events(AttemptStops(s, reason)) == [] && s.(attempt := StoppedAttempt(s, reason)) == s
  {
  }

  /** An attempt that was active before the stops has been started. */
  lemma ActiveStarted(node: NodeId, s: Aggregate, past: seq<Fact>, more: seq<Fact>)
    requires Rooted(node, s, past) && Generation(past + more) == Generation(past)
    ensures ActiveAttemptId(s).Some? ==> Started(past + more, ActiveAttemptId(s).value)
  {
    RootedMeans(node, s, past);
    hide Rooted, Generation;
    assert forall f :: f in past ==> f in past + more;
  }

  /** All stops, and the effect that carries them out. */
  lemma StopsSound(node: NodeId, p: EnginePolicy, stream: seq<CommandEnvelope>, s: Aggregate, past: seq<Fact>,
                   reason: StopReason, e: CommandEnvelope)
    requires Sound(node, p, stream, s, past) && JustEnded(node, s, past, reason)
    requires (e.command.RevokeConsent? || e.command.ObserveTime?) && e.generation == s.generation
    requires Commanded(stream, e.command, e.generation, e.key)
    ensures var facts := past + Events(StopEvents(s, reason)) + [Emitted(StopEffect(s, e.key, reason))];
            Sound(node, p, stream, AfterStop(s, s.consent, reason), facts)
  {
    hide AllWarranted, EndReason, StoppedLeaseIn, StoppedAttemptIn, Commanded, LeaseStops, AttemptStops, StopEvents,
            Sound, Rooted, AfterStop, StoppedLease, StoppedAttempt, Generation, StopEffect, Events;
    LeaseStopSound(node, p, stream, s, past, reason);
    var s1, mid := s.(lease := StoppedLease(s, reason)), past + Events(LeaseStops(s, reason));
    AttemptStopSound(node, p, stream, s1, mid, reason);
    var s2, facts := s1.(attempt := StoppedAttempt(s1, reason)), mid + Events(AttemptStops(s1, reason));
    StopsAre(s, reason, past);
    SoundGeneration(node, p, stream, s, past);
    SoundGeneration(node, p, stream, s2, facts);
    ActiveStarted(node, s, past, Events(StopEvents(s, reason)));
    StopCarriedOut(node, stream, facts, s, reason, e);
    SoundEffect(node, p, stream, s2, facts, StopEffect(s, e.key, reason));
  }

  lemma StopsAre(s: Aggregate, reason: StopReason, past: seq<Fact>)
    ensures var s1 := s.(lease := StoppedLease(s, reason));
            && s1.(attempt := StoppedAttempt(s1, reason)) == AfterStop(s, s.consent, reason)
            && past + Events(LeaseStops(s, reason)) + Events(AttemptStops(s1, reason))
               == past + Events(StopEvents(s, reason))
  {
    var s1 := s.(lease := StoppedLease(s, reason));
    assert AttemptStops(s1, reason) == AttemptStops(s, reason);
    hide LeaseStops, AttemptStops;
    assert Events(LeaseStops(s, reason)) + Events(AttemptStops(s, reason)) == Events(StopEvents(s, reason));
  }

  lemma SoundGeneration(node: NodeId, p: EnginePolicy, stream: seq<CommandEnvelope>, s: Aggregate, facts: seq<Fact>)
    requires Sound(node, p, stream, s, facts)
    ensures Rooted(node, s, facts) && s.generation == Generation(facts) && s.nodeId == node
  {
  }

  lemma SoundEffect(node: NodeId, p: EnginePolicy, stream: seq<CommandEnvelope>, s: Aggregate, past: seq<Fact>,
                    effect: Effect)
    requires Sound(node, p, stream, s, past) && EffectWarranted(node, stream, past, effect)
    ensures Sound(node, p, stream, s, past + [Emitted(effect)])
  {
    EffectRooted(node, s, past, effect);
    hide Rooted, AllWarranted, EffectWarranted;
    SoundSnoc(node, p, stream, s, s, past, Emitted(effect));
  }

  /** The stop effect at the end of consent names what the stops before it name. */
  lemma StopCarriedOut(node: NodeId, stream: seq<CommandEnvelope>, facts: seq<Fact>, s: Aggregate, reason: StopReason,
                       e: CommandEnvelope)
    requires s.nodeId == node && s.generation == Generation(facts) == e.generation && EndReason(facts) == Some(reason)
    requires StoppedLeaseIn(facts) == (if s.lease.Open? then Some(s.lease.lease.id) else None)
    requires StoppedAttemptIn(facts) == (if s.attempt.Running? then Some(s.attempt.attempt.id) else None)
    requires ActiveAttemptId(s).Some? ==> Started(facts, ActiveAttemptId(s).value)
    requires (e.command.RevokeConsent? || e.command.ObserveTime?) && Commanded(stream, e.command, e.generation, e.key)
    ensures EffectWarranted(node, stream, facts, StopEffect(s, e.key, reason))
  {
    hide EndReason, StoppedLeaseIn, StoppedAttemptIn, Generation, Commanded, Started;
  }

  /** A command that ends consent. */
  lemma EndingSound(node: NodeId, p: EnginePolicy, stream: seq<CommandEnvelope>, past: seq<Fact>, s: Aggregate,
                    e: CommandEnvelope)
    requires Deciding(node, p, stream, past, s, e) && EndsConsent(s, e.command) && Sound(node, p, stream, s, past)
    ensures Sound(node, p, stream, EndOf(s, e.command),
                  past + (Events(Decided(s, p, e).events) + Effects(Decided(s, p, e).effects)))
  {
    if e.command.RevokeConsent? {
      RevocationSound(node, p, stream, past, s, e);
    } else {
      ExpirySound(node, p, stream, past, s, e);
    }
  }

  lemma RevocationSound(node: NodeId, p: EnginePolicy, stream: seq<CommandEnvelope>, past: seq<Fact>, s: Aggregate,
                        e: CommandEnvelope)
    requires Deciding(node, p, stream, past, s, e) && e.command.RevokeConsent? && Sound(node, p, stream, s, past)
    ensures Sound(node, p, stream, EndOf(s, e.command),
                  past + (Events(Decided(s, p, e).events) + Effects(Decided(s, p, e).effects)))
  {
    hide Rooted, AllWarranted, Warranted, Sound, EndReason, StoppedLeaseIn, StoppedAttemptIn, Generation, Now,
            AggregateOk, Decide, Commanded, StopEvents, StopEffect, Events, Effects, AfterStop, Decided;
    var ended := ConsentRevoked(e.command.grantId, s.observedAt, e.command.reason);
    var t, first := Evolved(s, ended), past + [Happened(ended)];
    RevokeWarranted(node, p, stream, past, s, e);
    EvolvedRooted(node, s, past, ended);
    EndingEvent(past, ended);
    DecisionIs(s, p, e, [ended], ByRevocation);
    LeaseOfGeneration(p, s);
    SoundSnoc(node, p, stream, s, t, past, Happened(ended));
    StopsSound(node, p, stream, t, first, ByRevocation, e);
    FactsOfEnd(past, [ended], StopEvents(s, ByRevocation), StopEffect(s, e.key, ByRevocation));
    FewEvents(ended, ended);
    assert past + Events([ended]) == first;
    SameStops(s, t, e.key, ByRevocation);
    SameEnd(s, e.command, t);
  }

  lemma FewEvents(a: Event, b: Event)
    ensures Events([a]) == [Happened(a)] && Events([a, b]) == [Happened(a), Happened(b)]
  {
  }

  lemma FactsOfEnd(past: seq<Fact>, first: seq<Event>, stops: seq<Event>, effect: Effect)
    ensures past + (Events(first + stops) + Effects([effect]))
         == past + Events(first) + Events(stops) + [Emitted(effect)]
  {
    assert Effects([effect]) == [Emitted(effect)];
    assert Events(first + stops) == Events(first) + Events(stops);
  }

  lemma SameEnd(s: Aggregate, c: Command, t: Aggregate)
    requires EndsConsent(s, c)
    requires t == if c.RevokeConsent? then s.(consent := Revoked(c.grantId, s.observedAt))
                  else s.(observedAt := c.observedAt, consent := Expired(s.consent.grantId, c.observedAt))
    ensures AfterStop(t, t.consent, if c.RevokeConsent? then ByRevocation else ByExpiry) == EndOf(s, c)
  {
  }

  lemma ExpirySound(node: NodeId, p: EnginePolicy, stream: seq<CommandEnvelope>, past: seq<Fact>, s: Aggregate,
                    e: CommandEnvelope)
    requires Deciding(node, p, stream, past, s, e) && e.command.ObserveTime? && EndsConsent(s, e.command)
    requires Sound(node, p, stream, s, past)
    ensures Sound(node, p, stream, EndOf(s, e.command),
                  past + (Events(Decided(s, p, e).events) + Effects(Decided(s, p, e).effects)))
  {
    hide Rooted, AllWarranted, Warranted, Sound, EndReason, StoppedLeaseIn, StoppedAttemptIn, Generation, Now,
            AggregateOk, Decide, Commanded, StopEvents, StopEffect, Events, Effects, AfterStop, Decided;
    var at := e.command.observedAt;
    var seen, ended := TimeObserved(at), ConsentExpired(s.consent.grantId, at);
    var first := past + [Happened(seen)];
    var second := first + [Happened(ended)];
    var t := Evolved(s, seen);
    var u := Evolved(t, ended);
    ExpireWarranted(node, p, stream, past, s, e);
    EvolvedRooted(node, s, past, seen);
    EvolvedRooted(node, t, first, ended);
    EndingEvent(first, ended);
    DecisionIs(s, p, e, [seen, ended], ByExpiry);
    LeaseOfGeneration(p, s);
    SoundSnoc(node, p, stream, s, t, past, Happened(seen));
    SoundSnoc(node, p, stream, t, u, first, Happened(ended));
    StopsSound(node, p, stream, u, second, ByExpiry, e);
    FactsOfEnd(past, [seen, ended], StopEvents(s, ByExpiry), StopEffect(s, e.key, ByExpiry));
    FewEvents(seen, ended);
    assert past + Events([seen, ended]) == second;
    SameStops(s, u, e.key, ByExpiry);
    SameEnd(s, e.command, u);
  }

  lemma LeaseOfGeneration(p: EnginePolicy, s: Aggregate)
    requires AggregateOk(p, s)
    ensures s.lease.Open? ==> s.lease.lease.generation == s.generation
  {
  }

  lemma SameStops(s: Aggregate, t: Aggregate, key: IdempotencyKey, reason: StopReason)
    requires t.lease == s.lease && t.attempt == s.attempt && t.nodeId == s.nodeId
    ensures StopEvents(t, reason) == StopEvents(s, reason) && StopEffect(t, key, reason) == StopEffect(s, key, reason)
  {
  }

  lemma DecisionIs(s: Aggregate, p: EnginePolicy, e: CommandEnvelope, first: seq<Event>, reason: StopReason)
    requires Decide(s, p, e.key, e.command, e.generation).Ok? && EndsConsent(s, e.command)
    requires first == if e.command.RevokeConsent?
                      then [ConsentRevoked(e.command.grantId, s.observedAt, e.command.reason)]
                      else [TimeObserved(e.command.observedAt), ConsentExpired(s.consent.grantId, e.command.observedAt)]
    requires reason == if e.command.RevokeConsent? then ByRevocation else ByExpiry
    ensures Decided(s, p, e) == Decision(first + StopEvents(s, reason), [StopEffect(s, e.key, reason)])
  {
    hide StopEvents, StopEffect;
  }

  lemma RevokeWarranted(node: NodeId, p: EnginePolicy, stream: seq<CommandEnvelope>, past: seq<Fact>, s: Aggregate,
                        e: CommandEnvelope)
    requires Deciding(node, p, stream, past, s, e) && e.command.RevokeConsent?
    ensures Warranted(node, p, stream, past,
                      Happened(ConsentRevoked(e.command.grantId, s.observedAt, e.command.reason)))
  {
    RootedMeans(node, s, past);
    GrantStands(node, p, s, past);
    hide Rooted, Generation, Now, LeaseOk, AttemptOk, SettlementOk, Commanded, Standing, EffectWarranted, StopEvents,
            StopEffect;
    assert Ordered(stream, RevokeConsent(e.command.grantId, e.command.reason), e.generation);
  }

  lemma ExpireWarranted(node: NodeId, p: EnginePolicy, stream: seq<CommandEnvelope>, past: seq<Fact>, s: Aggregate,
                        e: CommandEnvelope)
    requires Deciding(node, p, stream, past, s, e) && e.command.ObserveTime? && EndsConsent(s, e.command)
    ensures var at := e.command.observedAt;
            && Warranted(node, p, stream, past, Happened(TimeObserved(at)))
            && Warranted(node, p, stream, past + [Happened(TimeObserved(at))],
                         Happened(ConsentExpired(s.consent.grantId, at)))
  {
    var f := Happened(TimeObserved(e.command.observedAt));
    RootedMeans(node, s, past);
    Snoc(past, f);
    assert Generation(past + [f]) == Generation(past) && Now(past + [f]) == e.command.observedAt;
    hide Rooted, Generation, Now, LeaseOk, AttemptOk, SettlementOk, Commanded, EffectWarranted, StopEvents, StopEffect,
            Standing;
    assert Ordered(stream, ObserveTime(e.command.observedAt), e.generation);
    assert Happened(ConsentGranted(Generation(past + [f]), s.grant.value)) in past + [f];
  }

  // ---- Runs ----

  /** A longer stream warrants whatever a shorter one does. */
  lemma LongerStream(node: NodeId, p: EnginePolicy, stream: seq<CommandEnvelope>, e: CommandEnvelope, past: seq<Fact>,
                     f: Fact)
    requires Warranted(node, p, stream, past, f)
    ensures Warranted(node, p, stream + [e], past, f)
  {
    StillCommanded(stream, e);
    hide Commanded, Generation, Now, EndReason, StoppedLeaseIn, StoppedAttemptIn, Standing, Opened, Started, StartedFor,
            Positive, Within, Entitles;
    if f.Happened? {
      StillOrdered(stream, e);
      LongerForEvent(node, p, stream, e, past, f.event);
    } else {
      LongerForEffect(node, stream, e, past, f.effect);
    }
  }

  lemma StillCommanded(stream: seq<CommandEnvelope>, e: CommandEnvelope)
    ensures forall c, g, key :: Commanded(stream, c, g, key) ==> Commanded(stream + [e], c, g, key)
  {
    forall c, g, key | Commanded(stream, c, g, key)
      ensures Commanded(stream + [e], c, g, key)
    {
      var i :| 0 <= i < |stream| && stream[i] == CommandEnvelope(key, g, c);
      assert (stream + [e])[i] == stream[i];
    }
  }

  lemma StillOrdered(stream: seq<CommandEnvelope>, e: CommandEnvelope)
    ensures forall c, g :: Ordered(stream, c, g) ==> Ordered(stream + [e], c, g)
  {
    StillCommanded(stream, e);
    hide Commanded;
  }

  lemma LongerForEvent(node: NodeId, p: EnginePolicy, stream: seq<CommandEnvelope>, e: CommandEnvelope,
                       past: seq<Fact>, ev: Event)
    requires forall c, g :: Ordered(stream, c, g) ==> Ordered(stream + [e], c, g)
    requires Warranted(node, p, stream, past, Happened(ev))
    ensures Warranted(node, p, stream + [e], past, Happened(ev))
  {
    hide Ordered, Generation, Now, EndReason, StoppedLeaseIn, StoppedAttemptIn, Standing, Opened, Started, StartedFor,
            Positive, Within, Entitles, EffectWarranted, StopWarranted;
  }

  lemma LongerForEffect(node: NodeId, stream: seq<CommandEnvelope>, e: CommandEnvelope, past: seq<Fact>, ef: Effect)
    requires forall c, g, key :: Commanded(stream, c, g, key) ==> Commanded(stream + [e], c, g, key)
    requires EffectWarranted(node, stream, past, ef)
    ensures EffectWarranted(node, stream + [e], past, ef)
  {
    hide Commanded, Generation, EndReason, StoppedLeaseIn, StoppedAttemptIn, Opened, Started;
  }

  lemma SoundLonger(node: NodeId, p: EnginePolicy, stream: seq<CommandEnvelope>, e: CommandEnvelope, s: Aggregate,
                    facts: seq<Fact>)
    requires Sound(node, p, stream, s, facts)
    ensures Sound(node, p, stream + [e], s, facts)
  {
    hide Warranted, Rooted;
    forall i | 0 <= i < |facts|
      ensures Warranted(node, p, stream + [e], facts[..i], facts[i])
    {
      LongerStream(node, p, stream, e, facts[..i], facts[i]);
    }
  }

  lemma FedSound(node: NodeId, p: EnginePolicy, stream: seq<CommandEnvelope>, h: History, e: CommandEnvelope)
    requires Sound(node, p, stream, h.kernel.aggregate, h.facts) && HistoryOk(node, p, h)
    requires Commanded(stream, e.command, e.generation, e.key)
    ensures Sound(node, p, stream, Fed(h, e).kernel.aggregate, Fed(h, e).facts)
  {
    hide Sound, Rooted, AllWarranted, MeterOk, Decide, EvolvedAll, Commanded, AggregateOk;
    var s := h.kernel.aggregate;
    var (after, o) := Handled(h.kernel, e);
    if o.Accepted? && !o.replayed {
      AcceptedDecides(h.kernel, e);
      assert Rooted(node, s, h.facts) by {
        SoundGeneration(node, p, stream, s, h.facts);
      }
      DecisionEvolves(s, p, e.key, e.command, e.generation);
      if EndsConsent(s, e.command) {
        EndingSound(node, p, stream, h.facts, s, e);
      } else {
        SingleSound(node, p, stream, h.facts, s, e);
      }
    } else {
      assert after.aggregate == s by {
        QuietHandling(h.kernel, e);
      }
      assert h.facts + [] == h.facts;
    }
  }

  lemma AcceptedDecides(k: Kernel, e: CommandEnvelope)
    requires Handled(k, e).1.Accepted? && !Handled(k, e).1.replayed
    ensures Decide(k.aggregate, k.policy, e.key, e.command, e.generation).Ok?
    ensures e.generation == ExpectedGeneration(k.aggregate, e.command) && e.key !in k.inbox && e.key != ""
    ensures var d := Decide(k.aggregate, k.policy, e.key, e.command, e.generation).value;
            && Handled(k, e).1 == Accepted(d.events, d.effects, false)
            && Handled(k, e).0.aggregate == EvolvedAll(k.aggregate, d.events)
  {
    hide Decide, EvolvedAll;
  }

  lemma QuietHandling(k: Kernel, e: CommandEnvelope)
    requires !(Handled(k, e).1.Accepted? && !Handled(k, e).1.replayed)
    ensures Handled(k, e).0.aggregate == k.aggregate
  {
    hide Decide, EvolvedAll;
  }

  /** Every fact of every run is warranted: each event by a command of the stream, given in the generation in force,
      and by earlier events; each effect by the event just before it, whose contents it carries. */
  lemma {:induction false} EverythingIsWarranted(node: NodeId, p: EnginePolicy, stream: seq<CommandEnvelope>)
    ensures Sound(node, p, stream, Run(node, p, stream).kernel.aggregate, Run(node, p, stream).facts)
    decreases |stream|
  {
    hide Sound, HistoryOk, Handled, Commanded;
    if stream == [] {
      NothingIsSound(node, p, stream);
    } else {
      var init, last := stream[..|stream| - 1], stream[|stream| - 1];
      EverythingIsWarranted(node, p, init);
      RunKeepsHistory(node, p, init);
      assert init + [last] == stream;
      LastIsCommanded(init, last);
      var h := Run(node, p, init);
      SoundLonger(node, p, init, last, h.kernel.aggregate, h.facts);
      FedSound(node, p, stream, h, last);
    }
  }

  lemma NothingIsSound(node: NodeId, p: EnginePolicy, stream: seq<CommandEnvelope>)
    ensures Sound(node, p, stream, NewAggregate(node), [])
  {
  }

  lemma LastIsCommanded(init: seq<CommandEnvelope>, last: CommandEnvelope)
    ensures Commanded(init + [last], last.command, last.generation, last.key)
  {
    assert (init + [last])[|init|] == last;
  }

  // ---- Credits ----

  /** Whom and what a credit effect pays, read off the facts before it and the commands: the producer of an attempt
      started under the grant in force, for a digest that a different party verified for that attempt, in the amount
      commanded; and the plan is that of the settlement event just before. */
  lemma CreditsPayTheProducer(node: NodeId, p: EnginePolicy, stream: seq<CommandEnvelope>, i: nat)
    requires i < |Run(node, p, stream).facts|
    requires Run(node, p, stream).facts[i].Emitted? && Run(node, p, stream).facts[i].effect.PostServiceCredit?
    ensures var facts := Run(node, p, stream).facts;
            var plan := facts[i].effect.settlement;
            && i > 0 && facts[i - 1] == Happened(SettlementPrepared(plan))
            && (exists t :: Happened(AttemptStarted(t)) in facts[..i] && t.id == plan.attemptId
                            && t.producer == plan.beneficiary && t.generation == Generation(facts[..i - 1]))
            && (exists rec :: Happened(ResultVerified(rec)) in facts[..i] && rec.attemptId == plan.attemptId
                              && rec.digest == plan.digest && rec.verifier != plan.beneficiary)
            && (exists k :: 0 <= k < |stream| && facts[i].effect.effectId == stream[k].key + ":" + "post-service-credit"
                  && stream[k].command == PrepareSettlement(plan.id, plan.attemptId, plan.serviceCredits))
  {
    EverythingIsWarranted(node, p, stream);
    var facts := Run(node, p, stream).facts;
    CreditWarrants(node, p, stream, facts, i);
    hide Run, Rooted, AllWarranted;
  }

  lemma CreditWarrants(node: NodeId, p: EnginePolicy, stream: seq<CommandEnvelope>, facts: seq<Fact>, i: nat)
    requires AllWarranted(node, p, stream, facts) && i < |facts|
    requires facts[i].Emitted? && facts[i].effect.PostServiceCredit?
    ensures var plan := facts[i].effect.settlement;
            && i > 0 && facts[i - 1] == Happened(SettlementPrepared(plan))
            && (exists t :: Happened(AttemptStarted(t)) in facts[..i] && t.id == plan.attemptId
                            && t.producer == plan.beneficiary && t.generation == Generation(facts[..i - 1]))
            && (exists rec :: Happened(ResultVerified(rec)) in facts[..i] && rec.attemptId == plan.attemptId
                              && rec.digest == plan.digest && rec.verifier != plan.beneficiary)
            && (exists k :: 0 <= k < |stream| && facts[i].effect.effectId == stream[k].key + ":" + "post-service-credit"
                  && stream[k].command == PrepareSettlement(plan.id, plan.attemptId, plan.serviceCredits))
  {
    var plan := facts[i].effect.settlement;
    assert Warranted(node, p, stream, facts[..i], facts[i]);
    CreditFollows(node, stream, facts[..i], facts[i].effect);
    assert facts[..i][i - 1] == facts[i - 1];
    assert Warranted(node, p, stream, facts[..i - 1], facts[i - 1]);
    CreditCommand(stream, facts[..i], facts[i].effect, node);
    PlanRests(node, stream, facts[..i - 1], plan);
    assert forall f :: f in facts[..i - 1] ==> f in facts[..i];
    hide AllWarranted, EffectWarranted, PayWarranted, WorkWarranted, ConsentWarranted, StopWarranted, Generation;
  }

  lemma CreditFollows(node: NodeId, stream: seq<CommandEnvelope>, past: seq<Fact>, e: Effect)
    requires EffectWarranted(node, stream, past, e) && e.PostServiceCredit?
    ensures past != [] && past[|past| - 1] == Happened(SettlementPrepared(e.settlement))
  {
    hide Generation, Commanded;
  }

  lemma PlanRests(node: NodeId, stream: seq<CommandEnvelope>, past: seq<Fact>, plan: SettlementPlan)
    requires PayWarranted(node, stream, past, SettlementPrepared(plan))
    ensures exists t :: Happened(AttemptStarted(t)) in past && t.id == plan.attemptId
                        && t.producer == plan.beneficiary && t.generation == Generation(past)
    ensures exists rec :: Happened(ResultVerified(rec)) in past && rec.attemptId == plan.attemptId
                          && rec.digest == plan.digest && rec.verifier != plan.beneficiary
  {
    hide Generation, Ordered;
  }

  lemma CreditCommand(stream: seq<CommandEnvelope>, past: seq<Fact>, e: Effect, node: NodeId)
    requires EffectWarranted(node, stream, past, e) && e.PostServiceCredit?
    ensures exists k :: 0 <= k < |stream| && e.effectId == stream[k].key + ":" + "post-service-credit"
              && stream[k].command
                 == PrepareSettlement(e.settlement.id, e.settlement.attemptId, e.settlement.serviceCredits)
  {
    hide Generation;
    var c := PrepareSettlement(e.settlement.id, e.settlement.attemptId, e.settlement.serviceCredits);
    var key :| Commanded(stream, c, Generation(past), key) && e.effectId == key + ":" + "post-service-credit";
  }

  // ---- No effect is left out ----

  /** The effect that carries the event out comes right after it; a consent end is carried out after its stops. */
  ghost predicate CarriedOut(facts: seq<Fact>, i: nat)
    requires i < |facts|
  {
    match facts[i]
    case Happened(AttemptStarted(t)) =>
      i + 1 < |facts| && facts[i + 1].Emitted? && facts[i + 1].effect.StartSandbox? && facts[i + 1].effect.attempt == t
    case Happened(ResultSubmitted(id, _)) =>
      i + 1 < |facts| && facts[i + 1].Emitted? && facts[i + 1].effect.StopSandbox?
      && facts[i + 1].effect.attemptId == Some(id)
    case Happened(SettlementPrepared(plan)) =>
      i + 1 < |facts| && facts[i + 1].Emitted? && facts[i + 1].effect.PostServiceCredit?
      && facts[i + 1].effect.settlement == plan
    case Happened(ConsentRevoked(_, _, _)) => StoppedAfter(facts, i, ByRevocation)
    case Happened(ConsentExpired(_, _)) => StoppedAfter(facts, i, ByExpiry)
    case _ => true
  }

  ghost predicate StoppedAfter(facts: seq<Fact>, i: nat, reason: StopReason) {
    exists k :: i < k < |facts| && facts[k].Emitted? && facts[k].effect.StopSandbox?
                && facts[k].effect.reason == OnConsentEnd(reason)
                && forall j :: i < j < k ==>
                     facts[j].Happened? && (facts[j].event.LeaseStopped? || facts[j].event.AttemptFailed?)
  }

  ghost predicate AllCarriedOut(facts: seq<Fact>) {
    forall i :: 0 <= i < |facts| ==> CarriedOut(facts, i)
  }

  lemma CarriedOutStays(a: seq<Fact>, b: seq<Fact>)
    requires AllCarriedOut(a) && AllCarriedOut(b)
    ensures AllCarriedOut(a + b)
  {
    var all := a + b;
    forall i | 0 <= i < |all|
      ensures CarriedOut(all, i)
    {
      if i < |a| {
        assert CarriedOut(a, i);
        StoppedStays(a, b, i);
      } else {
        assert CarriedOut(b, i - |a|);
        StoppedShifts(a, b, i - |a|);
      }
    }
  }

  lemma StoppedStays(a: seq<Fact>, b: seq<Fact>, i: nat)
    requires i < |a|
    ensures forall reason :: StoppedAfter(a, i, reason) ==> StoppedAfter(a + b, i, reason)
  {
    forall reason | StoppedAfter(a, i, reason)
      ensures StoppedAfter(a + b, i, reason)
    {
      var k :| i < k < |a| && a[k].Emitted? && a[k].effect.StopSandbox? && a[k].effect.reason == OnConsentEnd(reason)
               && forall j :: i < j < k ==>
                    a[j].Happened? && (a[j].event.LeaseStopped? || a[j].event.AttemptFailed?);
      assert (a + b)[k] == a[k];
    }
  }

  lemma StoppedShifts(a: seq<Fact>, b: seq<Fact>, i: nat)
    requires i < |b|
    ensures forall reason :: StoppedAfter(b, i, reason) ==> StoppedAfter(a + b, |a| + i, reason)
  {
    forall reason | StoppedAfter(b, i, reason)
      ensures StoppedAfter(a + b, |a| + i, reason)
    {
      var k :| i < k < |b| && b[k].Emitted? && b[k].effect.StopSandbox? && b[k].effect.reason == OnConsentEnd(reason)
               && forall j :: i < j < k ==>
                    b[j].Happened? && (b[j].event.LeaseStopped? || b[j].event.AttemptFailed?);
      assert (a + b)[|a| + k] == b[k];
      forall j | |a| + i < j < |a| + k
        ensures (a + b)[j].Happened? && ((a + b)[j].event.LeaseStopped? || (a + b)[j].event.AttemptFailed?)
      {
        assert (a + b)[j] == b[j - |a|];
      }
    }
  }

  lemma DecisionCarriedOut(s: Aggregate, p: EnginePolicy, e: CommandEnvelope)
    requires Decide(s, p, e.key, e.command, e.generation).Ok?
    ensures AllCarriedOut(Events(Decided(s, p, e).events) + Effects(Decided(s, p, e).effects))
  {
    var facts := Events(Decided(s, p, e).events) + Effects(Decided(s, p, e).effects);
    if EndsConsent(s, e.command) {
      EndCarriedOut(s, p, e);
    } else {
      assert |Decided(s, p, e).events| == 1 && |Decided(s, p, e).effects| <= 1;
      assert CarriedOut(facts, 0);
    }
  }

  lemma EndCarriedOut(s: Aggregate, p: EnginePolicy, e: CommandEnvelope)
    requires Decide(s, p, e.key, e.command, e.generation).Ok? && EndsConsent(s, e.command)
    ensures AllCarriedOut(Events(Decided(s, p, e).events) + Effects(Decided(s, p, e).effects))
  {
    var reason := if e.command.RevokeConsent? then ByRevocation else ByExpiry;
    var first := if e.command.RevokeConsent? then [ConsentRevoked(e.command.grantId, s.observedAt, e.command.reason)]
                 else [TimeObserved(e.command.observedAt), ConsentExpired(s.consent.grantId, e.command.observedAt)];
    var stops, effect := StopEvents(s, reason), StopEffect(s, e.key, reason);
    DecisionIs(s, p, e, first, reason);
    assert forall j :: 0 <= j < |stops| ==> stops[j].LeaseStopped? || stops[j].AttemptFailed?;
    assert effect.StopSandbox? && effect.reason == OnConsentEnd(reason);
    hide Decide, StopEvents, StopEffect, Decided;
    var facts := Events(first + stops) + Effects([effect]);
    var k := |first| + |stops|;
    assert facts[k] == Emitted(effect);
    forall j | |first| <= j < k
      ensures facts[j] == Happened(stops[j - |first|])
    {
    }
    forall i | 0 <= i < |facts|
      ensures CarriedOut(facts, i)
    {
      if i == |first| - 1 {
        assert facts[i] == Happened(first[i]);
        assert StoppedAfter(facts, i, reason);
      }
    }
  }

  /** In every run no effect is left out: a start, a submitted result and a prepared settlement are followed at once by
      their effect with the same contents, and the end of consent by its stops and then a stop of the sandbox. */
  lemma {:induction false} EverythingIsCarriedOut(node: NodeId, p: EnginePolicy, stream: seq<CommandEnvelope>)
    ensures AllCarriedOut(Run(node, p, stream).facts)
    decreases |stream|
  {
    if stream != [] {
      var init, last := stream[..|stream| - 1], stream[|stream| - 1];
      EverythingIsCarriedOut(node, p, init);
      var h := Run(node, p, init);
      var o := Handled(h.kernel, last).1;
      hide AllCarriedOut, Handled;
      if o.Accepted? && !o.replayed {
        AcceptedDecides(h.kernel, last);
        DecisionCarriedOut(h.kernel.aggregate, h.kernel.policy, last);
        CarriedOutStays(h.facts, FactsOf(o));
      } else {
        assert h.facts + [] == h.facts;
      }
    }
  }

  // ---- Effect ids ----

  predicate IsSuffix(suffix: string) {
    || suffix == "start-sandbox" || suffix == "stop-sandbox" || suffix == "stop-sandbox-result-submitted"
    || suffix == "post-service-credit"
  }

  /** Ids built from different keys differ, whatever the effects. */
  lemma IdsDiffer(k: IdempotencyKey, a: string, l: IdempotencyKey, b: string)
    requires IsSuffix(a) && IsSuffix(b) && k + ":" + a == l + ":" + b
    ensures k == l
  {
    var x := k + ":" + a;
    LastChars(k, a);
    LastChars(l, b);
    assert |a| == |b|;
    assert k == x[..|x| - |a| - 1] == l;
  }

  lemma LastChars(k: IdempotencyKey, a: string)
    requires a != ""
    ensures var x := k + ":" + a; x[|x| - 1] == a[|a| - 1] && x[|x| - |a|] == a[0] && x[|x| - |a| - 1] == ':'
  {
  }

  /** Every effect so far has an id built from a key that has been handled, and no two have the same. */
  ghost predicate IdsApart(facts: seq<Fact>, inbox: map<IdempotencyKey, InboxRecord>) {
    && (forall i :: 0 <= i < |facts| && facts[i].Emitted? ==> BuiltFrom(facts[i].effect.effectId, inbox))
    && (forall i, j :: 0 <= i < j < |facts| && facts[i].Emitted? && facts[j].Emitted? ==>
          facts[i].effect.effectId != facts[j].effect.effectId)
  }

  ghost predicate BuiltFrom(id: string, inbox: map<IdempotencyKey, InboxRecord>) {
    exists key, suffix :: key in inbox && IsSuffix(suffix) && id == key + ":" + suffix
  }

  lemma NewIdIsNew(id: string, inbox: map<IdempotencyKey, InboxRecord>, key: IdempotencyKey, suffix: string)
    requires BuiltFrom(id, inbox) && key !in inbox && IsSuffix(suffix)
    ensures id != key + ":" + suffix
  {
    var other, end :| other in inbox && IsSuffix(end) && id == other + ":" + end;
    if id == key + ":" + suffix {
      IdsDiffer(other, end, key, suffix);
    }
  }

  /** A decision has at most one effect, with an id built from its key. */
  lemma OneEffect(s: Aggregate, p: EnginePolicy, e: CommandEnvelope) returns (suffix: string)
    requires Decide(s, p, e.key, e.command, e.generation).Ok?
    ensures |Decided(s, p, e).effects| <= 1 && IsSuffix(suffix)
    ensures Decided(s, p, e).effects != [] ==> Decided(s, p, e).effects[0].effectId == e.key + ":" + suffix
  {
    hide StopEvents, CheckGrant, CheckPositive, CheckWithin, CheckMode, OrElse;
    suffix := match e.command
              case StartAttempt(_, _) => "start-sandbox"
              case SubmitResult(_, _) => "stop-sandbox-result-submitted"
              case PrepareSettlement(_, _, _) => "post-service-credit"
              case _ => "stop-sandbox";
  }

  lemma IdsGrow(facts: seq<Fact>, inbox: map<IdempotencyKey, InboxRecord>, events: seq<Event>, effects: seq<Effect>,
                key: IdempotencyKey, suffix: string, record: InboxRecord)
    requires IdsApart(facts, inbox) && key !in inbox && IsSuffix(suffix)
    requires |effects| <= 1 && (effects != [] ==> effects[0].effectId == key + ":" + suffix)
    ensures IdsApart(facts + (Events(events) + Effects(effects)), inbox[key := record])
  {
    hide IsSuffix;
    var all, inbox' := facts + (Events(events) + Effects(effects)), inbox[key := record];
    var id := key + ":" + suffix;
    assert BuiltFrom(id, inbox');
    forall i | 0 <= i < |facts| && facts[i].Emitted?
      ensures BuiltFrom(facts[i].effect.effectId, inbox') && facts[i].effect.effectId != id
    {
      NewIdIsNew(facts[i].effect.effectId, inbox, key, suffix);
      StillBuilt(facts[i].effect.effectId, inbox, key, record);
    }
    hide BuiltFrom;
    forall i | |facts| <= i < |all| && all[i].Emitted?
      ensures i == |all| - 1 && all[i].effect.effectId == id
    {
    }
  }

  lemma StillBuilt(id: string, inbox: map<IdempotencyKey, InboxRecord>, key: IdempotencyKey, record: InboxRecord)
    requires BuiltFrom(id, inbox)
    ensures BuiltFrom(id, inbox[key := record])
  {
  }

  lemma IdsStay(facts: seq<Fact>, inbox: map<IdempotencyKey, InboxRecord>, key: IdempotencyKey, record: InboxRecord)
    requires IdsApart(facts, inbox)
    ensures IdsApart(facts, inbox[key := record])
  {
    hide IsSuffix;
    forall i | 0 <= i < |facts| && facts[i].Emitted?
      ensures BuiltFrom(facts[i].effect.effectId, inbox[key := record])
    {
      StillBuilt(facts[i].effect.effectId, inbox, key, record);
    }
  }

  lemma HandledInbox(k: Kernel, e: CommandEnvelope)
    ensures var k' := Handled(k, e).0;
            || k'.inbox == k.inbox
            || (e.key !in k.inbox && e.key in k'.inbox && k'.inbox == k.inbox[e.key := k'.inbox[e.key]])
    ensures Handled(k, e).1.Accepted? && !Handled(k, e).1.replayed ==>
              e.key !in k.inbox && e.key in Handled(k, e).0.inbox
  {
    hide Decide, EvolvedAll;
  }

  lemma {:induction false} RunKeepsIdsApart(node: NodeId, p: EnginePolicy, stream: seq<CommandEnvelope>)
    ensures IdsApart(Run(node, p, stream).facts, Run(node, p, stream).kernel.inbox)
    decreases |stream|
  {
    if stream != [] {
      var init, last := stream[..|stream| - 1], stream[|stream| - 1];
      RunKeepsIdsApart(node, p, init);
      var h := Run(node, p, init);
      var (k, o) := Handled(h.kernel, last);
      HandledInbox(h.kernel, last);
      hide IdsApart, Handled;
      if o.Accepted? && !o.replayed {
        AcceptedDecides(h.kernel, last);
        var suffix := OneEffect(h.kernel.aggregate, h.kernel.policy, last);
        IdsGrow(h.facts, h.kernel.inbox, o.events, o.effects, last.key, suffix, k.inbox[last.key]);
      } else {
        assert h.facts + [] == h.facts;
        if k.inbox != h.kernel.inbox {
          IdsStay(h.facts, h.kernel.inbox, last.key, k.inbox[last.key]);
        }
      }
    }
  }

  /** No two effects of a run have one id, whatever keys the commands came with, so that whoever carries effects out
      can tell a repeat from a new one. */
  lemma EffectIdsAreUnique(node: NodeId, p: EnginePolicy, stream: seq<CommandEnvelope>, i: nat, j: nat)
    requires i < j < |Run(node, p, stream).facts|
    requires Run(node, p, stream).facts[i].Emitted? && Run(node, p, stream).facts[j].Emitted?
    ensures Run(node, p, stream).facts[i].effect.effectId != Run(node, p, stream).facts[j].effect.effectId
  {
    RunKeepsIdsApart(node, p, stream);
    hide Run;
  }
}
