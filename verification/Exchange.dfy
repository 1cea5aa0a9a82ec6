/** The consent-first compute-exchange kernel: one aggregate of four sub-machines (consent, lease,
    attempt, settlement), the decisions on commands, and the reducer on events. */
module Exchange {
  import opened Basics

  type NodeId = string
  type PrincipalId = string
  type GrantId = string
  type LeaseId = string
  type AssignmentId = string
  type AttemptId = string
  type SettlementId = string
  type CapabilityId = string
  type IdempotencyKey = string
  type Digest = string

  datatype ResourceCaps = ResourceCaps(workers: nat, dutyCyclePercent: nat, memoryMib: nat, networkBytes: nat,
          gpu: bool)

  datatype ExecutionMode = BrowserForeground | BrowserBackground | NativeNode

  datatype EnginePolicy = EnginePolicy(policyHash: string, maximum: ResourceCaps, browserForegroundOnly: bool,
          maximumOutstandingAssignments: nat)

  const BROWSER_ALPHA_V1 := EnginePolicy("333-browser-alpha-v1", ResourceCaps(4, 50, 512, 0, false), true, 1)

  datatype ResourceGrant = ResourceGrant(
    id: GrantId,
    principal: PrincipalId,
    issuedAt: U64,
    expiresAt: U64,
    browserForegroundOnly: bool,
    caps: ResourceCaps,
    policyHash: string)

  datatype ResourceLease = ResourceLease(id: LeaseId, grantId: GrantId, generation: U64, mode: ExecutionMode,
          resources: ResourceCaps)

  datatype Assignment = Assignment(
    id: AssignmentId,
    leaseId: LeaseId,
    generation: U64,
    requester: PrincipalId,
    workloadDigest: Digest,
    mode: ExecutionMode,
    resources: ResourceCaps)

  datatype Attempt = Attempt(
    id: AttemptId,
    assignmentId: AssignmentId,
    producer: PrincipalId,
    generation: U64,
    resources: ResourceCaps,
    workloadDigest: Digest)

  datatype SubmittedResult = SubmittedResult(producer: PrincipalId, digest: Digest, usage: ResourceCaps, computeMs: U64)

  datatype VerifierCapability = VerifierCapability(
    id: CapabilityId,
    subject: PrincipalId,
    nodeId: NodeId,
    attemptId: AttemptId,
    notBefore: U64,
    expiresAt: U64)

  datatype Verdict = Accept | Reject(code: string)

  datatype VerificationRecord = VerificationRecord(
    attemptId: AttemptId,
    verifier: PrincipalId,
    capabilityId: CapabilityId,
    digest: Digest,
    verifiedAt: U64)

  datatype SettlementPlan = SettlementPlan(
    id: SettlementId,
    attemptId: AttemptId,
    beneficiary: PrincipalId,
    serviceCredits: U64,
    digest: Digest)

  datatype SettlementReceipt = SettlementReceipt(settlementId: SettlementId, serviceCredits: U64,
          externalReference: string)

  datatype StopReason = ByRevocation | ByExpiry

  datatype AttemptFailure = ConsentEnded(reason: StopReason) | VerificationRejected(code: string)

  datatype ConsentState = Unseen | Active(grantId: GrantId) | Revoked(grantId: GrantId,
          at: U64) | Expired(grantId: GrantId, at: U64)

  datatype LeaseState = Closed | Open(lease: ResourceLease) | Stopped(leaseId: LeaseId, reason: StopReason)

  datatype AttemptState =
    | NoAttempt
    | Offered(assignment: Assignment)
    | Running(attempt: Attempt)
    | Submitted(attempt: Attempt, result: SubmittedResult)
    | Verified(attempt: Attempt, result: SubmittedResult, verification: VerificationRecord)
    | Failed(assignmentId: AssignmentId, attemptId: Option<AttemptId>, failure: AttemptFailure)

  datatype SettlementState = NoSettlement | Prepared(plan: SettlementPlan) | Posted(plan: SettlementPlan,
          receipt: SettlementReceipt)

  datatype Aggregate = Aggregate(
    nodeId: NodeId,
    generation: U64,
    observedAt: U64,
    consent: ConsentState,
    grant: Option<ResourceGrant>,
    lease: LeaseState,
    attempt: AttemptState,
    settlement: SettlementState)

  function NewAggregate(node: NodeId): (r: Aggregate) {
    Aggregate(node, 0, 0, Unseen, None, Closed, NoAttempt, NoSettlement)
  }

  datatype Command =
    | GrantConsent(grant: ResourceGrant)
    | ObserveTime(observedAt: U64)
    | OpenLease(lease: ResourceLease)
    | OfferAssignment(assignment: Assignment)
    | StartAttempt(attemptId: AttemptId, assignmentId: AssignmentId)
    | SubmitResult(attemptId: AttemptId, result: SubmittedResult)
    | VerifyResult(attemptId: AttemptId, verifier: PrincipalId, capability: VerifierCapability, verdict: Verdict)
    | PrepareSettlement(settlementId: SettlementId, attemptId: AttemptId, serviceCredits: U64)
    | RecordSettlementReceipt(receipt: SettlementReceipt)
    | RevokeConsent(grantId: GrantId, reason: string)

  datatype CommandEnvelope = CommandEnvelope(key: IdempotencyKey, generation: U64, command: Command)

  datatype Event =
    | ConsentGranted(generation: U64, grant: ResourceGrant)
    | TimeObserved(observedAt: U64)
    | LeaseOpened(lease: ResourceLease)
    | AssignmentOffered(assignment: Assignment)
    | AttemptStarted(attempt: Attempt)
    | ResultSubmitted(attemptId: AttemptId, result: SubmittedResult)
    | ResultVerified(record: VerificationRecord)
    | ResultRejected(attemptId: AttemptId, code: string)
    | SettlementPrepared(plan: SettlementPlan)
    | SettlementReceiptRecorded(receipt: SettlementReceipt)
    | ConsentRevoked(grantId: GrantId, at: U64, why: string)
    | ConsentExpired(grantId: GrantId, at: U64)
    | LeaseStopped(leaseId: LeaseId, reason: StopReason)
    | AttemptFailed(assignmentId: AssignmentId, failedAttempt: Option<AttemptId>, failure: AttemptFailure)

  datatype SandboxStopReason = OnResult | OnConsentEnd(reason: StopReason)

  datatype Effect =
    | StartSandbox(effectId: string, nodeId: NodeId, leaseId: LeaseId, attempt: Attempt, mode: ExecutionMode)
    | StopSandbox(effectId: string, nodeId: NodeId, stoppedLease: Option<LeaseId>, attemptId: Option<AttemptId>,
                  reason: SandboxStopReason)
    | PostServiceCredit(effectId: string, settlement: SettlementPlan)

  datatype InputProblem = MustBePositive | MustBeNonEmpty | InvalidTimeRange | DoesNotMatchRecordedValue

  datatype Scope = Workers | DutyCycle | MemoryMib | NetworkBytes | Gpu | BackgroundExecution | PolicyHash

  datatype AuthorizationFailure =
    | ProducerIsVerifier
    | CapabilitySubjectMismatch
    | CapabilityNodeMismatch
    | CapabilityAttemptMismatch
    | CapabilityNotYetValid
    | CapabilityExpired
    | ResultProducerMismatch

  datatype Rejection =
    | ConsentRequired
    | ConsentTerminal(revoked: bool)
    | LeaseRequired
    | ScopeExceeded(scope: Scope)
    | InvalidTransition(command: string)
    | InvalidInput(field: string, problem: InputProblem)
    | Unauthorized(failure: AuthorizationFailure)
    | GrantExpired(expiresAt: U64, observedAt: U64)
    | StaleGeneration(expected: U64, provided: U64)
    | IdempotencyConflict(key: IdempotencyKey)
    | ResultUnverified

  datatype Decision = Decision(events: seq<Event>, effects: seq<Effect>)

  // ---- Caps ----

  function CheckPositive(c: ResourceCaps): (r: Option<Rejection>) {
    if c.workers == 0 then Some(InvalidInput("workers", MustBePositive))
    else if c.dutyCyclePercent == 0 then Some(InvalidInput("duty_cycle_percent", MustBePositive))
    else if c.memoryMib == 0 then Some(InvalidInput("memory_mib", MustBePositive))
    else None
  }

  function CheckWithin(c: ResourceCaps, upper: ResourceCaps): (r: Option<Rejection>) {
    if c.workers > upper.workers then Some(ScopeExceeded(Workers))
    else if c.dutyCyclePercent > upper.dutyCyclePercent then Some(ScopeExceeded(DutyCycle))
    else if c.memoryMib > upper.memoryMib then Some(ScopeExceeded(MemoryMib))
    else if c.networkBytes > upper.networkBytes then Some(ScopeExceeded(NetworkBytes))
    else if c.gpu && !upper.gpu then Some(ScopeExceeded(Gpu))
    else None
  }

  /** First complaint wins. */
  function OrElse(first: Option<Rejection>, second: Option<Rejection>): (r: Option<Rejection>) {
    if first.Some? then first else second
  }

  function CheckMode(policy: EnginePolicy, mode: ExecutionMode): (r: Option<Rejection>) {
    if policy.browserForegroundOnly && mode != BrowserForeground then Some(ScopeExceeded(BackgroundExecution)) else None
  }

  function CheckGrant(policy: EnginePolicy, g: ResourceGrant): (r: Option<Rejection>) {
    if g.id == "" || g.principal == "" || g.policyHash == ""
    then Some(InvalidInput("grant.id/principal/policy_hash", MustBeNonEmpty))
    else if g.issuedAt >= g.expiresAt then Some(InvalidInput("grant.issued_at_ms/expires_at_ms", InvalidTimeRange))
    else if g.policyHash != policy.policyHash then Some(ScopeExceeded(PolicyHash))
    else if policy.browserForegroundOnly && !g.browserForegroundOnly then Some(ScopeExceeded(BackgroundExecution))
    else OrElse(CheckPositive(g.caps), CheckWithin(g.caps, policy.maximum))
  }

  // ---- Reading the aggregate ----

  predicate HasOutstandingAssignment(s: Aggregate) {
    match s.attempt
    case NoAttempt => false
    case Failed(_, _, _) => false
    case Verified(_, _, _) => !s.settlement.Posted?
    case _ => true
  }

  function ActiveGrant(s: Aggregate): (r: Result<ResourceGrant, Rejection>) {
    match s.consent
    case Active(_) =>
      if s.grant.None? then Err(ConsentRequired)
      else if s.observedAt >= s.grant.value.expiresAt then Err(GrantExpired(s.grant.value.expiresAt, s.observedAt))
      else Ok(s.grant.value)
    case Unseen => Err(ConsentRequired)
    case Revoked(_, _) => Err(ConsentTerminal(true))
    case Expired(_, _) => Err(ConsentTerminal(false))
  }

  function ActiveAttemptId(s: Aggregate): (r: Option<AttemptId>) {
    match s.attempt
    case Running(a) => Some(a.id)
    case Submitted(a, _) => Some(a.id)
    case Verified(a, _, _) => Some(a.id)
    case _ => None
  }

  function EffectIdOf(key: IdempotencyKey, suffix: string): (r: string) {
    key + ":" + suffix
  }

  function LeaseStops(s: Aggregate, reason: StopReason): (r: seq<Event>) {
    if s.lease.Open? then [LeaseStopped(s.lease.lease.id, reason)] else []
  }

  function AttemptStops(s: Aggregate, reason: StopReason): (r: seq<Event>) {
    match s.attempt
    case Offered(a) => [AttemptFailed(a.id, None, ConsentEnded(reason))]
    case Running(a) => [AttemptFailed(a.assignmentId, Some(a.id), ConsentEnded(reason))]
    case _ => []
  }

  function StopEvents(s: Aggregate, reason: StopReason): (r: seq<Event>) {
    LeaseStops(s, reason) + AttemptStops(s, reason)
  }

  function StopEffect(s: Aggregate, key: IdempotencyKey, reason: StopReason): (r: Effect) {
    var lease := if s.lease.Open? then Some(s.lease.lease.id) else None;
    StopSandbox(EffectIdOf(key, "stop-sandbox"), s.nodeId, lease, ActiveAttemptId(s), OnConsentEnd(reason))
  }

  // ---- Decisions ----

  function DecideGrant(s: Aggregate, policy: EnginePolicy, g: ResourceGrant, generation: U64): (r: Result<Decision,
                       Rejection>) {
    if s.consent.Active? || HasOutstandingAssignment(s) || s.settlement.Prepared?
    then Err(InvalidTransition("GrantConsent"))
    else if CheckGrant(policy, g).Some? then Err(CheckGrant(policy, g).value)
    else if g.issuedAt < s.observedAt then Err(InvalidInput("issued_at_ms", InvalidTimeRange))
    else Ok(Decision([ConsentGranted(generation, g)], []))
  }

  function DecideObserveTime(s: Aggregate, key: IdempotencyKey, at: U64): (r: Result<Decision, Rejection>) {
    if at < s.observedAt then Err(InvalidInput("observed_at_ms", InvalidTimeRange))
    else if s.consent.Active? && s.grant.Some? && at >= s.grant.value.expiresAt then
      Ok(Decision([TimeObserved(at), ConsentExpired(s.consent.grantId, at)] + StopEvents(s, ByExpiry),
                  [StopEffect(s, key, ByExpiry)]))
    else Ok(Decision([TimeObserved(at)], []))
  }

  function DecideOpenLease(s: Aggregate, policy: EnginePolicy, l: ResourceLease): (r: Result<Decision, Rejection>) {
    var grant := ActiveGrant(s);
    if grant.Err? then Err(grant.error)
    else if s.lease.Open? then Err(InvalidTransition("OpenLease"))
    else if l.grantId != grant.value.id || l.generation != s.generation then
      Err(InvalidInput("lease.grant_id/generation", DoesNotMatchRecordedValue))
    else if l.id == "" then Err(InvalidInput("lease.id", MustBeNonEmpty))
    else
      var complaint := OrElse(CheckMode(policy, l.mode),
                              OrElse(CheckPositive(l.resources), CheckWithin(l.resources, grant.value.caps)));
      if complaint.Some? then Err(complaint.value) else Ok(Decision([LeaseOpened(l)], []))
  }

  function DecideOffer(s: Aggregate, policy: EnginePolicy, a: Assignment): (r: Result<Decision, Rejection>) {
    var grant := ActiveGrant(s);
    if grant.Err? then Err(grant.error)
    else if !s.lease.Open? then Err(LeaseRequired)
    else if HasOutstandingAssignment(s) || policy.maximumOutstandingAssignments == 0 then
      Err(InvalidTransition("OfferAssignment"))
    else if a.leaseId != s.lease.lease.id || a.generation != s.generation then
      Err(InvalidInput("assignment.lease_id/generation", DoesNotMatchRecordedValue))
    else if a.id == "" || a.requester == "" || a.workloadDigest == "" then
      Err(InvalidInput("assignment.id/requester/workload_digest", MustBeNonEmpty))
    else
      var complaint := OrElse(CheckMode(policy, a.mode),
                              OrElse(CheckPositive(a.resources), CheckWithin(a.resources, s.lease.lease.resources)));
      if complaint.Some? then Err(complaint.value) else Ok(Decision([AssignmentOffered(a)], []))
  }

  function DecideStart(s: Aggregate, key: IdempotencyKey, attemptId: AttemptId,
                       assignmentId: AssignmentId): (r: Result<Decision, Rejection>) {
    var grant := ActiveGrant(s);
    if grant.Err? then Err(grant.error)
    else if !s.lease.Open? then Err(LeaseRequired)
    else if !s.attempt.Offered? then Err(InvalidTransition("StartAttempt"))
    else
      var a := s.attempt.assignment;
      if attemptId == "" || a.id != assignmentId || a.leaseId != s.lease.lease.id
      then Err(InvalidInput("attempt_id/assignment_id", DoesNotMatchRecordedValue))
      else
        var attempt := Attempt(attemptId, assignmentId, grant.value.principal, s.generation, a.resources,
                               a.workloadDigest);
        Ok(Decision([AttemptStarted(attempt)],
                    [StartSandbox(EffectIdOf(key, "start-sandbox"), s.nodeId, s.lease.lease.id, attempt, a.mode)]))
  }

  function DecideSubmit(s: Aggregate, key: IdempotencyKey, attemptId: AttemptId,
                        result: SubmittedResult): (r: Result<Decision, Rejection>) {
    var grant := ActiveGrant(s);
    if grant.Err? then Err(grant.error)
    else if !s.lease.Open? then Err(LeaseRequired)
    else if !(s.attempt.Running? && s.attempt.attempt.id == attemptId) then Err(InvalidTransition("SubmitResult"))
    else if result.producer != grant.value.principal || result.producer != s.attempt.attempt.producer then
      Err(Unauthorized(ResultProducerMismatch))
    else if result.digest == "" then Err(InvalidInput("result_digest", MustBeNonEmpty))
    else
      var complaint := OrElse(CheckPositive(result.usage), CheckWithin(result.usage, s.attempt.attempt.resources));
      if complaint.Some? then Err(complaint.value)
      else
        Ok(Decision([ResultSubmitted(attemptId, result)],
                    [StopSandbox(EffectIdOf(key, "stop-sandbox-result-submitted"), s.nodeId, Some(s.lease.lease.id),
                                 Some(attemptId), OnResult)]))
  }

  function DecideVerify(s: Aggregate, attemptId: AttemptId, verifier: PrincipalId, c: VerifierCapability,
                        verdict: Verdict): (r: Result<Decision, Rejection>) {
    if !(s.attempt.Submitted? && s.attempt.attempt.id == attemptId) then Err(InvalidTransition("VerifyResult"))
    else
      var attempt, result := s.attempt.attempt, s.attempt.result;
      if verifier == "" || c.id == "" then Err(InvalidInput("verifier/capability.id", MustBeNonEmpty))
      else if c.notBefore >= c.expiresAt then
        Err(InvalidInput("capability.not_before_ms/expires_at_ms", InvalidTimeRange))
      else if verifier == result.producer then Err(Unauthorized(ProducerIsVerifier))
      else if c.subject != verifier then Err(Unauthorized(CapabilitySubjectMismatch))
      else if c.nodeId != s.nodeId then Err(Unauthorized(CapabilityNodeMismatch))
      else if c.attemptId != attempt.id then Err(Unauthorized(CapabilityAttemptMismatch))
      else if s.observedAt < c.notBefore then Err(Unauthorized(CapabilityNotYetValid))
      else if s.observedAt >= c.expiresAt then Err(Unauthorized(CapabilityExpired))
      else
        match verdict
        case Accept =>
          var record := VerificationRecord(attempt.id, verifier, c.id, result.digest, s.observedAt);
          Ok(Decision([ResultVerified(record)], []))
        case Reject(code) =>
          if code == "" then Err(InvalidInput("verification_rejection_code", MustBeNonEmpty))
          else Ok(Decision([ResultRejected(attempt.id, code)], []))
  }

  function DecidePrepare(s: Aggregate, key: IdempotencyKey, settlementId: SettlementId, attemptId: AttemptId,
                         credits: U64): (r: Result<Decision, Rejection>) {
    if s.attempt.Submitted? || s.attempt.Running? || s.attempt.Offered? then Err(ResultUnverified)
    else if !(s.attempt.Verified? && s.attempt.attempt.id == attemptId) then Err(InvalidTransition("PrepareSettlement"))
    else if !s.settlement.NoSettlement? then Err(InvalidTransition("PrepareSettlement"))
    else if settlementId == "" || credits == 0 then Err(InvalidInput("settlement_id/service_credits", MustBePositive))
    else if s.grant.None? then Err(ConsentRequired)
    else
      var plan := SettlementPlan(settlementId, s.attempt.attempt.id, s.grant.value.principal, credits,
                                 s.attempt.result.digest);
      Ok(Decision([SettlementPrepared(plan)], [PostServiceCredit(EffectIdOf(key, "post-service-credit"), plan)]))
  }

  function DecideReceipt(s: Aggregate, receipt: SettlementReceipt): (r: Result<Decision, Rejection>) {
    if !s.settlement.Prepared? then Err(InvalidTransition("RecordSettlementReceipt"))
    else if || receipt.settlementId != s.settlement.plan.id
            || receipt.serviceCredits != s.settlement.plan.serviceCredits
            || receipt.externalReference == ""
    then Err(InvalidInput("settlement_receipt", DoesNotMatchRecordedValue))
    else Ok(Decision([SettlementReceiptRecorded(receipt)], []))
  }

  function DecideRevoke(s: Aggregate, key: IdempotencyKey, grantId: GrantId, reason: string): (r: Result<Decision,
                        Rejection>) {
    var grant := ActiveGrant(s);
    if grant.Err? then Err(grant.error)
    else if grantId != grant.value.id then Err(InvalidInput("grant_id", DoesNotMatchRecordedValue))
    else if reason == "" then Err(InvalidInput("reason", MustBeNonEmpty))
    else Ok(Decision([ConsentRevoked(grantId, s.observedAt, reason)] + StopEvents(s, ByRevocation),
                     [StopEffect(s, key, ByRevocation)]))
  }

  function Decide(s: Aggregate, policy: EnginePolicy, key: IdempotencyKey, command: Command,
                  generation: U64): (r: Result<Decision, Rejection>) {
    match command
    case GrantConsent(g) => DecideGrant(s, policy, g, generation)
    case ObserveTime(at) => DecideObserveTime(s, key, at)
    case OpenLease(l) => DecideOpenLease(s, policy, l)
    case OfferAssignment(a) => DecideOffer(s, policy, a)
    case StartAttempt(attemptId, assignmentId) => DecideStart(s, key, attemptId, assignmentId)
    case SubmitResult(attemptId, result) => DecideSubmit(s, key, attemptId, result)
    case VerifyResult(attemptId, verifier, c, verdict) => DecideVerify(s, attemptId, verifier, c, verdict)
    case PrepareSettlement(settlementId, attemptId, credits) => DecidePrepare(s, key, settlementId, attemptId, credits)
    case RecordSettlementReceipt(receipt) => DecideReceipt(s, receipt)
    case RevokeConsent(grantId, reason) => DecideRevoke(s, key, grantId, reason)
  }

  // ---- The reducer ----

  function Evolved(s: Aggregate, e: Event): (r: Aggregate) {
    match e
    case ConsentGranted(generation, g) =>
      Aggregate(s.nodeId, generation, g.issuedAt, Active(g.id), Some(g), Closed, NoAttempt, NoSettlement)
    case TimeObserved(at) => s.(observedAt := at)
    case LeaseOpened(l) => s.(lease := Open(l))
    case AssignmentOffered(a) => s.(attempt := Offered(a), settlement := NoSettlement)
    case AttemptStarted(a) => s.(attempt := Running(a))
    case ResultSubmitted(_, result) =>
      if s.attempt.Running? then s.(attempt := Submitted(s.attempt.attempt, result)) else s
    case ResultVerified(record) =>
      if s.attempt.Submitted? then s.(attempt := Verified(s.attempt.attempt, s.attempt.result, record)) else s
    case ResultRejected(_, code) =>
      if s.attempt.Submitted? then
        s.(attempt := Failed(s.attempt.attempt.assignmentId, Some(s.attempt.attempt.id), VerificationRejected(code)))
      else s
    case SettlementPrepared(plan) => s.(settlement := Prepared(plan))
    case SettlementReceiptRecorded(receipt) =>
      if s.settlement.Prepared? then s.(settlement := Posted(s.settlement.plan, receipt)) else s
    case ConsentRevoked(grantId, at, _) => s.(consent := Revoked(grantId, at))
    case ConsentExpired(grantId, at) => s.(consent := Expired(grantId, at))
    case LeaseStopped(leaseId, reason) => s.(lease := Stopped(leaseId, reason))
    case AttemptFailed(assignmentId, attemptId, failure) => s.(attempt := Failed(assignmentId, attemptId, failure))
  }

  function EvolvedAll(s: Aggregate, events: seq<Event>): (r: Aggregate) {
    if events == [] then s
    else Evolved(EvolvedAll(s, events[..|events| - 1]), events[|events| - 1])
  }

  lemma {:induction false} EvolvedAllConcat(s: Aggregate, a: seq<Event>, b: seq<Event>)
    ensures EvolvedAll(s, a + b) == EvolvedAll(EvolvedAll(s, a), b)
    decreases |b|
  {
    if b == [] {
      assert a + b == a;
    } else {
      EvolvedAllConcat(s, a, b[..|b| - 1]);
      assert (a + b)[..|a + b| - 1] == a + b[..|b| - 1];
    }
  }

  // ---- Commands with an idempotency inbox ----

  datatype Outcome = Accepted(events: seq<Event>, effects: seq<Effect>, replayed: bool) | Rejected(reason: Rejection,
          replayed: bool)

  datatype InboxRecord = InboxRecord(generation: U64, command: Command, outcome: Outcome)

  datatype Kernel = Kernel(policy: EnginePolicy, aggregate: Aggregate, inbox: map<IdempotencyKey, InboxRecord>)

  /** What a repeat is answered with: the same receipt, but nothing for the outside world to do again. */
  function ReplayReceipt(o: Outcome): (r: Outcome) {
    match o
    case Accepted(events, _, _) => Accepted(events, [], true)
    case Rejected(reason, _) => Rejected(reason, true)
  }

  /** A new grant must announce the next generation (which stops at the largest number there is);
      everything else must name the present one. */
  function ExpectedGeneration(s: Aggregate, c: Command): (r: U64) {
    if c.GrantConsent? then if s.generation == MAX_U64 then MAX_U64 else s.generation + 1
    else s.generation
  }

  function FirstOutcome(k: Kernel, e: CommandEnvelope): (r: Outcome) {
    if e.generation != ExpectedGeneration(k.aggregate, e.command)
    then Rejected(StaleGeneration(ExpectedGeneration(k.aggregate, e.command), e.generation), false)
    else
      match Decide(k.aggregate, k.policy, e.key, e.command, e.generation)
      case Ok(d) => Accepted(d.events, d.effects, false)
      case Err(reason) => Rejected(reason, false)
  }

  /** The specification of one command. */
  function Handled(k: Kernel, e: CommandEnvelope): (r: (Kernel, Outcome)) {
    if e.key == "" then (k, Rejected(InvalidInput("idempotency_key", MustBeNonEmpty), false))
    else if e.key in k.inbox then
      var record := k.inbox[e.key];
      (k, if record.generation == e.generation && record.command == e.command then ReplayReceipt(record.outcome)
          else Rejected(IdempotencyConflict(e.key), false))
    else
      var o := FirstOutcome(k, e);
      var after := if o.Accepted? then EvolvedAll(k.aggregate, o.events) else k.aggregate;
      (Kernel(k.policy, after, k.inbox[e.key := InboxRecord(e.generation, e.command, o)]), o)
  }

  class ComputeExchange {
    const policy: EnginePolicy
    var aggregate: Aggregate
    var inbox: map<IdempotencyKey, InboxRecord>

    function State(): (r: Kernel)
      reads this
    {
      Kernel(policy, aggregate, inbox)
    }

    constructor (node: NodeId, policy: EnginePolicy)
      ensures State() == Kernel(policy, NewAggregate(node), map[])
    {
      this.policy, aggregate, inbox := policy, NewAggregate(node), map[];
    }

    constructor BrowserAlphaV1(node: NodeId)
      ensures State() == Kernel(BROWSER_ALPHA_V1, NewAggregate(node), map[])
    {
      policy, aggregate, inbox := BROWSER_ALPHA_V1, NewAggregate(node), map[];
    }

    /** Apply one accepted fact in place. */
    method Evolve(e: Event)
      modifies this`aggregate
      ensures aggregate == Evolved(old(aggregate), e)
    {
      match e {
        case ConsentGranted(generation, g) =>
          aggregate := aggregate.(generation := generation, observedAt := g.issuedAt);
          aggregate := aggregate.(consent := Active(g.id), grant := Some(g));
          aggregate := aggregate.(lease := Closed, attempt := NoAttempt, settlement := NoSettlement);
        case TimeObserved(at) =>
          aggregate := aggregate.(observedAt := at);
        case LeaseOpened(l) =>
          aggregate := aggregate.(lease := Open(l));
        case AssignmentOffered(a) =>
          aggregate := aggregate.(attempt := Offered(a));
          aggregate := aggregate.(settlement := NoSettlement);
        case AttemptStarted(a) =>
          aggregate := aggregate.(attempt := Running(a));
        case ResultSubmitted(_, result) =>
          if aggregate.attempt.Running? {
            aggregate := aggregate.(attempt := Submitted(aggregate.attempt.attempt, result));
          }
        case ResultVerified(record) =>
          if aggregate.attempt.Submitted? {
            aggregate := aggregate.(attempt := Verified(aggregate.attempt.attempt, aggregate.attempt.result, record));
          }
        case ResultRejected(_, code) =>
          if aggregate.attempt.Submitted? {
            var a := aggregate.attempt.attempt;
            aggregate := aggregate.(attempt := Failed(a.assignmentId, Some(a.id), VerificationRejected(code)));
          }
        case SettlementPrepared(plan) =>
          aggregate := aggregate.(settlement := Prepared(plan));
        case SettlementReceiptRecorded(receipt) =>
          if aggregate.settlement.Prepared? {
            aggregate := aggregate.(settlement := Posted(aggregate.settlement.plan, receipt));
          }
        case ConsentRevoked(grantId, at, _) =>
          aggregate := aggregate.(consent := Revoked(grantId, at));
        case ConsentExpired(grantId, at) =>
          aggregate := aggregate.(consent := Expired(grantId, at));
        case LeaseStopped(leaseId, reason) =>
          aggregate := aggregate.(lease := Stopped(leaseId, reason));
        case AttemptFailed(assignmentId, attemptId, failure) =>
          aggregate := aggregate.(attempt := Failed(assignmentId, attemptId, failure));
      }
    }

    method CheckGeneration(e: CommandEnvelope) returns (problem: Option<Rejection>)
      ensures problem == if e.generation == ExpectedGeneration(aggregate, e.command) then None
                         else Some(StaleGeneration(ExpectedGeneration(aggregate, e.command), e.generation))
    {
      var expected := aggregate.generation;
      if e.command.GrantConsent? && expected < MAX_U64 {
        expected := expected + 1;
      }
      return if e.generation != expected then Some(StaleGeneration(expected, e.generation)) else None;
    }

    /** Answer a repeat from the inbox; decide a new command, apply its events and remember the answer. */
    method Handle(e: CommandEnvelope) returns (o: Outcome)
      modifies this
      ensures (State(), o) == Handled(old(State()), e)
    {
      if e.key == "" {
        return Rejected(InvalidInput("idempotency_key", MustBeNonEmpty), false);
      }
      if e.key in inbox {
        var record := inbox[e.key];
        if record.generation == e.generation && record.command == e.command {
          return ReplayReceipt(record.outcome);
        }
        return Rejected(IdempotencyConflict(e.key), false);
      }
      var problem := CheckGeneration(e);
      if problem.Some? {
        o := Rejected(problem.value, false);
      } else {
        var decision := Decide(aggregate, policy, e.key, e.command, e.generation);
        o := match decision
             case Ok(d) => Accepted(d.events, d.effects, false)
             case Err(reason) => Rejected(reason, false);
      }
      if o.Accepted? {
        var i := 0;
        while i < |o.events|
          invariant i <= |o.events| && inbox == old(inbox)
          invariant aggregate == EvolvedAll(old(aggregate), o.events[..i])
        {
          Evolve(o.events[i]);
          assert o.events[..i + 1][..i] == o.events[..i];
          i := i + 1;
        }
        assert o.events[..i] == o.events;
      }
      inbox := inbox[e.key := InboxRecord(e.generation, e.command, o)];
    }
  }
}
