/** When the compute exchange accepts a command, exactly, and what each rejection says about it. */
module ExchangeDecisions {
  import opened Basics
  import opened Exchange
  import opened ExchangeRuns

  /** Generations count grants up to the largest number there is. */
  function Following(g: U64): (r: U64) {
    if g == MAX_U64 then MAX_U64 else g + 1
  }

  predicate Positive(c: ResourceCaps) {
    c.workers > 0 && c.dutyCyclePercent > 0 && c.memoryMib > 0
  }

  predicate Fitting(p: EnginePolicy, mode: ExecutionMode) {
    p.browserForegroundOnly ==> mode == BrowserForeground
  }

  /** The capability entitles this verifier to judge this attempt on this node now. */
  predicate Entitles(c: VerifierCapability, node: NodeId, attempt: AttemptId, verifier: PrincipalId, now: U64) {
    && c.id != "" && verifier != "" && c.subject == verifier && c.nodeId == node && c.attemptId == attempt
    && c.notBefore <= now < c.expiresAt
  }

  /** Consent is active under a grant that has not run out. */
  predicate Consented(s: Aggregate) {
    s.consent.Active? && s.grant.Some? && s.observedAt < s.grant.value.expiresAt
  }

  /** Work that is neither over nor paid for. */
  predicate Busy(s: Aggregate) {
    s.attempt.Offered? || s.attempt.Running? || s.attempt.Submitted? || (s.attempt.Verified? && !s.settlement.Posted?)
  }

  predicate MayGrant(p: EnginePolicy, s: Aggregate, g: ResourceGrant) {
    && !s.consent.Active? && !Busy(s) && !s.settlement.Prepared?
    && g.id != "" && g.principal != "" && g.policyHash == p.policyHash != ""
    && s.observedAt <= g.issuedAt < g.expiresAt && (p.browserForegroundOnly ==> g.browserForegroundOnly)
    && Positive(g.caps) && Within(g.caps, p.maximum)
  }

  predicate MayVerify(s: Aggregate, id: AttemptId, verifier: PrincipalId, c: VerifierCapability, verdict: Verdict) {
    && s.attempt.Submitted? && s.attempt.attempt.id == id && verifier != s.attempt.result.producer
    && Entitles(c, s.nodeId, id, verifier, s.observedAt)
    && (verdict.Reject? ==> verdict.code != "")
  }

  /** The exact condition under which the command is accepted. */
  predicate May(p: EnginePolicy, s: Aggregate, c: Command) {
    match c
    case GrantConsent(g) => MayGrant(p, s, g)
    case ObserveTime(at) => s.observedAt <= at
    case OpenLease(l) =>
      && Consented(s) && !s.lease.Open? && l.id != "" && l.grantId == s.grant.value.id && l.generation == s.generation
      && Fitting(p, l.mode) && Positive(l.resources) && Within(l.resources, s.grant.value.caps)
    case OfferAssignment(a) =>
      && Consented(s) && s.lease.Open? && !Busy(s) && p.maximumOutstandingAssignments > 0
      && a.leaseId == s.lease.lease.id && a.generation == s.generation
      && a.id != "" && a.requester != "" && a.workloadDigest != ""
      && Fitting(p, a.mode) && Positive(a.resources) && Within(a.resources, s.lease.lease.resources)
    case StartAttempt(id, assignment) =>
      && Consented(s) && s.lease.Open? && s.attempt.Offered? && id != ""
      && s.attempt.assignment.id == assignment && s.attempt.assignment.leaseId == s.lease.lease.id
    case SubmitResult(id, r) =>
      && Consented(s) && s.lease.Open? && s.attempt.Running? && s.attempt.attempt.id == id
      && r.producer == s.grant.value.principal == s.attempt.attempt.producer && r.digest != ""
      && Positive(r.usage) && Within(r.usage, s.attempt.attempt.resources)
    case VerifyResult(id, verifier, cap, verdict) => MayVerify(s, id, verifier, cap, verdict)
    case PrepareSettlement(settlement, id, credits) =>
      && s.attempt.Verified? && s.attempt.attempt.id == id && s.settlement.NoSettlement?
      && settlement != "" && credits > 0 && s.grant.Some?
    case RecordSettlementReceipt(r) =>
      && s.settlement.Prepared? && r.settlementId == s.settlement.plan.id
      && r.serviceCredits == s.settlement.plan.serviceCredits && r.externalReference != ""
    case RevokeConsent(id, reason) => Consented(s) && s.grant.value.id == id && reason != ""
  }

  lemma CapsMean(c: ResourceCaps, upper: ResourceCaps)
    ensures OrElse(CheckPositive(c), CheckWithin(c, upper)).None? <==> Positive(c) && Within(c, upper)
  {
  }

  /** A command is accepted exactly if it may be: nothing more is demanded, and nothing less. */
  lemma AcceptsExactly(s: Aggregate, p: EnginePolicy, key: IdempotencyKey, c: Command, generation: U64)
    ensures Decide(s, p, key, c, generation).Ok? <==> May(p, s, c)
  {
    hide StopEvents, StopEffect;
    match c
    case GrantConsent(g) => CapsMean(g.caps, p.maximum);
    case OpenLease(l) =>
      if s.grant.Some? {
        CapsMean(l.resources, s.grant.value.caps);
      }
    case OfferAssignment(a) =>
      if s.lease.Open? {
        CapsMean(a.resources, s.lease.lease.resources);
      }
    case SubmitResult(_, r) =>
      if s.attempt.Running? {
        CapsMean(r.usage, s.attempt.attempt.resources);
      }
    case _ =>
  }

  // ---- Rejections ----

  /** What is asked for, and the bound it has to keep, for commands that ask for resources. */
  function Bounds(p: EnginePolicy, s: Aggregate, c: Command): (r: Option<(ResourceCaps, ResourceCaps)>) {
    match c
    case GrantConsent(g) => Some((g.caps, p.maximum))
    case OpenLease(l) => if s.grant.Some? then Some((l.resources, s.grant.value.caps)) else None
    case OfferAssignment(a) => if s.lease.Open? then Some((a.resources, s.lease.lease.resources)) else None
    case SubmitResult(_, r) => if s.attempt.Running? then Some((r.usage, s.attempt.attempt.resources)) else None
    case _ => None
  }

  /** The named resource is asked for beyond its bound. */
  predicate Exceeds(p: EnginePolicy, s: Aggregate, c: Command, scope: Scope) {
    match scope
    case BackgroundExecution => p.browserForegroundOnly
    case PolicyHash => c.GrantConsent? && c.grant.policyHash != p.policyHash
    case _ =>
      && Bounds(p, s, c).Some?
      && var (asked, bound) := Bounds(p, s, c).value;
         match scope
         case Workers => asked.workers > bound.workers
         case DutyCycle => asked.dutyCyclePercent > bound.dutyCyclePercent
         case MemoryMib => asked.memoryMib > bound.memoryMib
         case NetworkBytes => asked.networkBytes > bound.networkBytes
         case _ => asked.gpu && !bound.gpu
  }

  /** The named failure of authority holds of the verdict or the result. */
  predicate Lacks(s: Aggregate, c: Command, failure: AuthorizationFailure) {
    match c
    case VerifyResult(id, verifier, cap, _) =>
      s.attempt.Submitted? &&
      (match failure
       case ProducerIsVerifier => verifier == s.attempt.result.producer
       case CapabilitySubjectMismatch => cap.subject != verifier
       case CapabilityNodeMismatch => cap.nodeId != s.nodeId
       case CapabilityAttemptMismatch => cap.attemptId != s.attempt.attempt.id
       case CapabilityNotYetValid => s.observedAt < cap.notBefore
       case CapabilityExpired => cap.expiresAt <= s.observedAt
       case ResultProducerMismatch => false)
    case SubmitResult(_, r) =>
      failure == ResultProducerMismatch && s.grant.Some? && s.attempt.Running?
      && (r.producer != s.grant.value.principal || r.producer != s.attempt.attempt.producer)
    case _ => false
  }

  /** What a rejection says is so. */
  predicate Blames(p: EnginePolicy, s: Aggregate, c: Command, r: Rejection) {
    match r
    case ConsentRequired => s.consent.Unseen? || s.grant.None?
    case ConsentTerminal(revoked) => if revoked then s.consent.Revoked? else s.consent.Expired?
    case LeaseRequired => !s.lease.Open?
    case ScopeExceeded(scope) => Exceeds(p, s, c, scope)
    case Unauthorized(failure) => Lacks(s, c, failure)
    case GrantExpired(expiresAt, observedAt) =>
      s.grant.Some? && expiresAt == s.grant.value.expiresAt && observedAt == s.observedAt && observedAt >= expiresAt
    case ResultUnverified => s.attempt.Offered? || s.attempt.Running? || s.attempt.Submitted?
    case InvalidTransition(_) =>
      (match c
       case GrantConsent(_) => s.consent.Active? || Busy(s) || s.settlement.Prepared?
       case OpenLease(_) => s.lease.Open?
       case OfferAssignment(_) => Busy(s) || p.maximumOutstandingAssignments == 0
       case StartAttempt(_, _) => !s.attempt.Offered?
       case SubmitResult(id, _) => !(s.attempt.Running? && s.attempt.attempt.id == id)
       case VerifyResult(id, _, _, _) => !(s.attempt.Submitted? && s.attempt.attempt.id == id)
       case PrepareSettlement(_, id, _) =>
         !(s.attempt.Verified? && s.attempt.attempt.id == id && s.settlement.NoSettlement?)
       case RecordSettlementReceipt(_) => !s.settlement.Prepared?
       case _ => false)
    case InvalidInput(_, problem) => Malformed(s, c, problem)
    case _ => false
  }

  /** The input has such a defect. */
  predicate Malformed(s: Aggregate, c: Command, problem: InputProblem) {
    match c
    case GrantConsent(g) =>
      (match problem
       case MustBeNonEmpty => g.id == "" || g.principal == "" || g.policyHash == ""
       case InvalidTimeRange => g.issuedAt >= g.expiresAt || g.issuedAt < s.observedAt
       case MustBePositive => !Positive(g.caps)
       case _ => false)
    case ObserveTime(at) => problem == InvalidTimeRange && at < s.observedAt
    case OpenLease(l) =>
      (match problem
       case MustBeNonEmpty => l.id == ""
       case MustBePositive => !Positive(l.resources)
       case DoesNotMatchRecordedValue =>
         l.generation != s.generation || (s.grant.Some? && l.grantId != s.grant.value.id)
       case _ => false)
    case OfferAssignment(a) =>
      (match problem
       case MustBeNonEmpty => a.id == "" || a.requester == "" || a.workloadDigest == ""
       case MustBePositive => !Positive(a.resources)
       case DoesNotMatchRecordedValue =>
         a.generation != s.generation || (s.lease.Open? && a.leaseId != s.lease.lease.id)
       case _ => false)
    case StartAttempt(id, assignment) =>
      problem == DoesNotMatchRecordedValue
      && (id == "" || (s.attempt.Offered? && (s.attempt.assignment.id != assignment
                                              || (s.lease.Open? && s.attempt.assignment.leaseId != s.lease.lease.id))))
    case SubmitResult(_, r) =>
      (problem == MustBeNonEmpty && r.digest == "") || (problem == MustBePositive && !Positive(r.usage))
    case VerifyResult(_, verifier, cap, verdict) =>
      || (problem == MustBeNonEmpty && (verifier == "" || cap.id == "" || verdict == Reject("")))
      || (problem == InvalidTimeRange && cap.notBefore >= cap.expiresAt)
    case PrepareSettlement(settlement, _, credits) => problem == MustBePositive && (settlement == "" || credits == 0)
    case RecordSettlementReceipt(r) =>
      problem == DoesNotMatchRecordedValue && s.settlement.Prepared?
      && (r.settlementId != s.settlement.plan.id || r.serviceCredits != s.settlement.plan.serviceCredits
          || r.externalReference == "")
    case RevokeConsent(id, reason) =>
      || (problem == MustBeNonEmpty && reason == "")
      || (problem == DoesNotMatchRecordedValue && s.grant.Some? && id != s.grant.value.id)
  }

  /** Every rejection of a command is true of it. */
  lemma RejectionsAreTrue(s: Aggregate, p: EnginePolicy, key: IdempotencyKey, c: Command, generation: U64)
    requires Decide(s, p, key, c, generation).Err?
    ensures Blames(p, s, c, Decide(s, p, key, c, generation).error)
  {
    hide Decide, Blames;
    match c
    case GrantConsent(_) => GrantRejections(s, p, key, c, generation);
    case OpenLease(_) => LeaseRejections(s, p, key, c, generation);
    case OfferAssignment(_) => OfferRejections(s, p, key, c, generation);
    case StartAttempt(_, _) => WorkRejections(s, p, key, c, generation);
    case SubmitResult(_, _) => WorkRejections(s, p, key, c, generation);
    case _ => OtherRejections(s, p, key, c, generation);
  }

  lemma GrantRejections(s: Aggregate, p: EnginePolicy, key: IdempotencyKey, c: Command, generation: U64)
    requires Decide(s, p, key, c, generation).Err? && c.GrantConsent?
    ensures Blames(p, s, c, Decide(s, p, key, c, generation).error)
  {
    hide StopEvents, StopEffect;
  }

  lemma LeaseRejections(s: Aggregate, p: EnginePolicy, key: IdempotencyKey, c: Command, generation: U64)
    requires Decide(s, p, key, c, generation).Err? && c.OpenLease?
    ensures Blames(p, s, c, Decide(s, p, key, c, generation).error)
  {
    hide StopEvents, StopEffect;
  }

  lemma OfferRejections(s: Aggregate, p: EnginePolicy, key: IdempotencyKey, c: Command, generation: U64)
    requires Decide(s, p, key, c, generation).Err? && c.OfferAssignment?
    ensures Blames(p, s, c, Decide(s, p, key, c, generation).error)
  {
    hide StopEvents, StopEffect;
  }

  lemma WorkRejections(s: Aggregate, p: EnginePolicy, key: IdempotencyKey, c: Command, generation: U64)
    requires Decide(s, p, key, c, generation).Err? && (c.StartAttempt? || c.SubmitResult?)
    ensures Blames(p, s, c, Decide(s, p, key, c, generation).error)
  {
    hide StopEvents, StopEffect;
  }

  lemma OtherRejections(s: Aggregate, p: EnginePolicy, key: IdempotencyKey, c: Command, generation: U64)
    requires Decide(s, p, key, c, generation).Err?
    requires || c.ObserveTime? || c.VerifyResult? || c.PrepareSettlement? || c.RecordSettlementReceipt?
             || c.RevokeConsent?
    ensures Blames(p, s, c, Decide(s, p, key, c, generation).error)
  {
    hide StopEvents, StopEffect;
  }

  /** The rejections that name a missing precondition occur exactly in their cases: consent that was never given or has
      ended, a closed lease, a result that is not verified yet, a producer that judges itself. */
  lemma MissingExactly(s: Aggregate, p: EnginePolicy, key: IdempotencyKey, c: Command, generation: U64)
    ensures var r := Decide(s, p, key, c, generation);
            && (NeedsConsent(c) ==>
                  && (r == Err(ConsentRequired) <==> s.consent.Unseen? || (s.consent.Active? && s.grant.None?))
                  && (r == Err(ConsentTerminal(true)) <==> s.consent.Revoked?)
                  && (r == Err(ConsentTerminal(false)) <==> s.consent.Expired?)
                  && ((r.Err? && r.error.GrantExpired?) <==> s.consent.Active? && s.grant.Some? && !Consented(s)))
            && (c.OfferAssignment? || c.StartAttempt? || c.SubmitResult? ==>
                  (r == Err(LeaseRequired) <==> Consented(s) && !s.lease.Open?))
            && (c.PrepareSettlement? ==>
                  (r == Err(ResultUnverified) <==> s.attempt.Offered? || s.attempt.Running? || s.attempt.Submitted?))
            && (c.VerifyResult? && s.attempt.Submitted? && s.attempt.attempt.id == c.attemptId ==>
                  (r == Err(Unauthorized(ProducerIsVerifier))
                   <==> c.verifier == s.attempt.result.producer != "" && c.capability.id != ""
                        && c.capability.notBefore < c.capability.expiresAt))
  {
    RejectionsNeverMissing(p, s, c);
    hide StopEvents, StopEffect, CheckPositive, CheckWithin, CheckMode;
  }

  /** Complaints about resources and execution modes are of their own kinds. */
  lemma RejectionsNeverMissing(p: EnginePolicy, s: Aggregate, c: Command)
    ensures forall caps :: CheckPositive(caps).Some? ==> CheckPositive(caps).value.InvalidInput?
    ensures forall caps, upper :: CheckWithin(caps, upper).Some? ==> CheckWithin(caps, upper).value.ScopeExceeded?
    ensures forall mode :: CheckMode(p, mode).Some? ==> CheckMode(p, mode).value.ScopeExceeded?
  {
  }

  predicate NeedsConsent(c: Command) {
    c.OpenLease? || c.OfferAssignment? || c.StartAttempt? || c.SubmitResult? || c.RevokeConsent?
  }

  /** The handler turns a command away exactly if its key is empty or used for something else, or it is new and either
      names another generation or may not be accepted. */
  lemma HandlesExactly(k: Kernel, e: CommandEnvelope)
    ensures Handled(k, e).1.Accepted? && !Handled(k, e).1.replayed
            <==> && e.key != "" && e.key !in k.inbox && May(k.policy, k.aggregate, e.command)
                 && e.generation == (if e.command.GrantConsent? then Following(k.aggregate.generation)
                                     else k.aggregate.generation)
    ensures e.key in k.inbox && e.key != "" ==>
              var known := k.inbox[e.key];
              if known.command == e.command && known.generation == e.generation
              then Handled(k, e).1.replayed && (Handled(k, e).1.Accepted? ==> Handled(k, e).1.effects == [])
              else Handled(k, e).1 == Rejected(IdempotencyConflict(e.key), false)
    ensures e.key !in k.inbox && e.key != "" ==>
              (Handled(k, e).1.Rejected? && Handled(k, e).1.reason.StaleGeneration?
               <==> e.generation != (if e.command.GrantConsent? then Following(k.aggregate.generation)
                                     else k.aggregate.generation))
  {
    AcceptsExactly(k.aggregate, k.policy, e.key, e.command, e.generation);
    if Decide(k.aggregate, k.policy, e.key, e.command, e.generation).Err? {
      RejectionsAreTrue(k.aggregate, k.policy, e.key, e.command, e.generation);
    }
    hide Decide, May, EvolvedAll;
  }
}
