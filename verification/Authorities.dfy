/** One validation authority as a transition system: its volatile state, the durable journal behind
    it, and the effect of each operation. The class in AuthorityNode.dfy implements these
    transitions; AuthorityRuns.dfy proves what whole runs of them keep. */
module Authorities {
  import opened Basics
  import opened Ledgers
  import opened Orders

  // ---- Epoch-change evidence ----

  datatype EpochProposal = EpochProposal(network: NetworkId, policy: Policy, epoch: nat,
                                         nextRoster: seq<(AuthorityId, Key)>)

  datatype EpochVote = EpochVote(authority: AuthorityId, committeeId: CommitteeId, epoch: nat,
                                 nextCommitteeId: CommitteeId, frontier: Frontier,
                                 frontierDigest: multiset<(AccountId, U64)>, signature: Signature)

  datatype EpochCert = EpochCert(epoch: nat, nextRoster: seq<(AuthorityId, Key)>,
                                 frontier: Frontier, votes: seq<EpochVote>)

  /** The digest sorts before hashing, so it identifies the frontier up to order. */
  function FrontierDigest(f: Frontier): (r: multiset<(AccountId, U64)>) { multiset(f) }

  datatype EpochState =
    | Active
    | Fencing(proposal: EpochProposal)
    | Installing(cert: EpochCert, next: Committee)

  // ---- Journal ----

  datatype SnapshotData = SnapshotData(accounts: seq<(AccountId, Account)>, locked: seq<Order>,
                                       confirmed: seq<((AccountId, U64), Order)>, epoch: nat)

  datatype Record =
    | Locked(order: Order)
    | Confirmed(order: Order)
    | Snapshot(data: SnapshotData)
    | EpochFence(proposal: EpochProposal)
    | EpochInstalled(cert: EpochCert)

  /** What stable storage did with a write. On an error the caller cannot tell whether the bytes
      became durable before the barrier failed. */
  datatype Io = Durable | LostOnError | WrittenOnError

  // ---- Authority state ----

  datatype Authority = Authority(
    id: AuthorityId, key: Key, policy: Policy, committeeId: CommitteeId,
    ledger: Ledger,
    locked: map<Slot, Order>,
    confirmed: map<(AccountId, U64), Order>,
    epoch: nat,
    epochState: EpochState,
    lastCert: Option<EpochCert>,
    poisoned: bool,
    journal: seq<Record>)

  /** What an authority is started from; a journal is bound to exactly these inputs. */
  datatype Origin = Origin(id: AuthorityId, key: Key, policy: Policy, committeeId: CommitteeId, genesis: Ledger)

  function Fresh(o: Origin): (r: Authority) {
    Authority(o.id, o.key, o.policy, o.committeeId, o.genesis, map[], map[], 0, Active, None, false, [])
  }

  /** Append a record; any error fail-stops the authority. */
  function Append(s: Authority, record: Record, io: Io): (r: Authority) {
    match io
    case Durable => s.(journal := s.journal + [record])
    case LostOnError => s.(poisoned := true)
    case WrittenOnError => s.(journal := s.journal + [record], poisoned := true)
  }

  // ---- Epoch helpers ----

  /** The ledger has reached at least every sequence number of the frontier. */
  predicate Covers(l: Ledger, f: Frontier) {
    forall i :: 0 <= i < |f| ==> NextSeq(l, f[i].0) >= f[i].1
  }

  predicate InstallCovered(s: Authority) {
    s.epochState.Installing? && Covers(s.ledger, s.epochState.cert.frontier)
  }

  /** The only transition that moves `epoch` and `committeeId`. */
  function CompleteInstall(s: Authority): (r: Authority) {
    if s.epochState.Installing? then
      s.(committeeId := s.epochState.next.Id(), epoch := s.epochState.cert.epoch, epochState := Active)
    else s
  }

  function CompleteIfCovered(s: Authority): (r: Authority) {
    if InstallCovered(s) then CompleteInstall(s) else s
  }

  // ---- handle ----

  datatype AuthorityError =
    | OwnerRefused(owner: OwnerAuthError)
    | Equivocation(account: AccountId, seqNo: U64)
    | NoSuchSender(account: AccountId)
    | ZeroAmount
    | OutOfOrder(account: AccountId, expected: U64, got: U64)
    | InsufficientBalance(account: AccountId, have: U128, need: U128)
    | SequenceSpent(account: AccountId)
    | CreditOverflow(account: AccountId, have: U128, credit: U128)
    | JournalFailed
    | Poisoned
    | EpochFencing(epoch: nat)
    | EpochCatchingUp(epoch: nat)

  function SignVote(s: Authority, o: Order): (r: Vote) {
    var payload := AuthorityVote(s.id, s.committeeId, o.policy, o.network, o.transfer, o.round);
    Vote(s.id, s.committeeId, o.policy, o.network, o.transfer, o.round, Sign(s.key, payload))
  }

  function FromReject(account: AccountId, r: Reject): (res: AuthorityError) {
    match r
    case UnknownSender => NoSuchSender(account)
    case StaleSequence(expected, got) => OutOfOrder(account, expected, got)
    case Insufficient(have, need) => InsufficientBalance(account, have, need)
    case SequenceExhausted(a) => SequenceSpent(a)
    case BalanceOverflow(a, have, credit) => CreditOverflow(a, have, credit)
  }

  /** Why an order gets no fresh lock, in guard order; `None` means it may be locked. */
  function AdmissionProblem(s: Authority, o: Order): (r: Option<AuthorityError>) {
    var t := o.transfer;
    if t.from !in s.ledger then Some(NoSuchSender(t.from))
    else if t.amount == 0 then Some(ZeroAmount)
    else match Preflight(s.ledger, t)
      case Some(reject) => Some(FromReject(t.from, reject))
      case None => None
  }

  /** Voting once the epoch gate is open. */
  function Admit(s: Authority, o: Order, io: Io): (r: (Authority, Result<Vote, AuthorityError>)) {
    var owner := VerifyOrder(s.policy, o);
    var slot := SlotOf(o);
    if owner.Some? then (s, Err(OwnerRefused(owner.value)))
    else if slot in s.locked then
      if s.locked[slot] == o then (s, Ok(SignVote(s, o)))
      else (s, Err(Equivocation(slot.account, slot.seqNo)))
    else
      var problem := AdmissionProblem(s, o);
      if problem.Some? then (s, Err(problem.value))
      else
        var s1 := Append(s, Locked(o), io);
        if io != Durable then (s1, Err(JournalFailed))
        else (s1.(locked := s1.locked[slot := o]), Ok(SignVote(s1, o)))
  }

  function Handle(s: Authority, o: Order, io: Io): (r: (Authority, Result<Vote, AuthorityError>)) {
    if s.poisoned then (s, Err(Poisoned))
    else if s.epochState.Fencing? then (s, Err(EpochFencing(s.epoch)))
    else if s.epochState.Installing? && !InstallCovered(s) then (s, Err(EpochCatchingUp(s.epoch)))
    else Admit(CompleteInstall(s), o, io)
  }

  // ---- confirm ----

  /** Proof minted by certificate verification. */
  datatype Verified = Verified(order: Order, committeeId: CommitteeId)

  datatype ConfirmOutcome = Applied | AlreadyApplied

  datatype ConfirmError =
    | ConfirmWrongCommittee
    | ConfirmWrongPolicy
    | ConfirmOwner(owner: OwnerAuthError)
    | State(reject: Reject)
    | ConfirmJournal
    | ConfirmPoisoned

  /** Trust-domain checks before any state is consulted. */
  function ConfirmGuard(s: Authority, v: Verified, c: Committee, member: bool): (r: Option<ConfirmError>) {
    if s.poisoned then Some(ConfirmPoisoned)
    else if v.committeeId != s.committeeId then Some(ConfirmWrongCommittee)
    else if c.Id() != s.committeeId then Some(ConfirmWrongCommittee)
    else if c.policy != s.policy then Some(ConfirmWrongPolicy)
    else if v.order.policy != s.policy then Some(ConfirmWrongPolicy)
    else if VerifyOrder(s.policy, v.order).Some? then Some(ConfirmOwner(VerifyOrder(s.policy, v.order).value))
    else if member && !(s.id in c.members && c.members[s.id] == s.key) then Some(ConfirmWrongCommittee)
    else None
  }

  /** Drop the locks of every round of one (account, sequence). */
  function Unlock(locked: map<Slot, Order>, account: AccountId, seqNo: U64): (r: map<Slot, Order>) {
    map k | k in locked && !(k.account == account && k.seqNo == seqNo) :: locked[k]
  }

  function Confirm(s: Authority, v: Verified, c: Committee, member: bool, io: Io)
    : (r: (Authority, Result<ConfirmOutcome, ConfirmError>))
  {
    var guard := ConfirmGuard(s, v, c, member);
    var t := v.order.transfer;
    var spent := (t.from, t.fromSeq);
    if guard.Some? then (s, Err(guard.value))
    else if spent in s.confirmed then
      if s.confirmed[spent] == v.order then (s, Ok(AlreadyApplied))
      else (s, Err(State(StaleSequence(NextSeq(s.ledger, t.from), t.fromSeq))))
    else match Apply(s.ledger, t)
      case Err(reject) => (s, Err(State(reject)))
      case Ok(l) =>
        var s1 := Append(s.(ledger := l), Confirmed(v.order), io);
        if io != Durable then (s1, Err(ConfirmJournal))
        else
          (CompleteIfCovered(s1.(confirmed := s1.confirmed[spent := v.order],
                                 locked := Unlock(s1.locked, t.from, t.fromSeq))),
           Ok(Applied))
  }

  // ---- epoch change ----

  datatype EpochError = Invalid | JournalError | EpochPoisoned | NotFencing | ConflictingCert

  datatype FenceOutcome =
    | Fenced(nextCommitteeId: CommitteeId)
    | AlreadyFenced
    | FenceStaleEpoch(expected: nat, got: nat)
    | IgnoredConflictingProposal
    | IgnoredInstalling

  function Fence(s: Authority, p: EpochProposal, io: Io): (r: (Authority, Result<FenceOutcome, EpochError>)) {
    var next := BuildCommittee(p.nextRoster, s.policy, p.epoch);
    if s.poisoned then (s, Err(EpochPoisoned))
    else if s.epochState.Installing? then (s, Ok(IgnoredInstalling))
    else if p.epoch != s.epoch + 1 then (s, Ok(FenceStaleEpoch(s.epoch + 1, p.epoch)))
    else if p.policy != s.policy then (s, Err(Invalid))
    else if next.None? then (s, Err(Invalid))
    else if s.epochState.Fencing? then
      (s, Ok(if s.epochState.proposal == p then AlreadyFenced else IgnoredConflictingProposal))
    else
      var s1 := Append(s, EpochFence(p), io);
      if io != Durable then (s1, Err(JournalError))
      else (s1.(epochState := Fencing(p)), Ok(Fenced(next.value.Id())))
  }

  /** `f` lists the next sequence number of every account of the ledger. */
  ghost predicate ListsFrontier(f: Frontier, l: Ledger) {
    Enumerates(f, map id | id in l :: l[id].nextSeq)
  }

  /** Assent to the fenced change over the signer's own frontier `f`. Only a fenced authority signs; unlike the
      other operations this one does not look at the fail-stop flag. */
  function SignEpochVote(s: Authority, f: Frontier): (r: Result<EpochVote, EpochError>) {
    if !s.epochState.Fencing? then Err(NotFencing)
    else
      var p := s.epochState.proposal;
      match BuildCommittee(p.nextRoster, s.policy, p.epoch)
      case None => Err(Invalid)
      case Some(next) =>
        var digest := FrontierDigest(f);
        Ok(EpochVote(s.id, s.committeeId, p.epoch, next.Id(), f, digest,
                     Sign(s.key, EpochAssent(s.id, s.committeeId, p.epoch, next.Id(), digest))))
  }

  function EpochPayload(v: EpochVote): (r: Payload) {
    EpochAssent(v.authority, v.committeeId, v.epoch, v.nextCommitteeId, v.frontierDigest)
  }

  /** One epoch vote belongs to the certificate and is signed by a member of the old committee. */
  predicate EpochVoteValid(v: EpochVote, cert: EpochCert, nextId: CommitteeId, prior: Committee) {
    && v.epoch == cert.epoch
    && v.committeeId == prior.Id()
    && v.nextCommitteeId == nextId
    && v.frontierDigest == FrontierDigest(cert.frontier)
    && v.authority in prior.members
    && FrontierDigest(v.frontier) == v.frontierDigest
    && Verifies(prior.members[v.authority], EpochPayload(v), v.signature)
  }

  function EpochVoters(votes: seq<EpochVote>): (r: set<AuthorityId>) {
    set i | 0 <= i < |votes| :: votes[i].authority
  }

  /** The first `n` epoch votes are valid and come from distinct members. */
  predicate EpochVotesGood(cert: EpochCert, nextId: CommitteeId, prior: Committee, n: nat)
    requires n <= |cert.votes|
  {
    n == 0 || (&& EpochVotesGood(cert, nextId, prior, n - 1)
               && EpochVoteValid(cert.votes[n - 1], cert, nextId, prior)
               && cert.votes[n - 1].authority !in EpochVoters(cert.votes[..n - 1]))
  }

  /** A quorum of the old committee assents to the certificate's roster and frontier. */
  predicate EpochCertified(cert: EpochCert, nextId: CommitteeId, prior: Committee) {
    && EpochVotesGood(cert, nextId, prior, |cert.votes|)
    && |EpochVoters(cert.votes)| >= prior.QuorumSize()
  }

  datatype InstallOutcome =
    | Installed
    | StillInstalling
    | AlreadyInstalled
    | InstallStaleEpoch(expected: nat, got: nat)

  /** Journal the certificate, release every lock, and complete at once if already covered. */
  function EnterEpoch(s: Authority, cert: EpochCert, next: Committee, io: Io)
    : (r: (Authority, Result<InstallOutcome, EpochError>))
  {
    var s1 := Append(s, EpochInstalled(cert), io);
    if io != Durable then (s1, Err(JournalError))
    else
      var s2 := s1.(locked := map[], lastCert := Some(cert), epochState := Installing(cert, next));
      if InstallCovered(s2) then (CompleteInstall(s2), Ok(Installed)) else (s2, Ok(StillInstalling))
  }

  /** Why a certificate is refused before the authority's own epoch state is consulted. */
  function InstallGuard(s: Authority, cert: EpochCert, prior: Committee): (r: Option<Result<InstallOutcome,
                        EpochError>>) {
    var next := BuildCommittee(cert.nextRoster, s.policy, cert.epoch);
    if s.poisoned then Some(Err(EpochPoisoned))
    else if prior.Id() != s.committeeId then Some(Err(Invalid))
    else if cert.epoch != s.epoch + 1 then Some(Ok(InstallStaleEpoch(s.epoch + 1, cert.epoch)))
    else if next.None? then Some(Err(Invalid))
    else if !EpochCertified(cert, next.value.Id(), prior) then Some(Err(Invalid))
    else None
  }

  function Install(s: Authority, cert: EpochCert, prior: Committee, io: Io)
    : (r: (Authority, Result<InstallOutcome, EpochError>))
  {
    var guard := InstallGuard(s, cert, prior);
    if guard.Some? then (s, guard.value)
    else
      var next := BuildCommittee(cert.nextRoster, s.policy, cert.epoch).value;
      if !s.epochState.Installing? then EnterEpoch(s, cert, next, io)
      else if s.epochState.next.Id() != next.Id()
              || FrontierDigest(s.epochState.cert.frontier) != FrontierDigest(cert.frontier)
              || s.epochState.cert.epoch != cert.epoch
      then (s.(poisoned := true), Err(ConflictingCert))
      else (s, Ok(AlreadyInstalled))
  }

  // ---- snapshots ----

  function LockPairs(orders: seq<Order>): (r: seq<(Slot, Order)>) {
    seq(|orders|, i requires 0 <= i < |orders| => (SlotOf(orders[i]), orders[i]))
  }

  /** Every lock is filed under the slot of the order it holds. */
  predicate LocksKeyed(s: Authority) {
    forall k :: k in s.locked ==> SlotOf(s.locked[k]) == k
  }

  /** `sn` captures `s`; hash-map iteration makes every listing order possible. */
  ghost predicate Captures(sn: SnapshotData, s: Authority) {
    && Enumerates(sn.accounts, s.ledger)
    && Enumerates(LockPairs(sn.locked), s.locked)
    && Enumerates(sn.confirmed, s.confirmed)
    && sn.epoch == s.epoch
  }

  /** Replace the log by one snapshot. The swap is atomic: after an error the old or the new log
      is in place. Unlike every other operation this one does not refuse a poisoned authority. */
  function Compact(s: Authority, sn: SnapshotData, io: Io): (r: (Authority, Result<(), AuthorityError>)) {
    if !s.epochState.Active? then (s, Err(EpochFencing(s.epoch)))
    else match io
      case Durable => (s.(journal := [Snapshot(sn)]), Ok(()))
      case LostOnError => (s.(poisoned := true), Err(JournalFailed))
      case WrittenOnError => (s.(journal := [Snapshot(sn)], poisoned := true), Err(JournalFailed))
  }

  // ---- recovery ----

  datatype Corrupt = SnapshotInvalid(error: GenesisError) | DoesNotApply(reject: Reject) | BadRoster

  /** Fold one journal record into the state being rebuilt. */
  function ReplayRecord(s: Authority, r: Record): (res: Result<Authority, Corrupt>) {
    var s := s.(journal := s.journal + [r]);
    match r
    case Snapshot(sn) =>
      (match Restore(sn.accounts)
       case Err(e) => Err(SnapshotInvalid(e))
       case Ok(l) =>
         Ok(s.(ledger := l, locked := Collect(LockPairs(sn.locked)), confirmed := Collect(sn.confirmed),
               epoch := sn.epoch, epochState := Active)))
    case Locked(o) => Ok(s.(locked := s.locked[SlotOf(o) := o]))
    case Confirmed(o) =>
      var t := o.transfer;
      (match Apply(s.ledger, t)
       case Err(reject) => Err(DoesNotApply(reject))
       case Ok(l) =>
         Ok(s.(ledger := l, confirmed := s.confirmed[(t.from, t.fromSeq) := o],
               locked := Unlock(s.locked, t.from, t.fromSeq))))
    case EpochFence(p) => Ok(s.(epochState := Fencing(p)))
    case EpochInstalled(cert) =>
      (match BuildCommittee(cert.nextRoster, s.policy, cert.epoch)
       case None => Err(BadRoster)
       case Some(next) =>
         Ok(CompleteIfCovered(s.(locked := map[], lastCert := Some(cert), epochState := Installing(cert, next)))))
  }

  /** Rebuild an authority by folding a journal over its genesis. */
  function Replay(o: Origin, records: seq<Record>): (r: Result<Authority, Corrupt>) {
    if records == [] then Ok(Fresh(o))
    else match Replay(o, records[..|records| - 1])
      case Err(e) => Err(e)
      case Ok(s) => ReplayRecord(s, records[|records| - 1])
  }

  // ---- attestation ----

  /** An authority attests exactly the order it applied at the slot, if any. */
  function AttestationFor(s: Authority, account: AccountId, seqNo: U64): (r: Option<Attestation>) {
    if (account, seqNo) in s.confirmed then
      var o := s.confirmed[(account, seqNo)];
      Some(Attestation(s.id, s.committeeId, account, seqNo, o,
                       Sign(s.key, Effect(s.committeeId, account, seqNo, o))))
    else None
  }
}
