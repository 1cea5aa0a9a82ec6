/** What each operation of an authority accepts, refuses and changes, in terms of the order, the evidence and the
    state alone. */
module AuthorityContracts {
  import opened Basics
  import opened Ledgers
  import opened Orders
  import opened Authorities

  // ---- Epoch certificates ----

  /** The epoch vote belongs to the certificate and is signed by the prior member it names. */
  predicate Assents(v: EpochVote, cert: EpochCert, nextId: CommitteeId, prior: Committee) {
    && v.epoch == cert.epoch && v.nextCommitteeId == nextId
    && v.committeeId.policy == prior.policy && v.committeeId.roster == prior.members
    && v.frontierDigest == multiset(cert.frontier) == multiset(v.frontier)
    && v.authority in prior.members && v.signature.signer == prior.members[v.authority]
    && v.signature.payload == EpochAssent(v.authority, v.committeeId, cert.epoch, nextId, multiset(cert.frontier))
  }

  /** As many distinct prior members as make a quorum signed this roster over this frontier. */
  ghost predicate QuorumAssents(cert: EpochCert, nextId: CommitteeId, prior: Committee) {
    && (forall i :: 0 <= i < |cert.votes| ==> Assents(cert.votes[i], cert, nextId, prior))
    && (forall i, j :: 0 <= i < j < |cert.votes| ==> cert.votes[i].authority != cert.votes[j].authority)
    && |cert.votes| >= Quorums.Quorum(|prior.members|)
  }

  lemma AssentsIsValid(v: EpochVote, cert: EpochCert, nextId: CommitteeId, prior: Committee)
    ensures EpochVoteValid(v, cert, nextId, prior) == Assents(v, cert, nextId, prior)
  {
  }

  lemma VoterAmong(votes: seq<EpochVote>, n: nat, a: AuthorityId)
    requires n <= |votes|
    ensures a in EpochVoters(votes[..n]) <==> exists i :: 0 <= i < n && votes[i].authority == a
  {
    if i :| 0 <= i < n && votes[i].authority == a {
      assert votes[..n][i].authority == a;
    }
  }

  lemma {:induction false} GoodMeans(cert: EpochCert, nextId: CommitteeId, prior: Committee, n: nat)
    requires n <= |cert.votes|
    ensures EpochVotesGood(cert, nextId, prior, n)
            <==> && (forall i :: 0 <= i < n ==> Assents(cert.votes[i], cert, nextId, prior))
                 && (forall i, j :: 0 <= i < j < n ==> cert.votes[i].authority != cert.votes[j].authority)
    decreases n
  {
    hide EpochVoteValid, Assents, EpochVoters;
    if n > 0 {
      GoodMeans(cert, nextId, prior, n - 1);
      AssentsIsValid(cert.votes[n - 1], cert, nextId, prior);
      VoterAmong(cert.votes, n - 1, cert.votes[n - 1].authority);
    }
  }

  lemma {:induction false} VoterCount(votes: seq<EpochVote>)
    requires forall i, j :: 0 <= i < j < |votes| ==> votes[i].authority != votes[j].authority
    ensures |EpochVoters(votes)| == |votes|
    decreases |votes|
  {
    if votes != [] {
      var init, last := votes[..|votes| - 1], votes[|votes| - 1].authority;
      VoterCount(init);
      forall a | a in EpochVoters(votes)
        ensures a in EpochVoters(init) + {last}
      {
        var i :| 0 <= i < |votes| && votes[i].authority == a;
        assert i < |init| ==> init[i].authority == a;
      }
      forall a | a in EpochVoters(init)
        ensures a in EpochVoters(votes) && a != last
      {
        var i :| 0 <= i < |init| && init[i].authority == a;
        assert votes[i].authority == a;
      }
      assert EpochVoters(votes) == EpochVoters(init) + {last};
    }
  }

  /** An epoch certificate passes exactly on a quorum of distinct, signed assents of the prior committee. */
  lemma EpochCertifiedExactly(cert: EpochCert, nextId: CommitteeId, prior: Committee)
    ensures EpochCertified(cert, nextId, prior) <==> QuorumAssents(cert, nextId, prior)
  {
    GoodMeans(cert, nextId, prior, |cert.votes|);
    if EpochVotesGood(cert, nextId, prior, |cert.votes|) {
      VoterCount(cert.votes);
    }
    hide Assents, EpochVotesGood;
  }

  // ---- Voting ----

  /** Every account has reached the frontier that the authority waits for. */
  predicate Reached(s: Authority) {
    s.epochState.Installing? && forall i :: 0 <= i < |s.epochState.cert.frontier| ==>
      NextSeq(s.ledger, s.epochState.cert.frontier[i].0) >= s.epochState.cert.frontier[i].1
  }

  /** The gate that an epoch change closes is open, or opens now. */
  predicate GateOpen(s: Authority) {
    !s.poisoned && (s.epochState.Active? || Reached(s))
  }

  predicate Held(s: Authority, o: Order) {
    Slot(o.transfer.from, o.transfer.fromSeq, o.round) in s.locked
  }

  function HeldFor(s: Authority, o: Order): (r: Order)
    requires Held(s, o)
  {
    s.locked[Slot(o.transfer.from, o.transfer.fromSeq, o.round)]
  }

  /** A vote is signed exactly behind an open gate, for an order that its owner signed, and that the slot's lock
      already holds or that is payable, positive, and locked durably first. */
  lemma SignsExactly(s: Authority, o: Order, io: Io)
    ensures Handle(s, o, io).1.Ok? <==>
              && GateOpen(s) && OwnerSigned(s.policy, o)
              && (if Held(s, o) then HeldFor(s, o) == o
                  else o.transfer.amount > 0 && Payable(s.ledger, o.transfer) && io == Durable)
    ensures Handle(s, o, io).1.Ok? ==>
              var v := Handle(s, o, io).1.value;
              && v.authority == s.id && v.policy == o.policy && v.network == o.network
              && v.transfer == o.transfer && v.round == o.round
              && v.signature.signer == s.key
              && v.signature.payload == AuthorityVote(s.id, v.committeeId, o.policy, o.network, o.transfer, o.round)
              && v.committeeId == (if s.epochState.Active? then s.committeeId else s.epochState.next.Id())
  {
    OwnerCheckExactly(s.policy, o);
    PreflightExactly(s.ledger, o.transfer);
    hide VerifyOrder, OwnerSigned, Preflight, Payable;
  }

  /** What voting changes: a waiting install that is covered completes, and a fresh lock is journalled and kept;
      a failed append leaves the lock out and the authority stopped. */
  lemma VotingChanges(s: Authority, o: Order, io: Io)
    ensures var (s', r) := Handle(s, o, io);
            if !GateOpen(s) then s' == s
            else
              var t := if s.epochState.Active? then s
                       else s.(committeeId := s.epochState.next.Id(), epoch := s.epochState.cert.epoch,
                               epochState := Active);
              var slot := Slot(o.transfer.from, o.transfer.fromSeq, o.round);
              if Held(s, o) || (r.Err? && r != Err(JournalFailed)) then s' == t
              else s' == t.(locked := if io == Durable then s.locked[slot := o] else s.locked,
                            journal := if io == LostOnError then s.journal else s.journal + [Locked(o)],
                            poisoned := io != Durable)
  {
    hide VerifyOrder, Preflight;
  }

  /** The gate and the owner check refuse exactly in their cases. */
  lemma GateRefusals(s: Authority, o: Order, io: Io)
    ensures var r := Handle(s, o, io).1;
            && (r == Err(Poisoned) <==> s.poisoned)
            && (r == Err(EpochFencing(s.epoch)) <==> !s.poisoned && s.epochState.Fencing?)
            && (r == Err(EpochCatchingUp(s.epoch)) <==> !s.poisoned && s.epochState.Installing? && !Reached(s))
            && ((r.Err? && r.error.OwnerRefused?) <==> GateOpen(s) && !OwnerSigned(s.policy, o))
  {
    OwnerCheckExactly(s.policy, o);
    hide VerifyOrder, OwnerSigned, Preflight;
  }

  /** Behind an open gate an order of its owner is refused exactly in these cases. */
  lemma OrderRefusals(s: Authority, o: Order, io: Io)
    requires GateOpen(s) && OwnerSigned(s.policy, o)
    ensures var r, t := Handle(s, o, io).1, o.transfer;
            && (r == Err(Equivocation(t.from, t.fromSeq)) <==> Held(s, o) && HeldFor(s, o) != o)
            && (r == Err(NoSuchSender(t.from)) <==> !Held(s, o) && t.from !in s.ledger)
            && (r == Err(ZeroAmount) <==> !Held(s, o) && t.from in s.ledger && t.amount == 0)
            && ((r.Err? && (|| r.error.OutOfOrder? || r.error.InsufficientBalance? || r.error.SequenceSpent?
                            || r.error.CreditOverflow?))
                <==> !Held(s, o) && t.from in s.ledger && t.amount > 0 && !Payable(s.ledger, t))
            && (r == Err(JournalFailed) <==> !Held(s, o) && t.amount > 0 && Payable(s.ledger, t) && io != Durable)
  {
    OwnerCheckExactly(s.policy, o);
    PreflightExactly(s.ledger, o.transfer);
    var r := Handle(s, o, io).1;
    assert r == Admit(CompleteInstall(s), o, io).1;
    hide Handle, VerifyOrder, OwnerSigned, Preflight, Payable;
  }

  // ---- Confirming ----

  /** The proof is for the authority's own committee, which judges it under its own policy, and the order is its
      owner's. */
  predicate Presentable(s: Authority, v: Verified, c: Committee, member: bool) {
    && !s.poisoned && v.committeeId == s.committeeId
    && s.committeeId.policy == c.policy == s.policy && s.committeeId.roster == c.members
    && OwnerSigned(s.policy, v.order)
    && (member ==> s.id in c.members && c.members[s.id] == s.key)
  }

  /** A certificate is applied exactly if it is presentable, its sequence is not confirmed yet, the transfer is
      payable and the record is durable; a repeat of the confirmed order changes nothing. */
  lemma ConfirmsExactly(s: Authority, v: Verified, c: Committee, member: bool, io: Io)
    ensures var (s', r) := Confirm(s, v, c, member, io);
            var spent := (v.order.transfer.from, v.order.transfer.fromSeq);
            && (r == Ok(Applied) <==> Presentable(s, v, c, member) && spent !in s.confirmed
                                      && Payable(s.ledger, v.order.transfer) && io == Durable)
            && (r == Ok(AlreadyApplied) <==> Presentable(s, v, c, member) && spent in s.confirmed
                                             && s.confirmed[spent] == v.order)
            && ((r.Err? && r.error.State?) <==>
                  Presentable(s, v, c, member) && (if spent in s.confirmed then s.confirmed[spent] != v.order
                                                   else !Payable(s.ledger, v.order.transfer)))
            && (r == Err(ConfirmJournal) <==> Presentable(s, v, c, member) && spent !in s.confirmed
                                              && Payable(s.ledger, v.order.transfer) && io != Durable)
            && (r == Err(ConfirmPoisoned) <==> s.poisoned)
            && (r == Err(ConfirmWrongPolicy) ==> c.policy != s.policy || v.order.policy != s.policy)
            && (r == Err(ConfirmWrongCommittee) ==>
                  || v.committeeId != s.committeeId || s.committeeId != c.Id()
                  || (member && !(s.id in c.members && c.members[s.id] == s.key)))
            && ((r.Err? && r.error.ConfirmOwner?) ==> !OwnerSigned(s.policy, v.order))
  {
    OwnerCheckExactly(s.policy, v.order);
    PreflightExactly(s.ledger, v.order.transfer);
    hide VerifyOrder, OwnerSigned, Preflight, Payable, Unlock;
  }

  /** What confirming changes: the ledger makes the transfer, the order is remembered, the locks of its sequence go
      in every round, and a waiting install that is now covered completes. */
  lemma ConfirmingChanges(s: Authority, v: Verified, c: Committee, member: bool, io: Io)
    ensures var (s', r) := Confirm(s, v, c, member, io);
            var t := v.order.transfer;
            && (r == Ok(Applied) ==>
                  && Apply(s.ledger, t) == Ok(s'.ledger)
                  && s'.confirmed == s.confirmed[(t.from, t.fromSeq) := v.order]
                  && (forall k :: k in s'.locked <==> k in s.locked && !(k.account == t.from && k.seqNo == t.fromSeq))
                  && (forall k :: k in s'.locked ==> s'.locked[k] == s.locked[k])
                  && s'.journal == s.journal + [Confirmed(v.order)] && !s'.poisoned
                  && (if Reached(s.(ledger := s'.ledger))
                      then s'.epochState == Active && s'.epoch == s.epochState.cert.epoch
                           && s'.committeeId == s.epochState.next.Id()
                      else s'.epochState == s.epochState && s'.epoch == s.epoch && s'.committeeId == s.committeeId))
            && (r.Ok? && r != Ok(Applied) ==> s' == s)
            && (r.Err? && r != Err(ConfirmJournal) ==> s' == s)
            && (r == Err(ConfirmJournal) ==> s'.poisoned && s'.confirmed == s.confirmed && s'.locked == s.locked)
  {
    hide VerifyOrder, Apply;
  }

  // ---- Restart ----

  /** What one replayed record does, and when the log is corrupt. An installed certificate is complete at once exactly
      if the ledger rebuilt so far has reached its frontier. */
  lemma ReplaysExactly(s: Authority, rec: Record)
    ensures var r := ReplayRecord(s, rec);
            var t := s.(journal := s.journal + [rec]);
            match rec
            case Locked(o) =>
              r == Ok(t.(locked := s.locked[Slot(o.transfer.from, o.transfer.fromSeq, o.round) := o]))
            case EpochFence(p) => r == Ok(t.(epochState := Fencing(p)))
            case Confirmed(o) =>
              && (r.Ok? <==> Payable(s.ledger, o.transfer))
              && (r.Ok? ==>
                    && Apply(s.ledger, o.transfer) == Ok(r.value.ledger)
                    && r.value == t.(ledger := r.value.ledger, locked := r.value.locked,
                                     confirmed := s.confirmed[(o.transfer.from, o.transfer.fromSeq) := o])
                    && (forall k :: k in r.value.locked <==>
                          k in s.locked && !(k.account == o.transfer.from && k.seqNo == o.transfer.fromSeq))
                    && (forall k :: k in r.value.locked ==> r.value.locked[k] == s.locked[k]))
            case EpochInstalled(cert) =>
              && (r.Ok? <==> cert.nextRoster != [] && ProperRoster(cert.nextRoster))
              && (r.Ok? ==>
                    && BuildCommittee(cert.nextRoster, s.policy, cert.epoch).Some?
                    && var next := BuildCommittee(cert.nextRoster, s.policy, cert.epoch).value;
                       var u := t.(locked := map[], lastCert := Some(cert));
                       r.value == if Reached(s.(epochState := Installing(cert, next)))
                                  then u.(committeeId := next.Id(), epoch := cert.epoch, epochState := Active)
                                  else u.(epochState := Installing(cert, next)))
            case Snapshot(sn) =>
              && (r.Ok? <==> Restore(sn.accounts).Ok?)
              && (r.Ok? ==> r.value.epoch == sn.epoch && r.value.epochState == Active
                            && Restore(sn.accounts) == Ok(r.value.ledger)
                            && r.value == t.(ledger := r.value.ledger, locked := r.value.locked,
                                             confirmed := r.value.confirmed, epoch := sn.epoch, epochState := Active))
  {
    match rec
    case Confirmed(o) => PreflightExactly(s.ledger, o.transfer);
    case EpochInstalled(cert) => CommitteeBuilds(cert.nextRoster, s.policy, cert.epoch);
    case _ =>
    hide Preflight, Payable, BuildCommittee, ProperRoster, Restore, Enumerates;
  }

  // ---- Epoch changes ----

  /** A proposal raises the fence exactly in a running authority with an open gate, for the next epoch, under its
      own policy, with a proper roster, and durably. */
  lemma FencesExactly(s: Authority, p: EpochProposal, io: Io)
    ensures var (s', r) := Fence(s, p, io);
            var due := !s.poisoned && !s.epochState.Installing? && p.epoch == s.epoch + 1 && p.policy == s.policy
                       && p.nextRoster != [] && ProperRoster(p.nextRoster);
            && ((r.Ok? && r.value.Fenced?) <==> due && s.epochState.Active? && io == Durable)
            && (r == Err(JournalError) <==> due && s.epochState.Active? && io != Durable)
            && (r == Ok(AlreadyFenced) <==> due && s.epochState.Fencing? && s.epochState.proposal == p)
            && (r == Ok(IgnoredConflictingProposal) <==> due && s.epochState.Fencing? && s.epochState.proposal != p)
            && (r == Ok(IgnoredInstalling) <==> !s.poisoned && s.epochState.Installing?)
            && (r == Ok(FenceStaleEpoch(s.epoch + 1, p.epoch)) <==>
                  !s.poisoned && !s.epochState.Installing? && p.epoch != s.epoch + 1)
            && (r == Err(EpochPoisoned) <==> s.poisoned)
            && (if r.Ok? && r.value.Fenced?
                then s' == s.(epochState := Fencing(p), journal := s.journal + [EpochFence(p)])
                     && Enumerates(p.nextRoster, r.value.nextCommitteeId.roster)
                     && r.value.nextCommitteeId.policy == s.policy
                else r == Err(JournalError) || s' == s)
  {
    CommitteeBuilds(p.nextRoster, s.policy, p.epoch);
    hide BuildCommittee, ProperRoster, Enumerates;
  }

  lemma CommitteeBuilds(roster: seq<(AuthorityId, Key)>, policy: Policy, epoch: nat)
    ensures BuildCommittee(roster, policy, epoch).Some? <==> roster != [] && ProperRoster(roster)
    ensures BuildCommittee(roster, policy, epoch).Some? ==>
              var c := BuildCommittee(roster, policy, epoch).value;
              Enumerates(roster, c.members) && c.policy == policy && c.epoch == epoch
  {
    RosterExactly(roster);
    hide BuildRoster, ProperRoster, Enumerates;
  }

  /** The certificate is for the next epoch of the authority's own committee, and a quorum of it assents. */
  ghost predicate Installable(s: Authority, cert: EpochCert, prior: Committee) {
    && !s.poisoned && s.committeeId.policy == prior.policy && s.committeeId.roster == prior.members
    && cert.epoch == s.epoch + 1 && cert.nextRoster != [] && ProperRoster(cert.nextRoster)
    && BuildCommittee(cert.nextRoster, s.policy, cert.epoch).Some?
    && QuorumAssents(cert, BuildCommittee(cert.nextRoster, s.policy, cert.epoch).value.Id(), prior)
  }

  lemma GuardMeans(s: Authority, cert: EpochCert, prior: Committee)
    ensures InstallGuard(s, cert, prior).None? <==> Installable(s, cert, prior)
    ensures InstallGuard(s, cert, prior) == Some(Ok(InstallStaleEpoch(s.epoch + 1, cert.epoch)))
            <==> !s.poisoned && s.committeeId == prior.Id() && cert.epoch != s.epoch + 1
    ensures InstallGuard(s, cert, prior) == Some(Err(EpochPoisoned)) <==> s.poisoned
    ensures InstallGuard(s, cert, prior).Some? ==>
              || InstallGuard(s, cert, prior).value == Err(EpochPoisoned)
              || InstallGuard(s, cert, prior).value == Err(Invalid)
              || InstallGuard(s, cert, prior).value == Ok(InstallStaleEpoch(s.epoch + 1, cert.epoch))
  {
    CommitteeBuilds(cert.nextRoster, s.policy, cert.epoch);
    if BuildCommittee(cert.nextRoster, s.policy, cert.epoch).Some? {
      EpochCertifiedExactly(cert, BuildCommittee(cert.nextRoster, s.policy, cert.epoch).value.Id(), prior);
    }
    hide BuildCommittee, ProperRoster, Enumerates, EpochCertified, QuorumAssents;
  }

  /** A certificate is taken in exactly if it is installable, none is waiting, and the record is durable; it completes
      at once exactly if the ledger has reached its frontier. A second one is refused, and stops the authority exactly
      if it names another successor or another frontier. */
  lemma InstallsExactly(s: Authority, cert: EpochCert, prior: Committee, io: Io)
    ensures var (s', r) := Install(s, cert, prior, io);
            var due := Installable(s, cert, prior);
            var there := forall i :: 0 <= i < |cert.frontier| ==>
                                 NextSeq(s.ledger, cert.frontier[i].0) >= cert.frontier[i].1;
            && (r == Ok(Installed) <==> due && !s.epochState.Installing? && io == Durable && there)
            && (r == Ok(StillInstalling) <==> due && !s.epochState.Installing? && io == Durable && !there)
            && (r == Err(JournalError) <==> due && !s.epochState.Installing? && io != Durable)
            && (r == Ok(AlreadyInstalled) || r == Err(ConflictingCert) <==> due && s.epochState.Installing?)
            && (r == Ok(InstallStaleEpoch(s.epoch + 1, cert.epoch)) <==>
                  !s.poisoned && s.committeeId == prior.Id() && cert.epoch != s.epoch + 1)
            && (r == Err(EpochPoisoned) <==> s.poisoned)
  {
    GuardMeans(s, cert, prior);
    hide BuildCommittee, InstallGuard, Installable;
  }

  /** What installing changes. */
  lemma InstallingChanges(s: Authority, cert: EpochCert, prior: Committee, io: Io)
    ensures var (s', r) := Install(s, cert, prior, io);
            && (r == Ok(Installed) || r == Ok(StillInstalling) ==>
                  && BuildCommittee(cert.nextRoster, s.policy, cert.epoch).Some?
                  && var next := BuildCommittee(cert.nextRoster, s.policy, cert.epoch).value;
                     var t := s.(locked := map[], lastCert := Some(cert),
                                 journal := s.journal + [EpochInstalled(cert)]);
                     s' == if r == Ok(Installed) then t.(epoch := cert.epoch, committeeId := next.Id(),
                                                         epochState := Active)
                           else t.(epochState := Installing(cert, next)))
            && (r == Err(ConflictingCert) ==>
                  && s.epochState.Installing? && s' == s.(poisoned := true)
                  && BuildCommittee(cert.nextRoster, s.policy, cert.epoch).Some?
                  && (|| s.epochState.next.Id() != BuildCommittee(cert.nextRoster, s.policy, cert.epoch).value.Id()
                      || multiset(s.epochState.cert.frontier) != multiset(cert.frontier)
                      || s.epochState.cert.epoch != cert.epoch))
            && (r == Ok(AlreadyInstalled) ==>
                  && s.epochState.Installing? && multiset(s.epochState.cert.frontier) == multiset(cert.frontier)
                  && BuildCommittee(cert.nextRoster, s.policy, cert.epoch).Some?
                  && s.epochState.next.Id() == BuildCommittee(cert.nextRoster, s.policy, cert.epoch).value.Id()
                  && s.epochState.cert.epoch == cert.epoch)
            && (r.Ok? && (r.value.AlreadyInstalled? || r.value.InstallStaleEpoch?) ==> s' == s)
            && (r == Err(EpochPoisoned) || r == Err(Invalid) ==> s' == s)
  {
    hide BuildCommittee, EpochCertified;
  }
}
