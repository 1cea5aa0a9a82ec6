/** Safety from signatures alone: if the keys of honest members sign only what those members let out, the checks of
    votes, epoch votes and attestations admit only genuine ones, and certificates, finality and epoch certificates
    agree. */
module UnforgedEvidence {
  import opened Basics
  import opened Ledgers
  import opened Orders
  import opened Authorities
  import opened AuthorityRuns
  import opened AuthorityContracts
  import opened EvidenceRuns
  import opened Committees
  import opened Realizations
  import opened SlotSeals
  import EpochAgreement

  /** A signature under an honest member's key is one which that member let out. */
  ghost predicate Unforged(sys: System, sig: Signature) {
    forall id :: id in sys && sig.signer == sys[id].origin.key ==>
      match sig.payload
      case OwnerIntent(_, _, _, _) => true
      case AuthorityVote(_, _, _, _, _, _) =>
        exists i :: 0 <= i < |sys[id].votes| && sys[id].votes[i].vote.signature == sig
      case EpochAssent(_, _, _, _, _) => exists v :: v in sys[id].epochVotes && v.signature == sig
      case Effect(_, _, _, _) => exists a :: a in sys[id].attested && a.signature == sig
  }

  /** The committee lists its honest members under their own keys. */
  ghost predicate Keyed(sys: System, c: Committee) {
    forall id :: id in sys && id in c.members ==> c.members[id] == sys[id].origin.key
  }

  // ---- Honest members sign what they say ----

  ghost predicate SignsOwn(n: Node) {
    exists proven :: Proper(n, proven)
  }

  ghost predicate AllSignOwn(sys: System) {
    forall id :: id in sys ==> SignsOwn(sys[id]) && sys[id].origin.id == id
  }

  lemma NextSignsOwn(n: Node, e: Event)
    requires Inv(n) && SignsOwn(n) && Enabled(n, e)
    ensures SignsOwn(Next(n, e))
  {
    var proven :| Proper(n, proven);
    hide Inv, Proper, Next, Presentable;
    if e.OnHandle? || e.OnConfirm? || e.OnFence? || e.OnInstall? {
      OperationKeepsProper(n, e, proven);
      assert Proper(Next(n, e), proven + Presented(n.auth, e));
    } else {
      OtherKeepsProper(n, e, proven);
      assert Proper(Next(n, e), proven);
    }
  }

  lemma {:induction false} RunSignsOwn(states: seq<System>, moves: seq<Move>, k: nat)
    requires SystemRun(states, moves) && k < |states|
    ensures AllSignOwn(states[k])
  {
    hide Inv, Next, SignsOwn;
    if k == 0 {
      forall id | id in states[0]
        ensures SignsOwn(states[0][id])
      {
        StartSignsOwn(states[0][id]);
      }
    } else {
      RunSignsOwn(states, moves, k - 1);
      SystemRunKeepsInv(states, moves, k - 1);
      assert SystemLinked(states, moves, k - 1);
      var id, e := moves[k - 1].id, moves[k - 1].event;
      NextSignsOwn(states[k - 1][id], e);
      NextKeepsOrigin(states[k - 1][id], e);
    }
  }

  lemma StartSignsOwn(n: Node)
    requires Initial(n)
    ensures SignsOwn(n)
  {
    InitialProper(n);
  }

  lemma ReachableSignsOwn(sys: System)
    requires Reachable(sys)
    ensures AllSignOwn(sys)
  {
    var states, moves :| SystemRun(states, moves) && states[|moves|] == sys;
    RunSignsOwn(states, moves, |moves|);
  }

  lemma SignsOwnMeans(n: Node)
    requires SignsOwn(n)
    ensures forall i :: 0 <= i < |n.votes| ==> VoteProper(n.origin, n.votes[i])
    ensures forall v :: v in n.epochVotes ==> EpochVoteProper(n.origin, v)
    ensures forall a :: a in n.attested ==>
              a.authority == n.origin.id && a.signature.payload == Effect(a.committeeId, a.account, a.seqNo, a.order)
  {
    var proven :| Proper(n, proven);
    hide OrdersIn, Replay, VoteProper, EpochVoteProper;
  }

  // ---- Checked evidence is genuine ----

  /** A signature over a vote of its named member makes it that member's vote. */
  lemma SignedVoteIsIssued(sys: System, v: Vote, c: Committee)
    requires AllSignOwn(sys) && Keyed(sys, c) && Unforged(sys, v.signature) && v.authority in c.members
    requires v.signature.signer == c.members[v.authority]
    requires v.signature.payload
          == AuthorityVote(v.authority, v.committeeId, v.policy, v.network, v.transfer, v.round)
    ensures IssuedVote(sys, v) && GenuineVote(sys, v)
  {
    if v.authority in sys {
      var n := sys[v.authority];
      SignsOwnMeans(n);
      var i :| 0 <= i < |n.votes| && n.votes[i].vote.signature == v.signature;
      assert VoteProper(n.origin, n.votes[i]);
      assert n.votes[i].vote == v;
    }
  }

  lemma CheckedVoteIsIssued(sys: System, v: Vote, o: Order, c: Committee)
    requires AllSignOwn(sys) && Keyed(sys, c) && Unforged(sys, v.signature) && ValidateVote(v, o, c).None?
    ensures IssuedVote(sys, v) && GenuineVote(sys, v)
  {
    VoteCheckExactly(v, o, c);
    hide ValidateVote, AllSignOwn, Keyed, Unforged;
    SignedVoteIsIssued(sys, v, c);
  }

  lemma CountedVoteIsIssued(sys: System, v: Vote, c: Committee, account: AccountId, seqNo: U64)
    requires AllSignOwn(sys) && Keyed(sys, c) && Unforged(sys, v.signature) && Counts(v, c, account, seqNo)
    ensures GenuineVote(sys, v) && v.transfer.from == account && v.transfer.fromSeq == seqNo
  {
    hide AllSignOwn, Keyed, Unforged;
    SignedVoteIsIssued(sys, v, c);
  }

  lemma CheckedEpochVoteIsIssued(sys: System, v: EpochVote, cert: EpochCert, nextId: CommitteeId, prior: Committee)
    requires AllSignOwn(sys) && Keyed(sys, prior) && Unforged(sys, v.signature)
    requires Assents(v, cert, nextId, prior)
    ensures v.authority in sys ==>
              exists w :: w in sys[v.authority].epochVotes && w.epoch == v.epoch
                          && w.nextCommitteeId == v.nextCommitteeId && w.frontierDigest == v.frontierDigest
  {
    if v.authority in sys {
      var n := sys[v.authority];
      SignsOwnMeans(n);
      var w :| w in n.epochVotes && w.signature == v.signature;
      assert EpochVoteProper(n.origin, w);
    }
  }

  lemma CheckedAttestationIsGenuine(sys: System, a: Attestation, c: Committee)
    requires AllSignOwn(sys) && Keyed(sys, c) && Unforged(sys, a.signature) && AttestationValid(a, c)
    ensures GenuineAttestation(sys, a)
  {
    AttestationCheckExactly(a, c);
    if a.authority in sys {
      var n := sys[a.authority];
      SignsOwnMeans(n);
      var b :| b in n.attested && b.signature == a.signature;
    }
  }

  lemma CertificateIsIssued(sys: System, cert: Certificate, c: Committee)
    requires AllSignOwn(sys) && Keyed(sys, c) && CertifiedBy(cert, c)
    requires forall v :: v in cert.votes ==> Unforged(sys, v.signature)
    ensures forall v :: v in cert.votes ==> IssuedVote(sys, v) && GenuineVote(sys, v)
  {
    hide AllSignOwn, Keyed, Unforged, IssuedVote, GenuineVote, ValidateVote;
    forall v | v in cert.votes
      ensures IssuedVote(sys, v) && GenuineVote(sys, v)
    {
      var i :| 0 <= i < |cert.votes| && cert.votes[i] == v;
      assert ValidateVote(cert.votes[i], cert.order, c).None?;
      CheckedVoteIsIssued(sys, v, cert.order, c);
    }
  }

  // ---- Safety ----

  /** Certificates agree: with at most f faulty members, no install, and nothing forged under an honest key, two
      certificates that pass the checks for one (account, sequence, round) carry the same transfer. */
  lemma SignedCertificatesAgree(sys: System, c: Committee, x: Certificate, y: Certificate)
    requires Reachable(sys) && WithinBudget(sys, c) && Keyed(sys, c) && NoInstall(sys)
    requires CertifiedBy(x, c) && CertifiedBy(y, c)
    requires forall v :: v in x.votes || v in y.votes ==> Unforged(sys, v.signature)
    requires SlotOf(x.order) == SlotOf(y.order)
    ensures x.order.transfer == y.order.transfer
  {
    hide AllSignOwn, Keyed, Unforged, CertifiedBy, SystemPromises, NoInstall, OneStretch, IssuedVote, GenuineVote,
            WithinBudget;
    ReachableSignsOwn(sys);
    ReachablePromises(sys);
    CertificateIsIssued(sys, x, c);
    CertificateIsIssued(sys, y, c);
    NoInstallOneStretch(sys, x.votes + y.votes);
    StretchCertificatesAgree(sys, c, x, y);
  }

  /** Finality is unique: with at most f faulty members and nothing forged under an honest key, no two orders for one
      (account, sequence) both gather a quorum of attestations that pass the check. Attestations that do not count
      may be forged. */
  lemma SignedFinalityIsUnique(states: seq<System>, moves: seq<Move>, k: nat, c: Committee, account: AccountId,
                               seqNo: U64, x: Order, y: Order, xs: seq<Attestation>, ys: seq<Attestation>)
    requires SystemRun(states, moves) && k < |states| && WithinBudget(states[k], c) && Keyed(states[k], c)
    requires forall a :: (a in xs || a in ys) && AttestationValid(a, c) ==> Unforged(states[k], a.signature)
    requires EffectFinal(account, seqNo, x, xs, c) && EffectFinal(account, seqNo, y, ys, c)
    ensures x == y
  {
    RunSignsOwn(states, moves, k);
    hide SystemRun, WithinBudget, Keyed, AllSignOwn, Unforged, GenuineAttestation, AttestationValid;
    var us, vs := Valid(xs, c), Valid(ys, c);
    ValidKeeps(account, seqNo, x, xs, c);
    ValidKeeps(account, seqNo, y, ys, c);
    forall a | a in us || a in vs
      ensures GenuineAttestation(states[k], a)
    {
      CheckedAttestationIsGenuine(states[k], a, c);
    }
    FinalityIsUnique(states, moves, k, c, account, seqNo, x, y, us, vs);
  }

  /** The attestations that pass the check. */
  function Valid(all: seq<Attestation>, c: Committee): (r: seq<Attestation>)
    ensures forall a :: a in r <==> a in all && AttestationValid(a, c)
  {
    if all == [] then []
    else
      var rest := Valid(all[..|all| - 1], c);
      assert all == all[..|all| - 1] + [all[|all| - 1]];
      if AttestationValid(all[|all| - 1], c) then rest + [all[|all| - 1]] else rest
  }

  lemma ValidKeeps(account: AccountId, seqNo: U64, o: Order, all: seq<Attestation>, c: Committee)
    ensures Attestors(account, seqNo, o, Valid(all, c), c) == Attestors(account, seqNo, o, all, c)
  {
    var some := Valid(all, c);
    forall x | x in Attestors(account, seqNo, o, all, c)
      ensures x in Attestors(account, seqNo, o, some, c)
    {
      var i :| 0 <= i < |all| && Attests(all[i], account, seqNo, o, c) && all[i].authority == x;
      assert all[i] in some;
      var j :| 0 <= j < |some| && some[j] == all[i];
      assert Attests(some[j], account, seqNo, o, c);
    }
    forall x | x in Attestors(account, seqNo, o, some, c)
      ensures x in Attestors(account, seqNo, o, all, c)
    {
      var i :| 0 <= i < |some| && Attests(some[i], account, seqNo, o, c) && some[i].authority == x;
      assert some[i] in all;
      var j :| 0 <= j < |all| && all[j] == some[i];
      assert Attests(all[j], account, seqNo, o, c);
    }
  }

  /** A passed void test and a certificate exclude each other on one round's votes, if nothing that the test counts or
      the certificate holds is forged under an honest key. */
  lemma SignedVoidExcludesCertificate(sys: System, c: Committee, observed: seq<Vote>, cert: Certificate, round: U64)
    requires Reachable(sys) && WithinBudget(sys, c) && Keyed(sys, c) && NoInstall(sys)
    requires forall v :: v in observed || v in cert.votes ==> Unforged(sys, v.signature)
    requires var t := cert.order.transfer;
             && (forall v :: (v in observed || v in cert.votes) && Counts(v, c, t.from, t.fromSeq) ==> v.round == round)
             && NoCertCanForm(observed, c, t.from, t.fromSeq)
    ensures !CertifiedBy(cert, c)
  {
    hide AllSignOwn, Keyed, Unforged, CertifiedBy, SystemPromises, NoInstall, OneStretch, GenuineVote, WithinBudget,
            NoCertCanForm, Counts;
    var t := cert.order.transfer;
    ReachableSignsOwn(sys);
    ReachablePromises(sys);
    forall v | v in observed || v in cert.votes
      ensures Authentic(sys, v, c, t.from, t.fromSeq, round)
    {
      if Counts(v, c, t.from, t.fromSeq) {
        CountedVoteIsIssued(sys, v, c, t.from, t.fromSeq);
      }
    }
    NoInstallOneStretch(sys, observed + cert.votes);
    VoidExcludesCertificate(sys, c, observed, cert, round);
  }

  /** Epoch certificates agree: with at most f faulty members, no honest crash, no ledger moving behind a fence and
      nothing forged under an honest key, two epoch certificates that pass the check for one epoch name one next
      committee and one frontier. */
  lemma SignedEpochCertificatesAgree(sys: System, cs: EpochAgreement.Certs)
    requires Realizable(sys) && WithinBudget(sys, cs.prior) && Keyed(sys, cs.prior) && cs.x.epoch == cs.y.epoch
    requires EpochCertified(cs.x, cs.nextX, cs.prior) && EpochCertified(cs.y, cs.nextY, cs.prior)
    requires forall v :: v in cs.x.votes || v in cs.y.votes ==> Unforged(sys, v.signature)
    requires EpochAgreement.Admitted(sys, false, false)
    ensures EpochAgreement.Agree(cs)
  {
    RealizableIsReachable(sys);
    ReachableSignsOwn(sys);
    hide Reachable, AllSignOwn, Unforged, Keyed, Realizable, EpochCertified;
    EpochAgreement.VotersInside(cs.x, cs.nextX, cs.prior);
    EpochAgreement.VotersInside(cs.y, cs.nextY, cs.prior);
    assert |cs.prior.members.Keys| == |cs.prior.members|;
    var keys := cs.prior.members.Keys;
    var h := Quorums.QuorumsShareHonest(keys, keys - sys.Keys, EpochVoters(cs.x.votes), EpochVoters(cs.y.votes));
    var v := HonestAssent(sys, cs.x, cs.nextX, cs.prior, h);
    var w := HonestAssent(sys, cs.y, cs.nextY, cs.prior, h);
    EpochAgreement.CalmMember(sys, h);
  }

  /** An honest voter of an epoch certificate signed an assent for its epoch, successor and frontier. */
  lemma HonestAssent(sys: System, cert: EpochCert, nextId: CommitteeId, prior: Committee, h: AuthorityId)
    returns (w: EpochVote)
    requires AllSignOwn(sys) && Keyed(sys, prior) && EpochCertified(cert, nextId, prior)
    requires forall v :: v in cert.votes ==> Unforged(sys, v.signature)
    requires h in EpochVoters(cert.votes) && h in sys
    ensures w in sys[h].epochVotes && w.epoch == cert.epoch && w.nextCommitteeId == nextId
    ensures w.frontierDigest == FrontierDigest(cert.frontier)
  {
    EpochCertifiedExactly(cert, nextId, prior);
    hide AllSignOwn, Unforged, Keyed, EpochCertified;
    var i :| 0 <= i < |cert.votes| && cert.votes[i].authority == h;
    var v := cert.votes[i];
    assert Assents(v, cert, nextId, prior);
    CheckedEpochVoteIsIssued(sys, v, cert, nextId, prior);
    w :| w in sys[h].epochVotes && w.epoch == v.epoch && w.nextCommitteeId == v.nextCommitteeId
         && w.frontierDigest == v.frontierDigest;
  }
}
