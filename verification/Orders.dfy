/** Owner-signed orders, authority rosters, votes and quorum certificates.

    Hash identities (policy id, committee id, order id, frontier digest) are modelled by their
    preimages, so they are injective. A signature is a symbolic token naming its signer and the
    signed payload; `nonce` keeps two signatures by one key over one payload distinguishable. */
module Orders {
  import opened Basics
  import opened Ledgers
  import Quorums

  type Key = nat
  type NetworkId = string
  type AuthorityId = string

  datatype Policy = Policy(network: NetworkId, owners: map<AccountId, Key>)

  datatype CommitteeId = CommitteeId(policy: Policy, roster: map<AuthorityId, Key>)

  type Frontier = seq<(AccountId, U64)>

  datatype Payload =
    | OwnerIntent(policy: Policy, network: NetworkId, transfer: Transfer, round: U64)
    | AuthorityVote(authority: AuthorityId, committeeId: CommitteeId, policy: Policy,
                    network: NetworkId, transfer: Transfer, round: U64)
    | EpochAssent(authority: AuthorityId, committeeId: CommitteeId, epoch: nat,
                  nextCommitteeId: CommitteeId, frontierDigest: multiset<(AccountId, U64)>)
    | Effect(committeeId: CommitteeId, account: AccountId, seqNo: U64, order: Order)

  datatype Signature = Signature(signer: Key, payload: Payload, nonce: nat)

  datatype Order = Order(network: NetworkId, policy: Policy, transfer: Transfer, round: U64,
                         ownerSig: Signature)

  predicate Verifies(key: Key, payload: Payload, sig: Signature) {
    sig.signer == key && sig.payload == payload
  }

  /** Authorities sign deterministically, so one payload has one signature of theirs. */
  function Sign(key: Key, payload: Payload): (sig: Signature)
    ensures Verifies(key, payload, sig)
  {
    Signature(key, payload, 0)
  }

  datatype OwnerAuthError =
    | WrongNetwork
    | WrongOwnerPolicy
    | UnknownOwner(account: AccountId)
    | UnknownRecipient(account: AccountId)
    | InvalidOwnerSignature(account: AccountId)

  function OwnerPayload(o: Order): (r: Payload) {
    OwnerIntent(o.policy, o.network, o.transfer, o.round)
  }

  /** The owner-policy check every order passes before any authority state is read. */
  function VerifyOrder(policy: Policy, o: Order): (r: Option<OwnerAuthError>) {
    if o.network != policy.network then Some(WrongNetwork)
    else if o.policy != policy then Some(WrongOwnerPolicy)
    else if o.transfer.from !in policy.owners then Some(UnknownOwner(o.transfer.from))
    else if o.transfer.to !in policy.owners then Some(UnknownRecipient(o.transfer.to))
    else if !Verifies(policy.owners[o.transfer.from], OwnerPayload(o), o.ownerSig) then
      Some(InvalidOwnerSignature(o.transfer.from))
    else None
  }

  /** The sender's registered owner signed exactly this network, policy, transfer and round. */
  predicate OwnerSigned(policy: Policy, o: Order) {
    && o.network == policy.network && o.policy == policy
    && o.transfer.from in policy.owners && o.transfer.to in policy.owners
    && o.ownerSig.signer == policy.owners[o.transfer.from]
    && o.ownerSig.payload == OwnerIntent(policy, policy.network, o.transfer, o.round)
  }

  /** The owner check passes exactly the orders their owners signed, and each error occurs exactly in its case. */
  lemma OwnerCheckExactly(policy: Policy, o: Order)
    ensures VerifyOrder(policy, o).None? <==> OwnerSigned(policy, o)
    ensures VerifyOrder(policy, o) == Some(WrongNetwork) <==> o.network != policy.network
    ensures VerifyOrder(policy, o) == Some(WrongOwnerPolicy) <==> o.network == policy.network && o.policy != policy
    ensures var known := o.network == policy.network && o.policy == policy;
            && (VerifyOrder(policy, o) == Some(UnknownOwner(o.transfer.from))
                <==> known && o.transfer.from !in policy.owners)
            && (VerifyOrder(policy, o) == Some(UnknownRecipient(o.transfer.to))
                <==> known && o.transfer.from in policy.owners && o.transfer.to !in policy.owners)
            && (VerifyOrder(policy, o) == Some(InvalidOwnerSignature(o.transfer.from))
                <==> known && o.transfer.from in policy.owners && o.transfer.to in policy.owners
                     && !(o.ownerSig.signer == policy.owners[o.transfer.from]
                          && o.ownerSig.payload == OwnerIntent(policy, policy.network, o.transfer, o.round)))
  {
  }

  /** Vote-slot identity: one lock per (account, sequence, round). */
  datatype Slot = Slot(account: AccountId, seqNo: U64, round: U64)

  function SlotOf(o: Order): (r: Slot) {
    Slot(o.transfer.from, o.transfer.fromSeq, o.round)
  }

  const MAX_COMMITTEE_MEMBERS := 1024
  const MAX_AUTHORITY_ID_BYTES := 256

  /** `epoch` is a generation marker and deliberately not part of the identity. */
  datatype Committee = Committee(members: map<AuthorityId, Key>, policy: Policy, epoch: nat) {
    function Id(): (r: CommitteeId) { CommitteeId(policy, members) }
    function QuorumSize(): (r: nat) { Quorums.Quorum(|members|) }
  }

  function BuildRoster(members: seq<(AuthorityId, Key)>): (r: Option<map<AuthorityId, Key>>) {
    if members == [] then Some(map[])
    else
      var (authority, key) := members[|members| - 1];
      match BuildRoster(members[..|members| - 1])
      case None => None
      case Some(m) =>
        if authority == "" || |authority| > MAX_AUTHORITY_ID_BYTES || |m| == MAX_COMMITTEE_MEMBERS
           || key in m.Values || authority in m
        then None
        else Some(m[authority := key])
  }

  /** The listing is a roster: sane and distinct names, distinct keys, and not too many. */
  ghost predicate ProperRoster(members: seq<(AuthorityId, Key)>) {
    && |members| <= MAX_COMMITTEE_MEMBERS
    && (forall i :: 0 <= i < |members| ==> 0 < |members[i].0| <= MAX_AUTHORITY_ID_BYTES)
    && (forall i, j :: 0 <= i < j < |members| ==> members[i].0 != members[j].0 && members[i].1 != members[j].1)
  }

  /** A roster builds exactly from a proper listing, and then pairs each name with its key and nothing else. */
  lemma {:induction false} RosterExactly(members: seq<(AuthorityId, Key)>)
    ensures BuildRoster(members).Some? <==> ProperRoster(members)
    ensures BuildRoster(members).Some? ==>
              && Enumerates(members, BuildRoster(members).value)
              && |BuildRoster(members).value| == |members|
    decreases |members|
  {
    if members != [] {
      var init, last := members[..|members| - 1], members[|members| - 1];
      RosterExactly(init);
      ProperSnoc(init, last);
      assert members == init + [last];
      BuildSnoc(init, last);
      hide Enumerates, ProperRoster, BuildRoster;
      if BuildRoster(init).Some? {
        ListedKeys(init, BuildRoster(init).value, last.0);
        if last.0 !in BuildRoster(init).value {
          EnumerationGrows(init, BuildRoster(init).value, last.0, last.1);
        }
        KeyTaken(init, BuildRoster(init).value, last.1);
      }
    }
  }

  lemma BuildSnoc(init: seq<(AuthorityId, Key)>, last: (AuthorityId, Key))
    ensures BuildRoster(init + [last]).Some? <==>
              && BuildRoster(init).Some? && |BuildRoster(init).value| != MAX_COMMITTEE_MEMBERS
              && 0 < |last.0| <= MAX_AUTHORITY_ID_BYTES
              && last.0 !in BuildRoster(init).value && last.1 !in BuildRoster(init).value.Values
    ensures BuildRoster(init + [last]).Some? ==>
              BuildRoster(init + [last]) == Some(BuildRoster(init).value[last.0 := last.1])
  {
    assert (init + [last])[..|init|] == init;
  }

  lemma ProperSnoc(init: seq<(AuthorityId, Key)>, last: (AuthorityId, Key))
    ensures ProperRoster(init + [last])
            <==> && ProperRoster(init) && |init| < MAX_COMMITTEE_MEMBERS && 0 < |last.0| <= MAX_AUTHORITY_ID_BYTES
                 && !(exists i :: 0 <= i < |init| && init[i].0 == last.0)
                 && !(exists i :: 0 <= i < |init| && init[i].1 == last.1)
  {
    var all := init + [last];
    if ProperRoster(all) {
      assert all[|init|] == last;
      forall i | 0 <= i < |init|
        ensures 0 < |init[i].0| <= MAX_AUTHORITY_ID_BYTES && init[i].0 != last.0 && init[i].1 != last.1
      {
        assert all[i] == init[i];
      }
      forall i, j | 0 <= i < j < |init|
        ensures init[i].0 != init[j].0 && init[i].1 != init[j].1
      {
        assert all[i] == init[i] && all[j] == init[j];
      }
    }
  }

  lemma KeyTaken(listing: seq<(AuthorityId, Key)>, m: map<AuthorityId, Key>, key: Key)
    requires Enumerates(listing, m)
    ensures key in m.Values <==> exists i :: 0 <= i < |listing| && listing[i].1 == key
  {
    if key in m.Values {
      var k :| k in m && m[k] == key;
      var i :| 0 <= i < |listing| && listing[i].0 == k;
      assert listing[i].1 == key;
    }
  }

  /** A committee at an explicit generation, or nothing for an empty or malformed roster. */
  function BuildCommittee(members: seq<(AuthorityId, Key)>, policy: Policy, epoch: nat): (r: Option<Committee>) {
    match BuildRoster(members)
    case None => None
    case Some(m) => if m == map[] then None else Some(Committee(m, policy, epoch))
  }

  datatype Vote = Vote(authority: AuthorityId, committeeId: CommitteeId, policy: Policy,
                       network: NetworkId, transfer: Transfer, round: U64, signature: Signature)

  function VotePayload(v: Vote): (r: Payload) {
    AuthorityVote(v.authority, v.committeeId, v.policy, v.network, v.transfer, v.round)
  }

  datatype VoteError =
    | WrongCommittee
    | WrongPolicy
    | WrongVoteNetwork
    | WrongTransfer
    | WrongRound(expected: U64, got: U64)
    | UnknownAuthority(authority: AuthorityId)
    | InvalidAuthoritySignature(authority: AuthorityId)

  function ValidateVote(v: Vote, o: Order, c: Committee): (r: Option<VoteError>) {
    if v.committeeId != c.Id() then Some(WrongCommittee)
    else if o.policy != c.policy then Some(WrongPolicy)
    else if v.policy != o.policy then Some(WrongPolicy)
    else if v.network != o.network then Some(WrongVoteNetwork)
    else if v.transfer != o.transfer then Some(WrongTransfer)
    else if v.round != o.round then Some(WrongRound(o.round, v.round))
    else if v.authority !in c.members then Some(UnknownAuthority(v.authority))
    else if !Verifies(c.members[v.authority], VotePayload(v), v.signature) then
      Some(InvalidAuthoritySignature(v.authority))
    else None
  }

  /** The vote is for this order under this committee, signed by the member it names. */
  predicate SupportsOrder(v: Vote, o: Order, c: Committee) {
    && v.committeeId.policy == c.policy && v.committeeId.roster == c.members
    && o.policy == c.policy && v.policy == c.policy
    && v.network == o.network && v.transfer == o.transfer && v.round == o.round
    && v.authority in c.members && v.signature.signer == c.members[v.authority]
    && v.signature.payload == AuthorityVote(v.authority, v.committeeId, c.policy, o.network, o.transfer, o.round)
  }

  /** A vote passes exactly if it supports the order; a refusal names a defect the vote has. */
  lemma VoteCheckExactly(v: Vote, o: Order, c: Committee)
    ensures ValidateVote(v, o, c).None? <==> SupportsOrder(v, o, c)
    ensures match ValidateVote(v, o, c)
            case Some(WrongCommittee) => v.committeeId.policy != c.policy || v.committeeId.roster != c.members
            case Some(WrongPolicy) => o.policy != c.policy || v.policy != o.policy
            case Some(WrongVoteNetwork) => v.network != o.network
            case Some(WrongTransfer) => v.transfer != o.transfer
            case Some(WrongRound(expected, got)) => expected == o.round != got == v.round
            case Some(UnknownAuthority(a)) => a == v.authority && a !in c.members
            case Some(InvalidAuthoritySignature(a)) =>
              && a == v.authority && a in c.members
              && !(v.signature.signer == c.members[a]
                   && v.signature.payload == AuthorityVote(a, v.committeeId, v.policy, v.network, v.transfer, v.round))
            case None => true
  {
  }

  datatype Certificate = Certificate(order: Order, votes: seq<Vote>)

  datatype CertificateError =
    | OwnerAuth(owner: OwnerAuthError)
    | EmptyVotes
    | InvalidVote(authority: AuthorityId, source: VoteError)
    | DuplicateAuthority(authority: AuthorityId)
    | InsufficientQuorum(have: nat, need: nat)

  function Voters(votes: seq<Vote>): (r: set<AuthorityId>) {
    set i | 0 <= i < |votes| :: votes[i].authority
  }

  lemma VotersSnoc(votes: seq<Vote>, v: Vote)
    ensures Voters(votes + [v]) == Voters(votes) + {v.authority}
  {
    var all := votes + [v];
    forall a | a in Voters(votes) + {v.authority}
      ensures a in Voters(all)
    {
      if a == v.authority {
        assert all[|votes|].authority == a;
      } else {
        var i :| 0 <= i < |votes| && votes[i].authority == a;
        assert all[i].authority == a;
      }
    }
  }

  /** The first `n` votes are valid for the order and come from distinct members. */
  ghost predicate GoodVotes(cert: Certificate, c: Committee, n: nat)
    requires n <= |cert.votes|
  {
    && (forall k :: 0 <= k < n ==> ValidateVote(cert.votes[k], cert.order, c).None?)
    && (forall j, k :: 0 <= j < k < n ==> cert.votes[j].authority != cert.votes[k].authority)
  }

  /** What a certificate promises: an owner-authorised order that a quorum of distinct members of
      exactly this committee each signed. */
  ghost predicate CertifiedBy(cert: Certificate, c: Committee) {
    && VerifyOrder(c.policy, cert.order).None?
    && cert.votes != []
    && GoodVotes(cert, c, |cert.votes|)
    && |Voters(cert.votes)| >= c.QuorumSize()
  }

  lemma {:induction false} VoterCount(votes: seq<Vote>)
    requires forall j, k :: 0 <= j < k < |votes| ==> votes[j].authority != votes[k].authority
    ensures |Voters(votes)| == |votes|
    decreases |votes|
  {
    if votes != [] {
      var init, last := votes[..|votes| - 1], votes[|votes| - 1];
      VoterCount(init);
      VotersSnoc(init, last);
      assert votes == init + [last];
      forall a | a in Voters(init)
        ensures a != last.authority
      {
        var i :| 0 <= i < |init| && init[i].authority == a;
        assert votes[i].authority == a;
      }
    }
  }

  /** A certificate passes exactly if the owner signed the order and a quorum of distinct members signed votes
      that support it, with no other vote among them. */
  lemma CertifiedExactly(cert: Certificate, c: Committee)
    ensures CertifiedBy(cert, c) <==>
              && OwnerSigned(c.policy, cert.order) && cert.votes != []
              && (forall k :: 0 <= k < |cert.votes| ==> SupportsOrder(cert.votes[k], cert.order, c))
              && (forall j, k :: 0 <= j < k < |cert.votes| ==> cert.votes[j].authority != cert.votes[k].authority)
              && |cert.votes| >= Quorums.Quorum(|c.members|)
  {
    OwnerCheckExactly(c.policy, cert.order);
    forall k | 0 <= k < |cert.votes|
      ensures ValidateVote(cert.votes[k], cert.order, c).None? <==> SupportsOrder(cert.votes[k], cert.order, c)
    {
      VoteCheckExactly(cert.votes[k], cert.order, c);
    }
    hide ValidateVote, SupportsOrder, VerifyOrder, OwnerSigned;
    if forall j, k :: 0 <= j < k < |cert.votes| ==> cert.votes[j].authority != cert.votes[k].authority {
      VoterCount(cert.votes);
    }
  }

  /** `e` blames the first vote that is invalid or repeats a voter. */
  ghost predicate FirstRefused(cert: Certificate, c: Committee, i: nat, e: CertificateError) {
    && i < |cert.votes| && GoodVotes(cert, c, i)
    && var v := cert.votes[i];
    match ValidateVote(v, cert.order, c)
    case Some(source) => e == InvalidVote(v.authority, source)
    case None => e == DuplicateAuthority(v.authority) && v.authority in Voters(cert.votes[..i])
  }

  lemma GoodVotesExtend(cert: Certificate, c: Committee, i: nat)
    requires i < |cert.votes| && GoodVotes(cert, c, i)
    ensures GoodVotes(cert, c, i + 1) <==>
              ValidateVote(cert.votes[i], cert.order, c).None? && cert.votes[i].authority !in Voters(cert.votes[..i])
  {
    if cert.votes[i].authority in Voters(cert.votes[..i]) {
      var j :| 0 <= j < i && cert.votes[..i][j].authority == cert.votes[i].authority;
      assert cert.votes[j].authority == cert.votes[i].authority;
    } else {
      forall j | 0 <= j < i ensures cert.votes[j].authority != cert.votes[i].authority {
        assert cert.votes[..i][j].authority in Voters(cert.votes[..i]);
      }
    }
  }

  /** The vote loop: all votes pass, or the first refused one is blamed. */
  method CheckVotes(cert: Certificate, c: Committee) returns (r: Result<set<AuthorityId>, CertificateError>)
    ensures r.Ok? ==> GoodVotes(cert, c, |cert.votes|) && r.value == Voters(cert.votes)
    ensures r.Err? ==> exists i: nat :: FirstRefused(cert, c, i, r.error)
  {
    var distinct: set<AuthorityId> := {};
    var i := 0;
    while i < |cert.votes|
      invariant 0 <= i <= |cert.votes|
      invariant GoodVotes(cert, c, i)
      invariant distinct == Voters(cert.votes[..i])
    {
      var vote := cert.votes[i];
      var problem := ValidateVote(vote, cert.order, c);
      if problem.Some? {
        r := Err(InvalidVote(vote.authority, problem.value));
        assert FirstRefused(cert, c, i, r.error);
        return;
      }
      if vote.authority in distinct {
        r := Err(DuplicateAuthority(vote.authority));
        assert FirstRefused(cert, c, i, r.error);
        return;
      }
      GoodVotesExtend(cert, c, i);
      VotersSnoc(cert.votes[..i], vote);
      assert cert.votes[..i + 1] == cert.votes[..i] + [vote];
      distinct := distinct + {vote.authority};
      i := i + 1;
    }
    assert cert.votes[..|cert.votes|] == cert.votes;
    return Ok(distinct);
  }

  lemma RefusedIsNotGood(cert: Certificate, c: Committee, i: nat, e: CertificateError)
    requires FirstRefused(cert, c, i, e)
    ensures !GoodVotes(cert, c, |cert.votes|)
  {
    GoodVotesExtend(cert, c, i);
  }

  /** Certificate validation. Acceptance is exactly `CertifiedBy`; each refusal names its cause,
      and a refused vote is the first one that is invalid or repeats a voter. */
  method ValidateCertificate(cert: Certificate, c: Committee) returns (r: Option<CertificateError>)
    ensures r.None? <==> CertifiedBy(cert, c)
    ensures (r.Some? && r.value.OwnerAuth?) <==> VerifyOrder(c.policy, cert.order).Some?
    ensures r == Some(EmptyVotes) <==> VerifyOrder(c.policy, cert.order).None? && cert.votes == []
    ensures r.Some? && (r.value.InvalidVote? || r.value.DuplicateAuthority?) ==>
              exists i: nat :: FirstRefused(cert, c, i, r.value)
    ensures r.Some? && r.value.InsufficientQuorum? ==>
              r.value.have == |Voters(cert.votes)| < r.value.need == c.QuorumSize()
  {
    var owner := VerifyOrder(c.policy, cert.order);
    if owner.Some? {
      return Some(OwnerAuth(owner.value));
    }
    if |cert.votes| == 0 {
      return Some(EmptyVotes);
    }
    var checked := CheckVotes(cert, c);
    if checked.Err? {
      ghost var i: nat :| FirstRefused(cert, c, i, checked.error);
      RefusedIsNotGood(cert, c, i, checked.error);
      return Some(checked.error);
    }
    if |checked.value| < c.QuorumSize() {
      return Some(InsufficientQuorum(|checked.value|, c.QuorumSize()));
    }
    return None;
  }

  /** One authority's signed statement that it applied `order` at the slot. */
  datatype Attestation = Attestation(authority: AuthorityId, committeeId: CommitteeId,
                                     account: AccountId, seqNo: U64, order: Order,
                                     signature: Signature)

  predicate AttestationValid(a: Attestation, c: Committee) {
    && a.committeeId == c.Id()
    && a.authority in c.members
    && Verifies(c.members[a.authority], Effect(a.committeeId, a.account, a.seqNo, a.order), a.signature)
  }

  /** The members that validly attest `order` at the slot. */
  function Attestors(account: AccountId, seqNo: U64, order: Order, attestations: seq<Attestation>,
                     c: Committee): (r: set<AuthorityId>) {
    set i | 0 <= i < |attestations| && Attests(attestations[i], account, seqNo, order, c) :: attestations[i].authority
  }

  /** Client finality: a quorum of distinct members attest the same applied order. */
  predicate EffectFinal(account: AccountId, seqNo: U64, order: Order, attestations: seq<Attestation>, c: Committee) {
    |Attestors(account, seqNo, order, attestations, c)| >= c.QuorumSize()
  }

  /** An attestation counts exactly if the member it names signed this account, sequence and order for this
      committee. */
  lemma AttestationCheckExactly(a: Attestation, c: Committee)
    ensures AttestationValid(a, c) <==>
              && a.committeeId.policy == c.policy && a.committeeId.roster == c.members
              && a.authority in c.members && a.signature.signer == c.members[a.authority]
              && a.signature.payload == Effect(a.committeeId, a.account, a.seqNo, a.order)
  {
  }

  predicate Attests(a: Attestation, account: AccountId, seqNo: U64, order: Order, c: Committee) {
    a.account == account && a.seqNo == seqNo && a.order == order && AttestationValid(a, c)
  }

  lemma AttestorsSnoc(account: AccountId, seqNo: U64, order: Order, attestations: seq<Attestation>, a: Attestation,
                      c: Committee)
    ensures Attestors(account, seqNo, order, attestations + [a], c)
         == Attestors(account, seqNo, order, attestations, c)
            + (if Attests(a, account, seqNo, order, c) then {a.authority} else {})
  {
    var all := attestations + [a];
    forall x | x in Attestors(account, seqNo, order, attestations, c)
      ensures x in Attestors(account, seqNo, order, all, c)
    {
      var i :| 0 <= i < |attestations| && Attests(attestations[i], account, seqNo, order, c)
              && attestations[i].authority == x;
      assert Attests(all[i], account, seqNo, order, c);
    }
    if Attests(a, account, seqNo, order, c) {
      assert Attests(all[|attestations|], account, seqNo, order, c);
    }
  }

  /** The client's loop over collected attestations decides exactly `EffectFinal`. */
  method AssembleEffect(account: AccountId, seqNo: U64, order: Order, attestations: seq<Attestation>, c: Committee)
    returns (ok: bool)
    ensures ok == EffectFinal(account, seqNo, order, attestations, c)
  {
    var distinct: set<AuthorityId> := {};
    for i := 0 to |attestations|
      invariant distinct == Attestors(account, seqNo, order, attestations[..i], c)
    {
      var a := attestations[i];
      assert attestations[..i + 1] == attestations[..i] + [a];
      AttestorsSnoc(account, seqNo, order, attestations[..i], a, c);
      if Attests(a, account, seqNo, order, c) {
        distinct := distinct + {a.authority};
      }
    }
    assert attestations[..|attestations|] == attestations;
    ok := |distinct| >= c.QuorumSize();
  }
}
