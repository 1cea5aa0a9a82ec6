/** Sealing a contested (account, sequence) slot: the Byzantine-aware "no certificate can ever
    form" test, external validity of a proposed seal, and the single-decree agreement node. */
module SlotSeals {
  import opened Basics
  import opened Ledgers
  import opened Orders
  import opened Committees

  /** The tally key: recipient and amount, without the round. */
  datatype Choice = Choice(to: AccountId, amount: U128)

  function ChoiceOf(v: Vote): (r: Choice) { Choice(v.transfer.to, v.transfer.amount) }

  /** A vote is tallied when it is for the slot and carries its member's signature. */
  predicate Counts(v: Vote, c: Committee, account: AccountId, seqNo: U64) {
    && v.transfer.from == account && v.transfer.fromSeq == seqNo
    && v.authority in c.members
    && Verifies(c.members[v.authority], VotePayload(v), v.signature)
  }

  function Observed(votes: seq<Vote>, c: Committee, account: AccountId, seqNo: U64): (s: set<AuthorityId>)
    ensures s <= c.members.Keys
  {
    set i | 0 <= i < |votes| && Counts(votes[i], c, account, seqNo) :: votes[i].authority
  }

  function Supporters(votes: seq<Vote>, c: Committee, account: AccountId, seqNo: U64, k: Choice): (s: set<AuthorityId>)
    ensures s <= Observed(votes, c, account, seqNo)
  {
    set i | 0 <= i < |votes| && Counts(votes[i], c, account, seqNo) && ChoiceOf(votes[i]) == k :: votes[i].authority
  }

  /** votes(C) + f + unvoted < quorum, for the choice `k`. */
  predicate Blocked(votes: seq<Vote>, c: Committee, account: AccountId, seqNo: U64, k: Choice) {
    |Supporters(votes, c, account, seqNo, k)| + Quorums.MaxFaulty(|c.members|)
      + (|c.members| - |Observed(votes, c, account, seqNo)|) < c.QuorumSize()
  }

  /** The void test as written: the phantom order and every tallied order are blocked. */
  predicate NoCertCanForm(votes: seq<Vote>, c: Committee, account: AccountId, seqNo: U64) {
    && Quorums.MaxFaulty(|c.members|) + (|c.members| - |Observed(votes, c, account, seqNo)|) < c.QuorumSize()
    && forall i :: 0 <= i < |votes| && Counts(votes[i], c, account, seqNo) ==>
              Blocked(votes, c, account, seqNo, ChoiceOf(votes[i]))
  }

  // ---- The tally loop ----

  lemma ObservedSnoc(votes: seq<Vote>, v: Vote, c: Committee, account: AccountId, seqNo: U64)
    ensures Observed(votes + [v], c, account, seqNo)
         == Observed(votes, c, account, seqNo) + (if Counts(v, c, account, seqNo) then {v.authority} else {})
  {
    var all := votes + [v];
    forall a | a in Observed(votes, c, account, seqNo)
      ensures a in Observed(all, c, account, seqNo)
    {
      var i :| 0 <= i < |votes| && Counts(votes[i], c, account, seqNo) && votes[i].authority == a;
      assert Counts(all[i], c, account, seqNo);
    }
    if Counts(v, c, account, seqNo) {
      assert Counts(all[|votes|], c, account, seqNo);
    }
  }

  lemma SupportersSnoc(votes: seq<Vote>, v: Vote, c: Committee, account: AccountId, seqNo: U64, k: Choice)
    ensures Supporters(votes + [v], c, account, seqNo, k)
         == Supporters(votes, c, account, seqNo, k)
            + (if Counts(v, c, account, seqNo) && ChoiceOf(v) == k then {v.authority} else {})
  {
    var all := votes + [v];
    forall a | a in Supporters(votes, c, account, seqNo, k)
      ensures a in Supporters(all, c, account, seqNo, k)
    {
      var i :| 0 <= i < |votes| && Counts(votes[i], c, account, seqNo) && ChoiceOf(votes[i]) == k
              && votes[i].authority == a;
      assert Counts(all[i], c, account, seqNo) && ChoiceOf(all[i]) == k;
    }
    if Counts(v, c, account, seqNo) && ChoiceOf(v) == k {
      assert Counts(all[|votes|], c, account, seqNo);
    }
  }

  /** The tallies after a prefix of the votes: exactly the counted choices, with their supporters. */
  ghost predicate Tallied(perOrder: map<Choice, set<AuthorityId>>, votes: seq<Vote>, c: Committee, account: AccountId,
                          seqNo: U64) {
    && (forall k :: k in perOrder ==> perOrder[k] == Supporters(votes, c, account, seqNo, k) != {})
    && (forall k :: k !in perOrder ==> Supporters(votes, c, account, seqNo, k) == {})
  }

  function TallyOne(perOrder: map<Choice, set<AuthorityId>>, v: Vote): (r: map<Choice, set<AuthorityId>>) {
    var k := ChoiceOf(v);
    perOrder[k := (if k in perOrder then perOrder[k] else {}) + {v.authority}]
  }

  lemma TalliedSnoc(perOrder: map<Choice, set<AuthorityId>>, votes: seq<Vote>, v: Vote, c: Committee,
                    account: AccountId, seqNo: U64)
    requires Tallied(perOrder, votes, c, account, seqNo)
    ensures var perOrder' := if Counts(v, c, account, seqNo) then TallyOne(perOrder, v) else perOrder;
            Tallied(perOrder', votes + [v], c, account, seqNo)
  {
    var p' := if Counts(v, c, account, seqNo) then TallyOne(perOrder, v) else perOrder;
    forall k
      ensures k in p' ==> p'[k] == Supporters(votes + [v], c, account, seqNo, k) != {}
      ensures k !in p' ==> Supporters(votes + [v], c, account, seqNo, k) == {}
    {
      SupportersSnoc(votes, v, c, account, seqNo, k);
      assert k in perOrder ==> perOrder[k] == Supporters(votes, c, account, seqNo, k) != {};
      assert k !in perOrder ==> Supporters(votes, c, account, seqNo, k) == {};
    }
  }

  /** The tallying loop and the final comparison decide exactly `NoCertCanForm`. */
  method CheckNoCert(votes: seq<Vote>, c: Committee, account: AccountId, seqNo: U64) returns (ok: bool)
    ensures ok == NoCertCanForm(votes, c, account, seqNo)
  {
    var perOrder: map<Choice, set<AuthorityId>> := map[];
    var voted: set<AuthorityId> := {};
    for i := 0 to |votes|
      invariant voted == Observed(votes[..i], c, account, seqNo)
      invariant Tallied(perOrder, votes[..i], c, account, seqNo)
    {
      var v := votes[i];
      assert votes[..i + 1] == votes[..i] + [v];
      ObservedSnoc(votes[..i], v, c, account, seqNo);
      TalliedSnoc(perOrder, votes[..i], v, c, account, seqNo);
      if Counts(v, c, account, seqNo) {
        perOrder := TallyOne(perOrder, v);
        voted := voted + {v.authority};
      }
    }
    assert votes[..|votes|] == votes;
    SubsetSize(voted, c.members.Keys);
    assert |c.members.Keys| == |c.members|;
    var unvoted := |c.members| - |voted|;
    var f := Quorums.MaxFaulty(|c.members|);
    ok := f + unvoted < c.QuorumSize() && forall k :: k in perOrder ==> |perOrder[k]| + f + unvoted < c.QuorumSize();
    BlockedTallies(perOrder, votes, c, account, seqNo);
  }

  lemma BlockedTallies(perOrder: map<Choice, set<AuthorityId>>, votes: seq<Vote>, c: Committee, account: AccountId,
                       seqNo: U64)
    requires Tallied(perOrder, votes, c, account, seqNo)
    ensures (forall k :: k in perOrder ==> |perOrder[k]| + Quorums.MaxFaulty(|c.members|)
                                           + (|c.members| - |Observed(votes, c, account, seqNo)|) < c.QuorumSize())
       <==> (forall i :: 0 <= i < |votes| && Counts(votes[i], c, account, seqNo) ==>
                 Blocked(votes, c, account, seqNo, ChoiceOf(votes[i])))
  {
    forall i | 0 <= i < |votes| && Counts(votes[i], c, account, seqNo)
      ensures ChoiceOf(votes[i]) in perOrder
    {
      assert votes[i].authority in Supporters(votes, c, account, seqNo, ChoiceOf(votes[i]));
    }
    forall k | k in perOrder
      ensures exists i :: 0 <= i < |votes| && Counts(votes[i], c, account, seqNo) && ChoiceOf(votes[i]) == k
    {
      var a :| a in Supporters(votes, c, account, seqNo, k);
    }
  }

  // ---- What the test means ----

  /** A choice is blocked exactly when at least 2f+1 observed voters are outside its supporters. */
  lemma BlockedMeansOutvoted(votes: seq<Vote>, c: Committee, account: AccountId, seqNo: U64, k: Choice)
    requires c.members != map[]
    ensures Blocked(votes, c, account, seqNo, k) <==>
              |Observed(votes, c, account, seqNo) - Supporters(votes, c, account, seqNo,
                                                               k)| >= 2 * Quorums.MaxFaulty(|c.members|) + 1
  {
    var all, some := Observed(votes, c, account, seqNo), Supporters(votes, c, account, seqNo, k);
    assert all == (all - some) + some;
    assert |all| == |all - some| + |some|;
  }

  /** Every vote ever signed for the slot, as an observer of the whole committee would list them. */
  ghost predicate OneChoiceEach(votes: seq<Vote>, honest: set<AuthorityId>, c: Committee, account: AccountId,
                                seqNo: U64) {
    forall i, j :: 0 <= i < |votes| && 0 <= j < |votes|
                   && votes[i].authority == votes[j].authority && votes[i].authority in honest
                   && Counts(votes[i], c, account, seqNo) && Counts(votes[j], c, account, seqNo)
                   ==> ChoiceOf(votes[i]) == ChoiceOf(votes[j])
  }

  /** A later supporter supported already, is faulty, or had not voted yet. */
  lemma LaterSupporters(observed: seq<Vote>, later: seq<Vote>, honest: set<AuthorityId>, c: Committee,
                        account: AccountId, seqNo: U64, k: Choice, a: AuthorityId)
    requires OneChoiceEach(observed + later, honest, c, account, seqNo)
    requires a in Supporters(observed + later, c, account, seqNo, k)
    requires a in honest && a in Observed(observed, c, account, seqNo)
    ensures a in Supporters(observed, c, account, seqNo, k)
  {
    var all := observed + later;
    var i :| 0 <= i < |all| && Counts(all[i], c, account, seqNo) && ChoiceOf(all[i]) == k && all[i].authority == a;
    var j :| 0 <= j < |observed| && Counts(observed[j], c, account, seqNo) && observed[j].authority == a;
    assert all[j] == observed[j];
    assert ChoiceOf(observed[j]) == k;
  }

  lemma BlockedOrAbsent(votes: seq<Vote>, c: Committee, account: AccountId, seqNo: U64, k: Choice)
    requires NoCertCanForm(votes, c, account, seqNo)
    ensures Blocked(votes, c, account, seqNo, k)
  {
    var now := Supporters(votes, c, account, seqNo, k);
    if now != {} {
      var a :| a in now;
      var i :| 0 <= i < |votes| && Counts(votes[i], c, account, seqNo) && ChoiceOf(votes[i]) == k
              && votes[i].authority == a;
    }
  }

  lemma UnionOfThree<T>(a: set<T>, b: set<T>, c: set<T>, d: set<T>)
    requires a <= b + c + d
    ensures |a| <= |b| + |c| + |d|
  {
    SubsetSize(a, b + c + d);
  }

  /** Void soundness: once the test passes on some observed votes, no choice ever reaches a quorum
      among all votes, as long as honest members keep one choice and at most f members do not. */
  lemma VoidIsSound(observed: seq<Vote>, later: seq<Vote>, honest: set<AuthorityId>, c: Committee, account: AccountId,
                    seqNo: U64, k: Choice)
    requires NoCertCanForm(observed, c, account, seqNo)
    requires OneChoiceEach(observed + later, honest, c, account, seqNo)
    requires |c.members.Keys - honest| <= Quorums.MaxFaulty(|c.members|)
    ensures |Supporters(observed + later, c, account, seqNo, k)| < c.QuorumSize()
  {
    hide OneChoiceEach, NoCertCanForm, Counts;
    var final, now := Supporters(observed + later, c, account, seqNo, k), Supporters(observed, c, account, seqNo, k);
    var seen, faulty := Observed(observed, c, account, seqNo), c.members.Keys - honest;
    var unvoted := c.members.Keys - seen;
    forall a | a in final
      ensures a in now + faulty + unvoted
    {
      if a in honest && a in seen {
        LaterSupporters(observed, later, honest, c, account, seqNo, k, a);
      }
    }
    UnionOfThree(final, now, faulty, unvoted);
    assert c.members.Keys == seen + unvoted;
    assert |c.members| == |c.members.Keys| == |seen| + |unvoted|;
    BlockedOrAbsent(observed, c, account, seqNo, k);
  }

  // ---- Tied to real runs ----

  /** A tallied vote belongs to the one round at hand and, from an honest member, is real. */
  ghost predicate Authentic(sys: System, v: Vote, c: Committee, account: AccountId, seqNo: U64, round: U64) {
    Counts(v, c, account, seqNo) ==> v.round == round && GenuineVote(sys, v)
  }

  ghost predicate AllAuthentic(sys: System, votes: seq<Vote>, c: Committee, account: AccountId, seqNo: U64,
                               round: U64) {
    forall v :: v in votes ==> Authentic(sys, v, c, account, seqNo, round)
  }

  /** Votes that honest members let out with no install in between keep one choice per slot and round. */
  lemma RunKeepsOneChoice(sys: System, votes: seq<Vote>, c: Committee, account: AccountId, seqNo: U64, round: U64)
    requires SystemPromises(sys) && OneStretch(sys, votes)
    requires AllAuthentic(sys, votes, c, account, seqNo, round)
    ensures OneChoiceEach(votes, sys.Keys, c, account, seqNo)
  {
    forall i, j | 0 <= i < |votes| && 0 <= j < |votes|
                  && votes[i].authority == votes[j].authority && votes[i].authority in sys
                  && Counts(votes[i], c, account, seqNo) && Counts(votes[j], c, account, seqNo)
      ensures ChoiceOf(votes[i]) == ChoiceOf(votes[j])
    {
      assert Authentic(sys, votes[i], c, account, seqNo, round) && Authentic(sys, votes[j], c, account, seqNo, round);
      MemberVotesAgree(sys, votes, votes[i], votes[j]);
    }
  }

  /** The members behind a certificate all support its choice. */
  lemma CertifiedSupport(cert: Certificate, c: Committee)
    requires CertifiedBy(cert, c)
    ensures var t := cert.order.transfer;
            Voters(cert.votes) <= Supporters(cert.votes, c, t.from, t.fromSeq, Choice(t.to, t.amount))
  {
    var t := cert.order.transfer;
    forall a | a in Voters(cert.votes)
      ensures a in Supporters(cert.votes, c, t.from, t.fromSeq, Choice(t.to, t.amount))
    {
      var i :| 0 <= i < |cert.votes| && cert.votes[i].authority == a;
      assert ValidateVote(cert.votes[i], cert.order, c).None?;
      assert Counts(cert.votes[i], c, t.from, t.fromSeq);
    }
  }

  lemma SupportersAppend(a: seq<Vote>, b: seq<Vote>, c: Committee, account: AccountId, seqNo: U64, k: Choice)
    ensures Supporters(b, c, account, seqNo, k) <= Supporters(a + b, c, account, seqNo, k)
  {
    var all := a + b;
    forall x | x in Supporters(b, c, account, seqNo, k)
      ensures x in Supporters(all, c, account, seqNo, k)
    {
      var i :| 0 <= i < |b| && Counts(b[i], c, account, seqNo) && ChoiceOf(b[i]) == k && b[i].authority == x;
      assert all[|a| + i] == b[i];
    }
  }

  /** A voided slot stays uncertifiable: on one round's votes of a committee within its Byzantine
      budget, with no install between them, a passed void test and a certificate for the slot exclude each other. */
  lemma VoidExcludesCertificate(sys: System, c: Committee, observed: seq<Vote>, cert: Certificate, round: U64)
    requires SystemPromises(sys) && OneStretch(sys, observed + cert.votes) && WithinBudget(sys, c)
    requires var t := cert.order.transfer;
             && AllAuthentic(sys, observed, c, t.from, t.fromSeq, round)
             && AllAuthentic(sys, cert.votes, c, t.from, t.fromSeq, round)
             && NoCertCanForm(observed, c, t.from, t.fromSeq)
    ensures !CertifiedBy(cert, c)
  {
    if CertifiedBy(cert, c) {
      var t := cert.order.transfer;
      var k := Choice(t.to, t.amount);
      var all := observed + cert.votes;
      assert AllAuthentic(sys, all, c, t.from, t.fromSeq, round);
      RunKeepsOneChoice(sys, all, c, t.from, t.fromSeq, round);
      VoidIsSound(observed, cert.votes, sys.Keys, c, t.from, t.fromSeq, k);
      CertifiedSupport(cert, c);
      SupportersAppend(observed, cert.votes, c, t.from, t.fromSeq, k);
      SubsetSize(Voters(cert.votes), Supporters(all, c, t.from, t.fromSeq, k));
      assert false;
    }
  }

  // ---- Proposals and the agreement node ----

  datatype SealOutcome = Finalize(order: Order) | VoidSlot

  datatype SlotSeal = SlotSeal(account: AccountId, seqNo: U64, committeeId: CommitteeId, outcome: SealOutcome)

  datatype SealEvidence =
    | CertFor(cert: Certificate)
    | NoCertProof(votes: seq<Vote>, committeeSize: nat)

  datatype SealProposal = SealProposal(seal: SlotSeal, evidence: SealEvidence)

  /** External validity against the committee and the node's own observed votes. The seal's own
      committee id plays no part. */
  ghost predicate ExternallyValid(p: SealProposal, c: Committee, own: seq<Vote>) {
    match (p.seal.outcome, p.evidence)
    case (Finalize(o), CertFor(cert)) =>
      CertifiedBy(cert, c) && cert.order == o
      && cert.order.transfer.from == p.seal.account && cert.order.transfer.fromSeq == p.seal.seqNo
    case (VoidSlot, NoCertProof(votes, size)) =>
      size == |c.members| && NoCertCanForm(votes + own, c, p.seal.account, p.seal.seqNo)
    case _ => false
  }

  method CheckExternallyValid(p: SealProposal, c: Committee, own: seq<Vote>) returns (ok: bool)
    ensures ok == ExternallyValid(p, c, own)
  {
    match (p.seal.outcome, p.evidence)
    case (Finalize(o), CertFor(cert)) =>
      var problem := ValidateCertificate(cert, c);
      ok := problem.None? && cert.order == o
            && cert.order.transfer.from == p.seal.account && cert.order.transfer.fromSeq == p.seal.seqNo;
    case (VoidSlot, NoCertProof(votes, size)) =>
      if size != |c.members| {
        return false;
      }
      ok := CheckNoCert(votes + own, c, p.seal.account, p.seal.seqNo);
    case _ => ok := false;
  }

  /** What agreement votes are matched on: the outcome and the slot, not the committee id. */
  datatype Digest = Digest(outcome: SealOutcome, account: AccountId, seqNo: U64)

  function SealDigest(s: SlotSeal): (r: Digest) { Digest(s.outcome, s.account, s.seqNo) }

  datatype Msg = Propose(proposal: SealProposal) | SealVote(digest: Digest, from: string)

  datatype NodeState = NodeState(id: string, committee: Committee, own: seq<Vote>, votedFor: Option<Digest>,
                                 votes: map<Digest, set<string>>, proposalSeal: Option<SlotSeal>,
                                         decided: Option<SlotSeal>)

  function FreshNode(id: string, c: Committee, own: seq<Vote>): (r: NodeState) {
    NodeState(id, c, own, None, map[], None, None)
  }

  function RecordVote(s: NodeState, d: Digest, from: string): (r: NodeState) {
    var names := (if d in s.votes then s.votes[d] else {}) + {from};
    var s1 := s.(votes := s.votes[d := names]);
    if s.decided.None? && s.votedFor == Some(d) && |names| >= s.committee.QuorumSize()
    then s1.(decided := s.proposalSeal) else s1
  }

  ghost function Process(s: NodeState, m: Msg): (r: NodeState) {
    match m
    case Propose(p) =>
      if s.votedFor.None? && ExternallyValid(p, s.committee, s.own) then
        var d := SealDigest(p.seal);
        RecordVote(s.(votedFor := Some(d), proposalSeal := Some(p.seal)), d, s.id)
      else s
    case SealVote(d, from) => if s.votedFor == Some(d) then RecordVote(s, d, from) else s
  }

  /** The vote a node sends out when it accepts a proposal. */
  ghost function Reply(s: NodeState, m: Msg): (r: Option<Msg>) {
    if m.Propose? && s.votedFor.None? && ExternallyValid(m.proposal, s.committee, s.own)
    then Some(SealVote(SealDigest(m.proposal.seal), s.id)) else None
  }

  ghost function ProcessAll(s: NodeState, msgs: seq<Msg>): (r: NodeState) {
    if msgs == [] then s else Process(ProcessAll(s, msgs[..|msgs| - 1]), msgs[|msgs| - 1])
  }

  class AgreementNode {
    const id: string
    const committee: Committee
    const own: seq<Vote>
    var votedFor: Option<Digest>
    var votes: map<Digest, set<string>>
    var proposalSeal: Option<SlotSeal>
    var decided: Option<SlotSeal>

    ghost function State(): (r: NodeState)
      reads this
    {
      NodeState(id, committee, own, votedFor, votes, proposalSeal, decided)
    }

    constructor (id: string, c: Committee, own: seq<Vote>)
      ensures State() == FreshNode(id, c, own)
    {
      this.id, committee, this.own := id, c, own;
      votedFor, votes, proposalSeal, decided := None, map[], None, None;
    }

    /** Process one delivered message, returning this node's own vote if it cast one. */
    method Deliver(m: Msg) returns (reply: Option<Msg>)
      modifies this
      ensures State() == Process(old(State()), m) && reply == Reply(old(State()), m)
      ensures reply.Some? ==> reply.value.SealVote?
    {
      reply := None;
      match m
      case Propose(p) =>
        var valid := CheckExternallyValid(p, committee, own);
        if votedFor.None? && valid {
          var d := SealDigest(p.seal);
          votedFor, proposalSeal := Some(d), Some(p.seal);
          Tally(d, id);
          reply := Some(SealVote(d, id));
        }
      case SealVote(d, from) =>
        if votedFor == Some(d) {
          Tally(d, from);
        }
    }

    method Tally(d: Digest, from: string)
      modifies this
      ensures State() == RecordVote(old(State()), d, from)
    {
      var names := (if d in votes then votes[d] else {}) + {from};
      votes := votes[d := names];
      if decided.None? && votedFor == Some(d) && |names| >= committee.QuorumSize() {
        decided := proposalSeal;
      }
    }
  }

  /** A node decides only a seal whose proposal it received and found externally valid, and only
      on a quorum of recorded names. */
  ghost predicate Grounded(s: NodeState, msgs: seq<Msg>, c: Committee, own: seq<Vote>) {
    && s.committee == c && s.own == own
    && (s.votedFor.Some? ==> s.proposalSeal.Some? && s.votedFor.value == SealDigest(s.proposalSeal.value))
    && (s.votedFor.Some? ==>
          exists i :: 0 <= i < |msgs| && msgs[i].Propose? && ExternallyValid(msgs[i].proposal, c, own)
                      && msgs[i].proposal.seal == s.proposalSeal.value)
    && (s.votedFor.None? ==> s.decided.None? && s.proposalSeal.None?)
    && (s.decided.Some? ==> s.decided == s.proposalSeal && s.votedFor.value in s.votes
                            && |s.votes[s.votedFor.value]| >= c.QuorumSize())
  }

  lemma RecordGrounded(s: NodeState, msgs: seq<Msg>, c: Committee, own: seq<Vote>, d: Digest, from: string)
    requires Grounded(s, msgs, c, own) && s.votedFor == Some(d)
    ensures Grounded(RecordVote(s, d, from), msgs, c, own)
  {
    if s.decided.Some? {
      SubsetSize(s.votes[d], s.votes[d] + {from});
    }
  }

  lemma ProcessGrounded(s: NodeState, msgs: seq<Msg>, c: Committee, own: seq<Vote>, m: Msg)
    requires Grounded(s, msgs, c, own)
    ensures Grounded(Process(s, m), msgs + [m], c, own)
  {
    var all := msgs + [m];
    assert Grounded(s, all, c, own) by {
      if s.votedFor.Some? {
        var i :| 0 <= i < |msgs| && msgs[i].Propose? && ExternallyValid(msgs[i].proposal, c, own)
                 && msgs[i].proposal.seal == s.proposalSeal.value;
        assert all[i] == msgs[i];
      }
    }
    match m
    case Propose(p) =>
      if s.votedFor.None? && ExternallyValid(p, c, own) {
        var s1 := s.(votedFor := Some(SealDigest(p.seal)), proposalSeal := Some(p.seal));
        assert all[|msgs|] == m;
        RecordGrounded(s1, all, c, own, SealDigest(p.seal), s.id);
      }
    case SealVote(d, from) =>
      if s.votedFor == Some(d) {
        RecordGrounded(s, all, c, own, d, from);
      }
  }

  lemma {:induction false} DecisionsAreGrounded(id: string, c: Committee, own: seq<Vote>, msgs: seq<Msg>)
    ensures Grounded(ProcessAll(FreshNode(id, c, own), msgs), msgs, c, own)
    decreases |msgs|
  {
    if msgs != [] {
      var init := msgs[..|msgs| - 1];
      DecisionsAreGrounded(id, c, own, init);
      ProcessGrounded(ProcessAll(FreshNode(id, c, own), init), init, c, own, msgs[|msgs| - 1]);
      assert init + [msgs[|msgs| - 1]] == msgs;
    }
  }

  // ---- Agreement ----

  /** Every vote a proposal or a node relies on belongs to the one round at hand and is authentic. */
  ghost predicate SoundEvidence(sys: System, c: Committee, p: SealProposal, own: seq<Vote>, round: U64) {
    var account, seqNo := p.seal.account, p.seal.seqNo;
    && AllAuthentic(sys, own, c, account, seqNo, round)
    && (match p.evidence
        case CertFor(cert) => AllAuthentic(sys, cert.votes, c, account, seqNo, round)
        case NoCertProof(votes, _) => AllAuthentic(sys, votes, c, account, seqNo, round))
  }

  lemma CertRound(sys: System, cert: Certificate, c: Committee, account: AccountId, seqNo: U64, round: U64)
    requires CertifiedBy(cert, c) && AllAuthentic(sys, cert.votes, c, account, seqNo, round)
    requires cert.order.transfer.from == account && cert.order.transfer.fromSeq == seqNo
    ensures cert.order.round == round
    ensures forall v :: v in cert.votes ==> GenuineVote(sys, v)
  {
    forall v | v in cert.votes
      ensures v.round == round == cert.order.round && GenuineVote(sys, v)
    {
      var i :| 0 <= i < |cert.votes| && cert.votes[i] == v;
      assert ValidateVote(cert.votes[i], cert.order, c).None?;
      assert Counts(v, c, account, seqNo) && Authentic(sys, v, c, account, seqNo, round);
    }
    assert cert.votes[0] in cert.votes;
  }

  /** In one round two certificates for a slot with no install between their votes differ at most in the owner
      signature: votes do not cover it. */
  lemma RoundCertificatesAgree(sys: System, c: Committee, account: AccountId, seqNo: U64, round: U64, x: Certificate,
                               y: Certificate)
    requires SystemPromises(sys) && WithinBudget(sys, c) && OneStretch(sys, x.votes + y.votes)
    requires CertifiedBy(x, c) && AllAuthentic(sys, x.votes, c, account, seqNo, round)
    requires CertifiedBy(y, c) && AllAuthentic(sys, y.votes, c, account, seqNo, round)
    requires x.order.transfer.from == y.order.transfer.from == account
    requires x.order.transfer.fromSeq == y.order.transfer.fromSeq == seqNo
    ensures x.order == y.order.(ownerSig := x.order.ownerSig)
  {
    hide OneStretch, SystemPromises;
    CertRound(sys, x, c, account, seqNo, round);
    CertRound(sys, y, c, account, seqNo, round);
    StretchCertificatesAgree(sys, c, x, y);
  }

  /** The votes a proposal's validity rests on at a node with these own votes. */
  function Used(p: SealProposal, own: seq<Vote>): (votes: seq<Vote>) {
    match p.evidence
    case CertFor(cert) => cert.votes
    case NoCertProof(votes, _) => votes + own
  }

  lemma StretchOfPart(sys: System, all: seq<Vote>, part: seq<Vote>)
    requires OneStretch(sys, all) && forall v :: v in part ==> v in all
    ensures OneStretch(sys, part)
  {
    var pick :| Picks(sys, all, pick);
    assert Picks(sys, part, pick);
  }

  /** Two externally valid proposals for one slot, possibly checked by different nodes against
      different evidence, never mix Finalize and Void, and finalize the same transfer; they carry
      the same outcome exactly when the owner signature of the finalized order is the same. */
  lemma ValidProposalsAgree(sys: System, c: Committee, round: U64, p: SealProposal, ownP: seq<Vote>, q: SealProposal,
                            ownQ: seq<Vote>)
    requires Reachable(sys) && WithinBudget(sys, c) && OneStretch(sys, Used(p, ownP) + Used(q, ownQ))
    requires p.seal.account == q.seal.account && p.seal.seqNo == q.seal.seqNo
    requires ExternallyValid(p, c, ownP) && ExternallyValid(q, c, ownQ)
    requires SoundEvidence(sys, c, p, ownP, round) && SoundEvidence(sys, c, q, ownQ, round)
    ensures p.seal.outcome.VoidSlot? <==> q.seal.outcome.VoidSlot?
    ensures p.seal.outcome.Finalize? && q.seal.outcome.Finalize? ==>
              && p.seal.outcome.order.transfer == q.seal.outcome.order.transfer
              && (p.seal.outcome == q.seal.outcome <==> p.seal.outcome.order.ownerSig == q.seal.outcome.order.ownerSig)
  {
    hide OneStretch, Reachable, SystemPromises;
    var account, seqNo := p.seal.account, p.seal.seqNo;
    ReachablePromises(sys);
    match (p.evidence, q.evidence)
    case (CertFor(x), CertFor(y)) =>
      RoundCertificatesAgree(sys, c, account, seqNo, round, x, y);
    case (CertFor(x), NoCertProof(votes, _)) =>
      StretchOfPart(sys, x.votes + (votes + ownQ), votes + ownQ + x.votes);
      VoidExcludesCertificate(sys, c, votes + ownQ, x, round);
    case (NoCertProof(votes, _), CertFor(y)) =>
      VoidExcludesCertificate(sys, c, votes + ownP, y, round);
    case (NoCertProof(_, _), NoCertProof(_, _)) =>
  }

  /** A node: its name and its own votes. */
  datatype Site = Site(id: string, own: seq<Vote>)

  ghost function Outcome(c: Committee, x: Site, msgs: seq<Msg>): (r: Option<SlotSeal>) {
    ProcessAll(FreshNode(x.id, c, x.own), msgs).decided
  }

  /** Every proposal among the messages is one of `ps`; votes may be anything. */
  ghost predicate Proposes(msgs: seq<Msg>, ps: set<SealProposal>) {
    forall m :: m in msgs && m.Propose? ==> m.proposal in ps
  }

  /** The proposals are for one slot, and whatever evidence two of them rest on at two of the sites is authentic,
      of one round, and has no install in between. */
  ghost predicate SoundRound(sys: System, c: Committee, round: U64, account: AccountId, seqNo: U64, sites: set<Site>,
                             ps: set<SealProposal>) {
    && Reachable(sys) && WithinBudget(sys, c)
    && (forall p :: p in ps ==> p.seal.account == account && p.seal.seqNo == seqNo)
    && (forall p, x :: p in ps && x in sites ==> SoundEvidence(sys, c, p, x.own, round))
    && (forall p, q, x, y :: p in ps && q in ps && x in sites && y in sites ==>
              OneStretch(sys, Used(p, x.own) + Used(q, y.own)))
  }

  /** Seal agreement: whatever messages each honest node receives, in whatever order, with any
      number of proposals for the slot and any injected agreement votes, two nodes that decide hold
      the same kind of outcome, the same transfer if they finalize, and the same order if its
      owner signed it once. */
  lemma SealsAgree(sys: System, c: Committee, round: U64, account: AccountId, seqNo: U64, sites: set<Site>,
                   ps: set<SealProposal>,
                   x: Site, msgsX: seq<Msg>, y: Site, msgsY: seq<Msg>)
    requires SoundRound(sys, c, round, account, seqNo, sites, ps) && x in sites && y in sites
    requires Proposes(msgsX, ps) && Proposes(msgsY, ps)
    requires Outcome(c, x, msgsX).Some? && Outcome(c, y, msgsY).Some?
    ensures var a, b := Outcome(c, x, msgsX).value.outcome, Outcome(c, y, msgsY).value.outcome;
            && (a.VoidSlot? <==> b.VoidSlot?)
            && (a.Finalize? && b.Finalize? ==> a.order.transfer == b.order.transfer
                                               && (a == b <==> a.order.ownerSig == b.order.ownerSig))
  {
    hide Reachable, OneStretch, SoundEvidence, ExternallyValid, ProcessAll, WithinBudget, Used;
    var i := ValidProposal(x.id, c, x.own, msgsX);
    var j := ValidProposal(y.id, c, y.own, msgsY);
    ValidProposalsAgree(sys, c, round, msgsX[i].proposal, x.own, msgsY[j].proposal, y.own);
  }

  // ---- When all decisions are one ----

  /** Any two decisions at these sites, reached from these proposals and any votes in any order, are the same. */
  ghost predicate OneDecision(c: Committee, sites: set<Site>, ps: set<SealProposal>) {
    forall x, y, msgsX, msgsY :: x in sites && y in sites && Proposes(msgsX, ps) && Proposes(msgsY, ps)
                                 && Outcome(c, x, msgsX).Some? && Outcome(c, y, msgsY).Some?
                                 ==> Outcome(c, x, msgsX).value.outcome == Outcome(c, y, msgsY).value.outcome
  }

  /** No two proposals that the sites find valid finalize orders with different owner signatures. */
  ghost predicate OneSignature(c: Committee, sites: set<Site>, ps: set<SealProposal>) {
    forall p, q, x, y :: p in ps && q in ps && x in sites && y in sites
                         && ExternallyValid(p, c, x.own) && ExternallyValid(q, c, y.own)
                         && p.seal.outcome.Finalize? && q.seal.outcome.Finalize?
                         ==> p.seal.outcome.order.ownerSig == q.seal.outcome.order.ownerSig
  }

  /** The n-th of endlessly many names. */
  function Name(n: nat): (s: string)
    ensures |s| == n
  {
    if n == 0 then "" else Name(n - 1) + "x"
  }

  /** A proposal followed by `k` votes for it under different names. */
  function Carried(p: SealProposal, k: nat): (msgs: seq<Msg>) {
    if k == 0 then [Propose(p)] else Carried(p, k - 1) + [SealVote(SealDigest(p.seal), Name(k - 1))]
  }

  /** The node follows `p`, has recorded the first `k` names, and has decided if they make a quorum. */
  ghost predicate Follows(s: NodeState, c: Committee, p: SealProposal, k: nat) {
    var d := SealDigest(p.seal);
    && s.committee == c && s.votedFor == Some(d) && s.proposalSeal == Some(p.seal) && d in s.votes
    && (forall i :: 0 <= i < k ==> Name(i) in s.votes[d])
    && (s.decided.Some? ==> s.decided == Some(p.seal))
    && (k > 0 && |s.votes[d]| >= c.QuorumSize() ==> s.decided.Some?)
  }

  lemma FollowsFirst(x: Site, c: Committee, p: SealProposal)
    requires ExternallyValid(p, c, x.own)
    ensures Follows(Process(FreshNode(x.id, c, x.own), Propose(p)), c, p, 0)
  {
    hide ExternallyValid;
  }

  lemma FollowsNext(s: NodeState, c: Committee, p: SealProposal, k: nat)
    requires Follows(s, c, p, k)
    ensures Follows(Process(s, SealVote(SealDigest(p.seal), Name(k))), c, p, k + 1)
  {
    hide ExternallyValid, Name;
  }

  lemma {:induction false} CarriedDecides(x: Site, c: Committee, p: SealProposal, k: nat)
    requires ExternallyValid(p, c, x.own)
    ensures Follows(ProcessAll(FreshNode(x.id, c, x.own), Carried(p, k)), c, p, k)
    ensures Proposes(Carried(p, k), {p})
  {
    hide Follows, Process, ExternallyValid, FreshNode;
    var s0 := FreshNode(x.id, c, x.own);
    if k == 0 {
      assert [Propose(p)][..0] == [] && ProcessAll(s0, []) == s0;
      FollowsFirst(x, c, p);
    } else {
      CarriedDecides(x, c, p, k - 1);
      ScriptSnoc(s0, Carried(p, k - 1), SealVote(SealDigest(p.seal), Name(k - 1)));
      FollowsNext(ProcessAll(s0, Carried(p, k - 1)), c, p, k - 1);
    }
  }

  lemma {:induction false} NamesDiffer(k: nat, s: set<string>)
    requires forall i :: 0 <= i < k ==> Name(i) in s
    ensures |s| >= k
    decreases k
  {
    if k > 0 {
      NamesDiffer(k - 1, s - {Name(k - 1)});
    }
  }

  /** A valid proposal can always be decided. */
  lemma ValidIsDecidable(x: Site, c: Committee, p: SealProposal) returns (msgs: seq<Msg>)
    requires ExternallyValid(p, c, x.own)
    ensures Proposes(msgs, {p}) && Outcome(c, x, msgs) == Some(p.seal)
  {
    var k := c.QuorumSize() + 1;
    msgs := Carried(p, k);
    CarriedDecides(x, c, p, k);
    NamesDiffer(k, ProcessAll(FreshNode(x.id, c, x.own), msgs).votes[SealDigest(p.seal)]);
  }

  /** On sound evidence of one round, every two decisions agree, whatever the order of messages and the injected
      votes, if and only if no two externally valid Finalize proposals carry different owner signatures. */
  lemma DecisionsAgreeExactly(sys: System, c: Committee, round: U64, account: AccountId, seqNo: U64, sites: set<Site>,
                              ps: set<SealProposal>)
    requires SoundRound(sys, c, round, account, seqNo, sites, ps)
    ensures OneDecision(c, sites, ps) <==> OneSignature(c, sites, ps)
  {
    hide Reachable, WithinBudget, SoundRound, ExternallyValid, ProcessAll, Outcome;
    if OneSignature(c, sites, ps) {
      forall x, y, msgsX, msgsY | x in sites && y in sites && Proposes(msgsX, ps) && Proposes(msgsY, ps)
                                  && Outcome(c, x, msgsX).Some? && Outcome(c, y, msgsY).Some?
        ensures Outcome(c, x, msgsX).value.outcome == Outcome(c, y, msgsY).value.outcome
      {
        SealsAgree(sys, c, round, account, seqNo, sites, ps, x, msgsX, y, msgsY);
        var p := DecidedProposal(c, x, msgsX, ps);
        var q := DecidedProposal(c, y, msgsY, ps);
      }
    }
    if OneDecision(c, sites, ps) {
      forall p, q, x, y | p in ps && q in ps && x in sites && y in sites
                          && ExternallyValid(p, c, x.own) && ExternallyValid(q, c, y.own)
                          && p.seal.outcome.Finalize? && q.seal.outcome.Finalize?
        ensures p.seal.outcome.order.ownerSig == q.seal.outcome.order.ownerSig
      {
        var msgsX := ValidIsDecidable(x, c, p);
        var msgsY := ValidIsDecidable(y, c, q);
        assert Proposes(msgsX, ps) && Proposes(msgsY, ps);
      }
    }
  }

  /** Behind a decision there is a valid proposal among those sent. */
  lemma DecidedProposal(c: Committee, x: Site, msgs: seq<Msg>, ps: set<SealProposal>) returns (p: SealProposal)
    requires Outcome(c, x, msgs).Some? && Proposes(msgs, ps)
    ensures p in ps && ExternallyValid(p, c, x.own) && Outcome(c, x, msgs) == Some(p.seal)
  {
    var i := ValidProposal(x.id, c, x.own, msgs);
    p := msgs[i].proposal;
  }

  lemma ValidProposal(x: string, c: Committee, own: seq<Vote>, msgs: seq<Msg>) returns (i: nat)
    requires ProcessAll(FreshNode(x, c, own), msgs).decided.Some?
    ensures i < |msgs| && msgs[i] in msgs && msgs[i].Propose? && ExternallyValid(msgs[i].proposal, c, own)
            && ProcessAll(FreshNode(x, c, own), msgs).decided == Some(msgs[i].proposal.seal)
  {
    DecisionsAreGrounded(x, c, own, msgs);
    i :| 0 <= i < |msgs| && msgs[i].Propose? && ExternallyValid(msgs[i].proposal, c, own)
         && msgs[i].proposal.seal == ProcessAll(FreshNode(x, c, own), msgs).proposalSeal.value;
  }

  // ---- The synchronous driver ----

  /** The votes that nodes in these states cast on a message, in node order. */
  ghost function Replies(states: seq<NodeState>, m: Msg): (replies: seq<Msg>)
    ensures forall r :: r in replies ==> r.SealVote?
  {
    if states == [] then []
    else
      var reply := Reply(states[|states| - 1], m);
      Replies(states[..|states| - 1], m) + if reply.Some? then [reply.value] else []
  }

  /** Hand one message to every node; collect the votes they cast. */
  method DeliverToAll(nodes: seq<AgreementNode>, m: Msg, ghost states: seq<NodeState>) returns (replies: seq<Msg>)
    requires Distinct(nodes) && |states| == |nodes| && forall i :: 0 <= i < |nodes| ==> nodes[i].State() == states[i]
    modifies nodes
    ensures forall i :: 0 <= i < |nodes| ==> nodes[i].State() == Process(old(nodes[i].State()), m)
    ensures replies == Replies(states, m)
  {
    hide Process, Reply;
    replies := [];
    for n := 0 to |nodes|
      invariant replies == Replies(states[..n], m)
      invariant forall i :: 0 <= i < n ==> nodes[i].State() == Process(old(nodes[i].State()), m)
      invariant forall i :: n <= i < |nodes| ==> nodes[i].State() == old(nodes[i].State())
    {
      var reply := nodes[n].Deliver(m);
      assert states[..n + 1][..n] == states[..n];
      if reply.Some? {
        replies := replies + [reply.value];
      }
    }
    assert states[..|nodes|] == states;
  }

  /** Every node has processed exactly the script so far. */
  ghost predicate FollowsScript(nodes: seq<AgreementNode>, honest: seq<(string, seq<Vote>)>, c: Committee,
                                script: seq<Msg>)
    reads nodes
  {
    |nodes| == |honest| && forall j :: 0 <= j < |nodes| ==>
      nodes[j].State() == ProcessAll(FreshNode(honest[j].0, c, honest[j].1), script)
  }

  ghost predicate Distinct(nodes: seq<AgreementNode>) {
    forall i, j :: 0 <= i < j < |nodes| ==> nodes[i] != nodes[j]
  }

  lemma ScriptSnoc(s: NodeState, script: seq<Msg>, m: Msg)
    ensures ProcessAll(s, script + [m]) == Process(ProcessAll(s, script), m)
  {
    assert (script + [m])[..|script|] == script;
  }

  /** Where each node stands after the script. */
  ghost function Standing(honest: seq<(string, seq<Vote>)>, c: Committee, script: seq<Msg>): (r: seq<NodeState>) {
    seq(|honest|, j requires 0 <= j < |honest| => ProcessAll(FreshNode(honest[j].0, c, honest[j].1), script))
  }

  method Feed(nodes: seq<AgreementNode>, m: Msg, ghost honest: seq<(string, seq<Vote>)>, ghost c: Committee,
              ghost script: seq<Msg>)
    returns (replies: seq<Msg>)
    requires Distinct(nodes) && FollowsScript(nodes, honest, c, script)
    modifies nodes
    ensures FollowsScript(nodes, honest, c, script + [m])
    ensures replies == Replies(Standing(honest, c, script), m)
  {
    replies := DeliverToAll(nodes, m, Standing(honest, c, script));
    forall j | 0 <= j < |nodes|
      ensures nodes[j].State() == ProcessAll(FreshNode(honest[j].0, c, honest[j].1), script + [m])
    {
      ScriptSnoc(FreshNode(honest[j].0, c, honest[j].1), script, m);
    }
  }

  method NewNodes(c: Committee, honest: seq<(string, seq<Vote>)>) returns (nodes: seq<AgreementNode>)
    ensures fresh(nodes) && Distinct(nodes) && FollowsScript(nodes, honest, c, [])
  {
    nodes := [];
    for i := 0 to |honest|
      invariant |nodes| == i && fresh(nodes) && Distinct(nodes)
      invariant forall j :: 0 <= j < i ==> nodes[j].State() == FreshNode(honest[j].0, c, honest[j].1)
    {
      var node := new AgreementNode(honest[i].0, c, honest[i].1);
      nodes := nodes + [node];
    }
  }

  method FeedAll(nodes: seq<AgreementNode>, msgs: seq<Msg>, ghost honest: seq<(string, seq<Vote>)>,
                 ghost c: Committee, ghost script: seq<Msg>)
    requires Distinct(nodes) && FollowsScript(nodes, honest, c, script)
    modifies nodes
    ensures FollowsScript(nodes, honest, c, script + msgs)
  {
    hide Replies, Standing, ProcessAll;
    assert script + msgs[..0] == script;
    for i := 0 to |msgs|
      invariant FollowsScript(nodes, honest, c, script + msgs[..i])
    {
      var _ := Feed(nodes, msgs[i], honest, c, script + msgs[..i]);
      assert script + msgs[..i] + [msgs[i]] == script + msgs[..i + 1];
    }
    assert msgs[..|msgs|] == msgs;
  }

  method Decisions(nodes: seq<AgreementNode>) returns (decisions: seq<Option<SlotSeal>>)
    ensures |decisions| == |nodes|
    ensures forall i :: 0 <= i < |nodes| ==> decisions[i] == nodes[i].State().decided
  {
    decisions := [];
    for i := 0 to |nodes|
      invariant |decisions| == i
      invariant forall j :: 0 <= j < i ==> decisions[j] == nodes[j].State().decided
    {
      decisions := decisions + [nodes[i].decided];
    }
  }

  /** The broadcast votes in delivery order; positions past the end are skipped. */
  function Scheduled(broadcast: seq<Msg>, delivery: seq<nat>): (msgs: seq<Msg>)
    ensures forall m :: m in msgs ==> m in broadcast
  {
    if delivery == [] then []
    else (if delivery[0] < |broadcast| then [broadcast[delivery[0]]] else []) + Scheduled(broadcast, delivery[1..])
  }

  /** Drive a set of honest nodes through one proposal, the resulting votes in `delivery` order, and
      any injected messages. All nodes process one common script, so `SealsAgree` applies to any
      two of the returned decisions. */
  method RunSingleDecree(c: Committee, proposal: SealProposal, honest: seq<(string, seq<Vote>)>, delivery: seq<nat>,
                         injected: seq<Msg>)
    returns (decisions: seq<Option<SlotSeal>>, ghost delivered: seq<Msg>)
    ensures |decisions| == |honest|
    ensures delivered == Scheduled(Replies(Standing(honest, c, []), Propose(proposal)), delivery)
    ensures forall i :: 0 <= i < |honest| ==>
              decisions[i] == ProcessAll(FreshNode(honest[i].0, c, honest[i].1),
                                         [Propose(proposal)] + delivered + injected).decided
  {
    var nodes := NewNodes(c, honest);
    var broadcast := Feed(nodes, Propose(proposal), honest, c, []);
    assert [] + [Propose(proposal)] == [Propose(proposal)];
    var msgs := Scheduled(broadcast, delivery);
    delivered := msgs;
    FeedAll(nodes, msgs, honest, c, [Propose(proposal)]);
    FeedAll(nodes, injected, honest, c, [Propose(proposal)] + msgs);
    decisions := Decisions(nodes);
  }
}
