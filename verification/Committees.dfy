/** A committee of authorities of which at most f = floor((n-1)/3) may do anything at all. Honest
    members run as in AuthorityRuns; signatures of honest members cannot be forged. */
module Committees {
  import opened Basics
  import opened Ledgers
  import opened Orders
  import opened AuthorityRuns

  /** The honest members of a committee, by alias. */
  type System = map<AuthorityId, Node>

  ghost predicate SystemInitial(sys: System) {
    forall id :: id in sys ==> Initial(sys[id]) && sys[id].origin.id == id
  }

  /** One honest member takes one step; everybody else stays put. */
  ghost predicate SystemStep(sys: System, id: AuthorityId, e: Event, sys': System) {
    id in sys && Enabled(sys[id], e) && sys' == sys[id := Next(sys[id], e)]
  }

  datatype Move = Move(id: AuthorityId, event: Event)

  ghost predicate SystemRun(states: seq<System>, moves: seq<Move>) {
    && |states| == |moves| + 1
    && SystemInitial(states[0])
    && forall i :: 0 <= i < |moves| ==> SystemLinked(states, moves, i)
  }

  ghost predicate SystemLinked(states: seq<System>, moves: seq<Move>, i: nat)
    requires |states| == |moves| + 1 && i < |moves|
  {
    SystemStep(states[i], moves[i].id, moves[i].event, states[i + 1])
  }

  ghost predicate SystemInv(sys: System) {
    forall id :: id in sys ==> Inv(sys[id]) && sys[id].origin.id == id
  }

  lemma SystemStepKeepsInv(sys: System, id: AuthorityId, e: Event, sys': System)
    requires SystemInv(sys) && SystemStep(sys, id, e, sys')
    ensures SystemInv(sys')
  {
    StepKeepsInv(sys[id], e);
    NextKeepsOrigin(sys[id], e);
  }

  lemma NextKeepsOrigin(n: Node, e: Event)
    ensures Next(n, e).origin == n.origin
  {
  }

  lemma {:induction false} SystemRunKeepsInv(states: seq<System>, moves: seq<Move>, i: nat)
    requires SystemRun(states, moves) && i < |states|
    ensures SystemInv(states[i])
  {
    if i == 0 {
      forall id | id in states[0] ensures Inv(states[0][id]) {
        InitialInv(states[0][id]);
      }
    } else {
      SystemRunKeepsInv(states, moves, i - 1);
      assert SystemLinked(states, moves, i - 1);
      SystemStepKeepsInv(states[i - 1], moves[i - 1].id, moves[i - 1].event, states[i]);
    }
  }

  /** The promises an honest member's history keeps. */
  ghost predicate KeepsPromises(n: Node) {
    && VotesAgree(n)
    && (forall i :: 0 <= i < |n.votes| ==> VoteOf(n, n.votes[i]))
    && (forall a, b :: a in n.attested && b in n.attested && a.account == b.account && a.seqNo == b.seqNo ==>
              a.order == b.order)
  }

  ghost predicate SystemPromises(sys: System) {
    forall id :: id in sys ==> KeepsPromises(sys[id]) && sys[id].origin.id == id
  }

  lemma InvKeepsPromises(n: Node)
    requires Inv(n)
    ensures KeepsPromises(n)
  {
  }

  /** In every reachable system state every honest member has kept its promises. */
  lemma RunKeepsPromises(states: seq<System>, moves: seq<Move>, k: nat)
    requires SystemRun(states, moves) && k < |states|
    ensures SystemPromises(states[k])
  {
    SystemRunKeepsInv(states, moves, k);
    forall id | id in states[k] ensures KeepsPromises(states[k][id]) {
      InvKeepsPromises(states[k][id]);
    }
  }

  /** At most f members of the committee are not honest. */
  ghost predicate WithinBudget(sys: System, c: Committee) {
    |c.members.Keys - sys.Keys| <= Quorums.MaxFaulty(|c.members|)
  }

  /** An honest member's name on a vote means that member let out a vote for that transfer and round. */
  ghost predicate GenuineVote(sys: System, v: Vote) {
    v.authority in sys ==> exists i :: 0 <= i < |sys[v.authority].votes|
                                       && sys[v.authority].votes[i].vote.transfer == v.transfer
                                       && sys[v.authority].votes[i].vote.round == v.round
  }

  /** An honest member's name on an attestation means that member issued it. */
  ghost predicate GenuineAttestation(sys: System, a: Attestation) {
    a.authority in sys ==> exists b :: b in sys[a.authority].attested
                                       && b.account == a.account && b.seqNo == a.seqNo && b.order == a.order
  }

  /** No member has journalled an epoch certificate. */
  ghost predicate NoInstall(sys: System) {
    forall id :: id in sys ==> sys[id].stretch == 0
  }

  lemma VotersAreMembers(cert: Certificate, c: Committee)
    requires CertifiedBy(cert, c)
    ensures Voters(cert.votes) <= c.members.Keys
  {
    forall a | a in Voters(cert.votes) ensures a in c.members {
      var i :| 0 <= i < |cert.votes| && cert.votes[i].authority == a;
      assert ValidateVote(cert.votes[i], cert.order, c).None?;
    }
  }

  predicate Matches(e: VoteEvent, v: Vote) {
    e.vote.transfer == v.transfer && e.vote.round == v.round
  }

  /** `pick` finds, for each honest member's genuine vote, an event that let it out, and a member's picked events
      have no journalled epoch certificate between them. */
  ghost predicate Picks(sys: System, votes: seq<Vote>, pick: map<Vote, nat>) {
    && (forall v :: v in votes && v.authority in sys && GenuineVote(sys, v) ==>
          && v in pick && pick[v] < |sys[v.authority].votes|
          && Matches(sys[v.authority].votes[pick[v]], v))
    && (forall v, w :: v in votes && w in votes && v.authority == w.authority && v.authority in sys
                       && GenuineVote(sys, v) && GenuineVote(sys, w) && v in pick && w in pick
                       && pick[v] < |sys[v.authority].votes| && pick[w] < |sys[v.authority].votes|
                       ==> sys[v.authority].votes[pick[v]].stretch == sys[v.authority].votes[pick[w]].stretch)
  }

  /** No epoch certificate was journalled between honest members' votes among `votes`, for some choice of the
      events behind them: a member may have signed one of them again in another stretch. */
  ghost predicate OneStretch(sys: System, votes: seq<Vote>) {
    exists pick :: Picks(sys, votes, pick)
  }

  /** The first event that let out such a vote. */
  ghost function EventOf(sys: System, v: Vote): (i: nat)
    requires v.authority in sys && GenuineVote(sys, v)
    ensures i < |sys[v.authority].votes| && Matches(sys[v.authority].votes[i], v)
  {
    var i :| 0 <= i < |sys[v.authority].votes| && Matches(sys[v.authority].votes[i], v);
    i
  }

  lemma NoInstallOneStretch(sys: System, votes: seq<Vote>)
    requires SystemPromises(sys) && NoInstall(sys)
    ensures OneStretch(sys, votes)
  {
    forall id, i | id in sys && 0 <= i < |sys[id].votes|
      ensures sys[id].votes[i].stretch == 0
    {
      assert VoteOf(sys[id], sys[id].votes[i]);
    }
    var genuine := set v | v in votes && v.authority in sys && GenuineVote(sys, v);
    var pick := map v | v in genuine :: EventOf(sys, v);
    assert Picks(sys, votes, pick);
  }

  /** An honest voter of a certificate stands behind a vote for its order's transfer and round. */
  lemma HonestVoter(cert: Certificate, c: Committee, h: AuthorityId) returns (v: Vote)
    requires CertifiedBy(cert, c) && h in Voters(cert.votes)
    ensures v in cert.votes && v.authority == h && v.transfer == cert.order.transfer && v.round == cert.order.round
  {
    var k :| 0 <= k < |cert.votes| && cert.votes[k].authority == h;
    v := cert.votes[k];
    assert ValidateVote(v, cert.order, c).None?;
  }

  lemma CertifiedQuorum(cert: Certificate, c: Committee)
    requires CertifiedBy(cert, c)
    ensures |Voters(cert.votes)| >= Quorums.Quorum(|c.members.Keys|) && |c.members.Keys| == |c.members|
  {
    assert |c.members.Keys| == |c.members|;
  }

  /** What one honest member signed for one slot with no install in between is one transfer. */
  lemma MemberVotesAgree(sys: System, votes: seq<Vote>, v: Vote, w: Vote)
    requires SystemPromises(sys) && OneStretch(sys, votes) && v in votes && w in votes && v.authority == w.authority
    requires v.authority in sys && GenuineVote(sys, v) && GenuineVote(sys, w)
    requires v.round == w.round && v.transfer.from == w.transfer.from && v.transfer.fromSeq == w.transfer.fromSeq
    ensures v.transfer == w.transfer
  {
    var pick :| Picks(sys, votes, pick);
    var n := sys[v.authority];
    var a, b := n.votes[pick[v]], n.votes[pick[w]];
    assert Matches(a, v) && Matches(b, w) && a.stretch == b.stretch;
    hide OneStretch, Picks, GenuineVote;
    assert KeepsPromises(n) && VoteOf(n, a) && VoteOf(n, b);
    assert SlotOf(a.order) == SlotOf(b.order);
  }

  /** Two valid certificates for one (account, sequence, round) whose honest votes have no install between
      them carry the same transfer. */
  lemma StretchCertificatesAgree(sys: System, c: Committee, x: Certificate, y: Certificate)
    requires SystemPromises(sys) && WithinBudget(sys, c) && OneStretch(sys, x.votes + y.votes)
    requires CertifiedBy(x, c) && CertifiedBy(y, c)
    requires forall v :: v in x.votes || v in y.votes ==> GenuineVote(sys, v)
    requires SlotOf(x.order) == SlotOf(y.order)
    ensures x.order.transfer == y.order.transfer
  {
    hide OneStretch, SystemPromises, CertifiedBy, GenuineVote, Matches;
    VotersAreMembers(x, c);
    VotersAreMembers(y, c);
    CertifiedQuorum(x, c);
    CertifiedQuorum(y, c);
    var h := Quorums.QuorumsShareHonest(c.members.Keys, c.members.Keys - sys.Keys, Voters(x.votes), Voters(y.votes));
    var v := HonestVoter(x, c, h);
    var w := HonestVoter(y, c, h);
    MemberVotesAgree(sys, x.votes + y.votes, v, w);
  }

  /** Certificate uniqueness: in any run of any committee within its Byzantine budget and without
      an epoch install, two valid certificates for one (account, sequence, round) carry the same
      transfer. */
  lemma CertificatesAgree(states: seq<System>, moves: seq<Move>, k: nat, c: Committee, x: Certificate, y: Certificate)
    requires SystemRun(states, moves) && k < |states|
    requires WithinBudget(states[k], c) && NoInstall(states[k])
    requires CertifiedBy(x, c) && CertifiedBy(y, c)
    requires forall v :: v in x.votes || v in y.votes ==> GenuineVote(states[k], v)
    requires SlotOf(x.order) == SlotOf(y.order)
    ensures x.order.transfer == y.order.transfer
  {
    RunKeepsPromises(states, moves, k);
    NoInstallOneStretch(states[k], x.votes + y.votes);
    StretchCertificatesAgree(states[k], c, x, y);
  }

  lemma HonestAttestor(sys: System, c: Committee, account: AccountId, seqNo: U64, o: Order,
                       attestations: seq<Attestation>, h: AuthorityId)
    requires h in Attestors(account, seqNo, o, attestations, c) && h in sys && SystemPromises(sys)
    requires forall a :: a in attestations ==> GenuineAttestation(sys, a)
    ensures exists b :: b in sys[h].attested && b.account == account && b.seqNo == seqNo && b.order == o
  {
    var i :| 0 <= i < |attestations| && Attests(attestations[i], account, seqNo, o, c)
            && attestations[i].authority == h;
    assert GenuineAttestation(sys, attestations[i]);
  }

  lemma AttestorsAreMembers(account: AccountId, seqNo: U64, o: Order, attestations: seq<Attestation>, c: Committee)
    ensures Attestors(account, seqNo, o, attestations, c) <= c.members.Keys
  {
  }

  /** Finality is unique per (account, sequence): whatever rounds certified, whatever crashed,
      recovered or changed epoch, no two orders for one slot both gather a quorum of effect
      attestations. */
  lemma FinalityIsUnique(states: seq<System>, moves: seq<Move>, k: nat, c: Committee,
                         account: AccountId, seqNo: U64, x: Order, y: Order,
                         attestations: seq<Attestation>, bs: seq<Attestation>)
    requires SystemRun(states, moves) && k < |states| && WithinBudget(states[k], c)
    requires forall a :: a in attestations || a in bs ==> GenuineAttestation(states[k], a)
    requires EffectFinal(account, seqNo, x, attestations, c) && EffectFinal(account, seqNo, y, bs, c)
    ensures x == y
  {
    var sys := states[k];
    RunKeepsPromises(states, moves, k);
    var xs, ys := Attestors(account, seqNo, x, attestations, c), Attestors(account, seqNo, y, bs, c);
    AttestorsAreMembers(account, seqNo, x, attestations, c);
    AttestorsAreMembers(account, seqNo, y, bs, c);
    assert |c.members.Keys| == |c.members|;
    var h := Quorums.QuorumsShareHonest(c.members.Keys, c.members.Keys - sys.Keys, xs, ys);
    HonestAttestor(sys, c, account, seqNo, x, attestations, h);
    HonestAttestor(sys, c, account, seqNo, y, bs, h);
  }

  // ---- Reachable states ----

  ghost predicate Reachable(sys: System) {
    exists states: seq<System>, moves: seq<Move> :: SystemRun(states, moves) && states[|moves|] == sys
  }

  lemma ReachablePromises(sys: System)
    requires Reachable(sys)
    ensures SystemPromises(sys)
  {
    var states, moves :| SystemRun(states, moves) && states[|moves|] == sys;
    RunKeepsPromises(states, moves, |moves|);
  }

  /** Finality across committees, as of different epochs: effect quorums judged by two committees still name one
      order if the committees share more honest members than both Byzantine budgets together. By
      `FinalityLimits.FinalityExactly` no weaker condition will do. */
  lemma FinalityAcrossCommittees(sys: System, c: Committee, d: Committee,
                                 account: AccountId, seqNo: U64, x: Order, y: Order,
                                 xs: seq<Attestation>, ys: seq<Attestation>)
    requires Reachable(sys) && c.members != map[] && d.members != map[]
    requires |c.members.Keys * d.members.Keys * sys.Keys|
             > Quorums.MaxFaulty(|c.members|) + Quorums.MaxFaulty(|d.members|)
    requires forall a :: a in xs || a in ys ==> GenuineAttestation(sys, a)
    requires EffectFinal(account, seqNo, x, xs, c) && EffectFinal(account, seqNo, y, ys, d)
    ensures x == y
  {
    ReachablePromises(sys);
    AttestorsAreMembers(account, seqNo, x, xs, c);
    AttestorsAreMembers(account, seqNo, y, ys, d);
    var a, b := Attestors(account, seqNo, x, xs, c), Attestors(account, seqNo, y, ys, d);
    var faulty := (c.members.Keys + d.members.Keys) - sys.Keys;
    assert |c.members.Keys| == |c.members| && |d.members.Keys| == |d.members|;
    assert c.members.Keys * d.members.Keys - faulty == c.members.Keys * d.members.Keys * sys.Keys;
    Quorums.MustMeet(c.members.Keys, d.members.Keys, faulty, a, b);
    var h :| h in a * b && h !in faulty;
    HonestAttestor(sys, c, account, seqNo, x, xs, h);
    HonestAttestor(sys, d, account, seqNo, y, ys, h);
  }
}
