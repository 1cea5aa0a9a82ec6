/** Where the slot-seal guarantees end: the void test speaks about one round between installs, and a
    certificate does not pin the owner's signature. */
module SealLimits {
  import opened Basics
  import opened Orders
  import opened Committees
  import opened Realizations
  import opened TwoMembers
  import opened SlotSeals

  /** Observed round-`r` votes for the slot of a certificate with round-`s` votes, all authentic. */
  ghost predicate VoidSetting(sys: System, c: Committee, observed: seq<Vote>, cert: Certificate, r: U64, s: U64) {
    var t := cert.order.transfer;
    && Realizable(sys) && WithinBudget(sys, c)
    && AllAuthentic(sys, observed, c, t.from, t.fromSeq, r)
    && AllAuthentic(sys, cert.votes, c, t.from, t.fromSeq, s)
    && NoCertCanForm(observed, c, t.from, t.fromSeq)
  }

  /** A run in which a slot is voided on the split votes of round `r` and then certified in round `s`, possible
      whenever the rounds differ or an install lies between. */
  lemma VoidIsPerRound(r: U64, s: U64, install: bool) returns (sys: System, observed: seq<Vote>, cert: Certificate)
    requires install || r != s
    ensures VoidSetting(sys, Pair(), observed, cert, r, s) && CertifiedBy(cert, Pair())
    ensures !install ==> NoInstall(sys)
  {
    hide Realizable, CertifiedBy, GenuineVote, IssuedVote, NoInstall, WithinBudget, Played, NoCertCanForm;
    sys, cert := Played(10, 20, r, install, 10, s), BothSign(10, s, 0);
    observed := [Ballot("a0", 10, r), Ballot("a1", 20, r)];
    PlayedOut(10, 20, r, install, 10, s);
    forall v | v in observed || v in cert.votes
      ensures GenuineVote(sys, v)
    {
      IssuedIsGenuine(sys, v);
    }
    BothSignCertifies(10, s, 0);
    SplitVoids(observed, r);
  }

  lemma SplitTallies(observed: seq<Vote>, r: U64)
    requires observed == [Ballot("a0", 10, r), Ballot("a1", 20, r)]
    ensures Observed(observed, Pair(), "alice", 0) == {"a0", "a1"}
    ensures Supporters(observed, Pair(), "alice", 0, Choice("bob", 10)) == {"a0"}
    ensures Supporters(observed, Pair(), "alice", 0, Choice("bob", 20)) == {"a1"}
  {
    var c := Pair();
    assert Counts(observed[0], c, "alice", 0) && Counts(observed[1], c, "alice", 0);
    assert observed[0].authority == "a0" && observed[1].authority == "a1";
    assert ChoiceOf(observed[0]) == Choice("bob", 10) && ChoiceOf(observed[1]) == Choice("bob", 20);
    hide Counts, Ballot;
  }

  lemma SplitVoids(observed: seq<Vote>, r: U64)
    requires observed == [Ballot("a0", 10, r), Ballot("a1", 20, r)]
    ensures NoCertCanForm(observed, Pair(), "alice", 0)
  {
    Sizes();
    SplitTallies(observed, r);
    assert ChoiceOf(observed[0]) == Choice("bob", 10) && ChoiceOf(observed[1]) == Choice("bob", 20);
    hide Counts, Observed, Supporters, Ballot, Pair, ChoiceOf;
  }

  /** In every run of every committee within its budget, a void on round-`r` votes excludes round-`s`
      certificates; `install` says whether installs between the votes are admitted. */
  ghost predicate VoidHolds(r: U64, s: U64, install: bool) {
    forall sys, c, observed, cert :: VoidSetting(sys, c, observed, cert, r, s)
                                     && (install || OneStretch(sys, observed + cert.votes))
                                     ==> !CertifiedBy(cert, c)
  }

  /** The void test is sound exactly for certificates of the same round with no install in between. */
  lemma VoidExactly(r: U64, s: U64, install: bool)
    ensures VoidHolds(r, s, install) <==> r == s && !install
  {
    hide Realizable, Reachable, CertifiedBy, WithinBudget, OneStretch, AllAuthentic, NoCertCanForm, NoInstall;
    if r == s && !install {
      forall sys, c, observed, cert | VoidSetting(sys, c, observed, cert, r, s)
              && OneStretch(sys, observed + cert.votes)
        ensures !CertifiedBy(cert, c)
      {
        RealizableIsReachable(sys);
        ReachablePromises(sys);
        VoidExcludesCertificate(sys, c, observed, cert, r);
      }
    } else {
      var sys, observed, cert := VoidIsPerRound(r, s, install);
      if !install {
        RealizableIsReachable(sys);
        ReachablePromises(sys);
        NoInstallOneStretch(sys, observed + cert.votes);
      }
      assert !VoidHolds(r, s, install);
    }
  }

  function FinalizeFor(amount: U128, round: U64, nonce: nat): (p: SealProposal) {
    SealProposal(SlotSeal("alice", 0, Pair().Id(), Finalize(Pay(amount, round, nonce))),
                 CertFor(BothSign(amount, round, nonce)))
  }

  function Deciding(p: SealProposal, other: string): (msgs: seq<Msg>) {
    [Propose(p), SealVote(SealDigest(p.seal), other)]
  }

  /** The node's own vote and the other member's decide. */
  lemma TwoVotesDecide(x: Site, other: string, p: SealProposal)
    requires ExternallyValid(p, Pair(), x.own) && x.id != other
    ensures Outcome(Pair(), x, Deciding(p, other)) == Some(p.seal)
  {
    Sizes();
    hide ExternallyValid;
    var s0 := FreshNode(x.id, Pair(), x.own);
    var s1 := Process(s0, Propose(p));
    var s2 := Process(s1, SealVote(SealDigest(p.seal), other));
    assert s1.votes[SealDigest(p.seal)] == {x.id};
    assert s2.votes[SealDigest(p.seal)] == {x.id, other};
    var msgs := Deciding(p, other);
    assert msgs[..1] == [Propose(p)] && msgs[..1][..0] == [] && ProcessAll(s0, []) == s0;
    assert ProcessAll(s0, msgs[..1]) == s1;
  }

  lemma FinalizeValid(amount: U128, round: U64, nonce: nat)
    ensures ExternallyValid(FinalizeFor(amount, round, nonce), Pair(), [])
  {
    BothSignCertifies(amount, round, nonce);
  }

  /** Both members have voted for the payment, and nobody has journalled an install. */
  lemma PaymentVoted(amount: U128, round: U64) returns (sys: System)
    requires 0 < amount <= 100
    ensures Realizable(sys) && WithinBudget(sys, Pair()) && NoInstall(sys)
    ensures GenuineVote(sys, Ballot("a0", amount, round)) && GenuineVote(sys, Ballot("a1", amount, round))
  {
    hide Realizable, Opening, Unspent, Ready, Ballot, GenuineVote, IssuedVote, WithinBudget;
    sys := Opened(amount, amount, round, false);
    OpenedRealizable(amount, amount, round, false);
    OpeningState("a0", amount, round, false);
    OpeningState("a1", amount, round, false);
    AllHonest(sys);
    VoteIsIssued(sys, "a0", 0);
    VoteIsIssued(sys, "a1", 0);
    BallotsNamed(amount, round);
    IssuedIsGenuine(sys, Ballot("a0", amount, round));
    IssuedIsGenuine(sys, Ballot("a1", amount, round));
  }

  /** The evidence of such a proposal is sound once both members have voted. */
  lemma PaymentSound(sys: System, amount: U128, round: U64, nonce: nat)
    requires GenuineVote(sys, Ballot("a0", amount, round)) && GenuineVote(sys, Ballot("a1", amount, round))
    ensures SoundEvidence(sys, Pair(), FinalizeFor(amount, round, nonce), [], round)
    ensures Used(FinalizeFor(amount, round, nonce), []) == BothSign(amount, round, 0).votes
  {
    hide GenuineVote, Counts;
    assert Ballot("a0", amount, round).round == round && Ballot("a1", amount, round).round == round;
  }

  lemma PaymentsSound(sys: System, amount: U128, round: U64, sites: set<Site>, ps: set<SealProposal>)
    requires Realizable(sys) && WithinBudget(sys, Pair()) && NoInstall(sys)
    requires GenuineVote(sys, Ballot("a0", amount, round)) && GenuineVote(sys, Ballot("a1", amount, round))
    requires forall x :: x in sites ==> x.own == []
    requires forall p :: p in ps ==> exists nonce :: p == FinalizeFor(amount, round, nonce)
    ensures SoundRound(sys, Pair(), round, "alice", 0, sites, ps)
  {
    hide Realizable, Reachable, WithinBudget, NoInstall, OneStretch, GenuineVote, SystemPromises, Ballot,
            SoundEvidence, Used, Pair;
    RealizableIsReachable(sys);
    ReachablePromises(sys);
    var votes := BothSign(amount, round, 0).votes;
    NoInstallOneStretch(sys, votes + votes);
    forall p, x | p in ps && x in sites
      ensures SoundEvidence(sys, Pair(), p, x.own, round) && Used(p, x.own) == votes
    {
      var nonce :| p == FinalizeFor(amount, round, nonce);
      PaymentSound(sys, amount, round, nonce);
    }
    forall p | p in ps
      ensures p.seal.account == "alice" && p.seal.seqNo == 0
    {
      var nonce :| p == FinalizeFor(amount, round, nonce);
    }
  }

  /** An owner who signs one transfer body twice splits the nodes: in a run where both members voted for the
      payment, sound evidence lets one node decide one order id and the other another, out of the very same
      votes, for every amount and round. */
  lemma OwnerSignaturesSplit(amount: U128, round: U64, m: nat, n: nat)
    returns (sys: System, p: SealProposal, q: SealProposal)
    requires m != n && 0 < amount <= 100
    ensures Realizable(sys) && SoundRound(sys, Pair(), round, "alice", 0, {Site("a0", []), Site("a1", [])}, {p, q})
    ensures Outcome(Pair(), Site("a0", []), Deciding(p, "a1")) == Some(p.seal)
    ensures Outcome(Pair(), Site("a1", []), Deciding(q, "a0")) == Some(q.seal)
    ensures p.seal.outcome != q.seal.outcome
    ensures p.evidence.CertFor? && q.evidence.CertFor? && p.evidence.cert.votes == q.evidence.cert.votes
  {
    hide Realizable, WithinBudget, NoInstall, GenuineVote, ExternallyValid, Outcome, Ballot, SoundRound, Deciding;
    sys := PaymentVoted(amount, round);
    p, q := FinalizeFor(amount, round, m), FinalizeFor(amount, round, n);
    FinalizeValid(amount, round, m);
    FinalizeValid(amount, round, n);
    TwoVotesDecide(Site("a0", []), "a1", p);
    TwoVotesDecide(Site("a1", []), "a0", q);
    PaymentsSound(sys, amount, round, {Site("a0", []), Site("a1", [])}, {p, q});
  }
}
