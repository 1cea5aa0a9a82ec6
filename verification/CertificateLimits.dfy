/** Where certificate uniqueness and finality end, and that they end exactly there. */
module CertificateLimits {
  import opened Basics
  import opened Orders
  import opened Committees
  import opened Realizations
  import opened TwoMembers

  /** Two valid, genuine certificates of a committee within budget for one (account, sequence), in a run
      without forged evidence. */
  ghost predicate Setting(sys: System, c: Committee, x: Certificate, y: Certificate) {
    && Realizable(sys) && WithinBudget(sys, c)
    && CertifiedBy(x, c) && CertifiedBy(y, c)
    && (forall v :: v in x.votes || v in y.votes ==> GenuineVote(sys, v))
    && x.order.transfer.from == y.order.transfer.from && x.order.transfer.fromSeq == y.order.transfer.fromSeq
  }

  /** The repository's summary promises at most one certified transfer per (account, sequence). The
      code certifies per round: with honest members only, no crash and no install, any two different
      rounds of one sequence can certify different transfers. */
  lemma RoundsCertifyApart(r: U64, s: U64) returns (sys: System, x: Certificate, y: Certificate)
    requires r != s
    ensures Setting(sys, Pair(), x, y) && NoInstall(sys) && x.order.round == r && y.order.round == s
    ensures x.order.transfer != y.order.transfer
  {
    sys, x, y := Clash(r, s, false);
  }

  /** Votes are unique only between installs: re-electing the same roster keeps the committee id and
      releases the locks, so one committee certifies two transfers for one (account, sequence, round). */
  lemma InstallReopensSlot(r: U64) returns (sys: System, x: Certificate, y: Certificate)
    ensures Setting(sys, Pair(), x, y) && SlotOf(x.order) == SlotOf(y.order) && x.order.round == r
    ensures x.order.transfer != y.order.transfer
  {
    sys, x, y := Clash(r, r, true);
  }

  lemma Clash(r: U64, s: U64, install: bool) returns (sys: System, x: Certificate, y: Certificate)
    requires install || r != s
    ensures Setting(sys, Pair(), x, y) && x.order.round == r && y.order.round == s && (!install ==> NoInstall(sys))
    ensures x.order.transfer != y.order.transfer && x.order.transfer.from == y.order.transfer.from
  {
    hide Realizable, CertifiedBy, GenuineVote, IssuedVote, NoInstall, WithinBudget, Played;
    sys, x, y := Played(10, 10, r, install, 20, s), BothSign(10, r, 0), BothSign(20, s, 0);
    PlayedOut(10, 10, r, install, 20, s);
    forall v | v in x.votes || v in y.votes
      ensures GenuineVote(sys, v)
    {
      IssuedIsGenuine(sys, v);
    }
    BothSignCertifies(10, r, 0);
    BothSignCertifies(20, s, 0);
  }

  /** Certificates of rounds `r` and `s` agree in every run of every committee within its budget; `install`
      says whether installs between the votes are admitted. */
  ghost predicate AgreementHolds(r: U64, s: U64, install: bool) {
    forall sys, c, x, y :: Setting(sys, c, x, y) && x.order.round == r && y.order.round == s
                           && (install || OneStretch(sys, x.votes + y.votes))
                           ==> x.order.transfer == y.order.transfer
  }

  /** Agreement holds exactly when the rounds are equal and no install lies between. */
  lemma AgreementExactly(r: U64, s: U64, install: bool)
    ensures AgreementHolds(r, s, install) <==> r == s && !install
  {
    hide Realizable, Reachable, CertifiedBy, WithinBudget, OneStretch, GenuineVote, NoInstall;
    if r == s && !install {
      forall sys, c, x, y | Setting(sys, c, x, y) && x.order.round == r && y.order.round == s
              && OneStretch(sys, x.votes + y.votes)
        ensures x.order.transfer == y.order.transfer
      {
        RealizableIsReachable(sys);
        ReachablePromises(sys);
        StretchCertificatesAgree(sys, c, x, y);
      }
    } else {
      var sys, x, y := Clash(r, s, install);
      if !install {
        RealizableIsReachable(sys);
        ReachablePromises(sys);
        NoInstallOneStretch(sys, x.votes + y.votes);
      }
      assert !AgreementHolds(r, s, install);
    }
  }
}
