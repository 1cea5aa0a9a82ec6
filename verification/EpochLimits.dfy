/** Epoch certificates are not unique: fenced members keep confirming, so they may assent to one proposal over
    several frontiers, and an authority that is behind fail-stops on the second certificate. */
module EpochLimits {
  import opened Basics
  import opened Ledgers
  import opened Orders
  import opened Authorities
  import opened AuthorityRuns
  import opened Committees
  import opened Realizations
  import opened TwoMembers
  import opened EpochAgreement

  /** The frontier once alice's payment has been confirmed. */
  function LaterFrontier(): (f: Frontier) { [("alice", 1), ("bob", 0)] }

  function LaterAssent(id: AuthorityId): (v: EpochVote) {
    var c, f := Pair().Id(), LaterFrontier();
    EpochVote(id, c, 1, c, f, FrontierDigest(f), Sign(KeyOf(id), EpochAssent(id, c, 1, c, FrontierDigest(f))))
  }

  function LaterReelection(): (cert: EpochCert) {
    EpochCert(1, Proposal().nextRoster, LaterFrontier(), [LaterAssent("a0"), LaterAssent("a1")])
  }

  function Paid(): (l: Ledger) { map["alice" := Account(90, 1), "bob" := Account(10, 0)] }

  function Confirms(): (e: Event) {
    OnConfirm(Verified(Pay(10, 0, 0), Pair().Id()), Pair(), true, Durable)
  }

  function AssentsLater(): (e: Event) { OnEpochVote(LaterFrontier()) }

  function Late(cert: EpochCert): (e: Event) { OnInstall(cert, Pair(), Durable) }

  lemma LaterCertified()
    ensures EpochCertified(LaterReelection(), Pair().Id(), Pair())
  {
    var cert, id, c := LaterReelection(), Pair().Id(), Pair();
    Sizes();
    assert cert.votes[0].authority == "a0" && cert.votes[1].authority == "a1";
    assert EpochVoters(cert.votes) == {"a0", "a1"};
    assert EpochVoters(cert.votes[..1]) == {"a0"} by { assert cert.votes[..1][0].authority == "a0"; }
    assert EpochVoteValid(cert.votes[0], cert, id, c) && EpochVoteValid(cert.votes[1], cert, id, c);
    assert EpochVotesGood(cert, id, c, 0);
    assert EpochVotesGood(cert, id, c, 1);
    assert EpochVotesGood(cert, id, c, 2);
  }

  // ---- A member: fenced, it confirms, and assents again ----

  lemma FencedConfirms(n: Node, id: AuthorityId)
    requires Unspent(n.auth, id) && n.auth.epochState == Fencing(Proposal()) && n.auth.confirmed == map[]
    requires id in Pair().members
    ensures var n1 := Next(n, Confirms());
            && n1.auth.ledger == Paid() && n1.auth.epochState == Fencing(Proposal())
            && n1.auth.id == id && n1.auth.key == KeyOf(id) && n1.auth.policy == Rules()
            && n1.auth.committeeId == Pair().Id()
            && n1.votes == n.votes && n1.epochVotes == n.epochVotes
  {
    var o := Pay(10, 0, 0);
    assert VerifyOrder(Rules(), o).None? && Preflight(n.auth.ledger, o.transfer).None?;
    assert ConfirmGuard(n.auth, Verified(o, Pair().Id()), Pair(), true).None?;
  }

  lemma FencedAssentsAgain(n: Node, id: AuthorityId)
    requires n.auth.ledger == Paid() && n.auth.epochState == Fencing(Proposal())
    requires n.auth.id == id && n.auth.key == KeyOf(id) && n.auth.policy == Rules() && n.auth.committeeId == Pair().Id()
    ensures Enabled(n, AssentsLater())
    ensures var n1 := Next(n, AssentsLater());
            n1.epochVotes == n.epochVotes + {LaterAssent(id)} && n1.votes == n.votes
  {
    ProposalBuilds();
    LaterListed();
    hide BuildCommittee, BuildRoster, ListsFrontier, Enumerates, Paid, LaterFrontier;
  }

  lemma LaterListed()
    ensures ListsFrontier(LaterFrontier(), Paid())
  {
    var m := map x | x in Paid() :: Paid()[x].nextSeq;
    assert m == map["alice" := 1, "bob" := 0];
    assert LaterFrontier()[0].0 == "alice" && LaterFrontier()[1].0 == "bob";
  }

  // ---- An observer that is behind ----

  /** It waits for the later frontier, and the earlier certificate makes it fail-stop. */
  lemma ObserverStops(n: Node, id: AuthorityId)
    requires Ready(n.auth, id) && n.auth.epoch == 0
    ensures var n1 := Next(n, Late(LaterReelection()));
            var n2 := Next(n1, Late(Reelection()));
            && !n1.auth.poisoned && n1.auth.epochState.Installing?
            && Install(n1.auth, Reelection(), Pair(), Durable).1 == Err(ConflictingCert) && n2.auth.poisoned
  {
    ProposalBuilds();
    LaterCertified();
    ReelectionCertified();
    hide BuildCommittee, BuildRoster, EpochCertified;
    var next := Pair().(epoch := 1);
    assert LaterFrontier()[0] == ("alice", 1) && !Covers(Genesis(), LaterFrontier());
    assert Install(n.auth, LaterReelection(), Pair(), Durable) == EnterEpoch(n.auth, LaterReelection(), next, Durable);
    FrontiersDiffer();
  }

  lemma FrontiersDiffer()
    ensures FrontierDigest(GenesisFrontier()) != FrontierDigest(LaterFrontier())
  {
    assert ("alice", 0) in FrontierDigest(GenesisFrontier());
    assert ("alice", 0) !in FrontierDigest(LaterFrontier());
  }

  // ---- The run ----

  function Trio(): (sys: System) {
    map["a0" := Start("a0", Pair()), "a1" := Start("a1", Pair()), "a2" := Start("a2", Pair())]
  }

  lemma TrioRealizable()
    ensures Realizable(Trio())
  {
    hide Realizable;
    StartsInitial("a0", Pair());
    StartsInitial("a1", Pair());
    StartsInitial("a2", Pair());
    RealizeInitial(Trio());
  }

  /** Both members have voted for the payment, fenced and assented once. */
  lemma TrioOpened() returns (sys: System)
    ensures Realizable(sys) && sys.Keys == {"a0", "a1", "a2"} && sys["a2"] == Start("a2", Pair())
    ensures sys["a0"] == Opening("a0", 10, 0, true) && sys["a1"] == Opening("a1", 10, 0, true)
  {
    hide Realizable, Start, Opening, Pair;
    TrioRealizable();
    OpeningRuns(Trio(), "a0", 10, 0, true);
    OpeningRuns(Trio()["a0" := Opening("a0", 10, 0, true)], "a1", 10, 0, true);
    sys := Trio()["a0" := Opening("a0", 10, 0, true)]["a1" := Opening("a1", 10, 0, true)];
  }

  lemma TrioNoCrash(sys: System)
    requires sys.Keys == {"a0", "a1", "a2"} && sys["a2"] == Start("a2", Pair())
    requires sys["a0"] == Opening("a0", 10, 0, true) && sys["a1"] == Opening("a1", 10, 0, true)
    ensures NoCrash(sys)
  {
    OpeningNoCrash("a0");
    OpeningNoCrash("a1");
    StartNoCrash("a2");
    hide Start, Opening;
  }

  lemma OpeningNoCrash(id: AuthorityId)
    ensures !Opening(id, 10, 0, true).crashed
  {
    var sys := map[id := Start(id, Pair())];
    var n1 := Next(sys[id], Asks(10, 0));
    var n2 := Next(n1, Fences());
    hide Next, Start;
    assert NoCrash(sys) by {
      StartNoCrash(id);
    }
    StepNoCrash(sys, id, Asks(10, 0));
    StepNoCrash(map[id := n1], id, Fences());
    StepNoCrash(map[id := n2], id, Assents());
  }

  lemma StartNoCrash(id: AuthorityId)
    ensures !Start(id, Pair()).crashed
  {
  }

  lemma OpeningFenced(id: AuthorityId)
    ensures var n := Opening(id, 10, 0, true);
            && Unspent(n.auth, id) && n.auth.epochState == Fencing(Proposal()) && n.auth.confirmed == map[]
            && |n.votes| == 1 && n.votes[0].vote == Ballot(id, 10, 0) && n.epochVotes == {Assent(id)}
  {
    OpeningState(id, 10, 0, true);
    var n1 := Next(Start(id, Pair()), Asks(10, 0));
    assert n1.auth.confirmed == map[];
    StartReady(id);
    MemberVotes(Start(id, Pair()), id, 10, 0);
    MemberAssents(n1, id);
    hide BuildCommittee, BuildRoster;
    assert Next(n1, Fences()).auth.confirmed == map[];
  }

  /** One member confirms the payment and assents once more. */
  lemma MemberAssentsLater(sys: System, id: AuthorityId) returns (r: System)
    requires Realizable(sys) && id in sys && id in Pair().members
    requires Unspent(sys[id].auth, id) && sys[id].auth.epochState == Fencing(Proposal())
    requires sys[id].auth.confirmed == map[]
    requires Grounded(sys, Confirms()) && NoCrash(sys)
    ensures NoCrash(r)
    ensures Realizable(r) && Extends(sys, r) && r.Keys == sys.Keys && LaterAssent(id) in r[id].epochVotes
    ensures forall other :: other in sys && other != id ==> r[other] == sys[other]
  {
    FencedConfirms(sys[id], id);
    var n1 := Next(sys[id], Confirms());
    FencedAssentsAgain(n1, id);
    hide Next, Realizable, Extends, Unspent, LaterAssent;
    assert Enabled(sys[id], Confirms()) && Grounded(sys, AssentsLater());
    var mid := sys[id := n1];
    r := mid[id := Next(n1, AssentsLater())];
    RealizeStep(sys, id, Confirms());
    StepNoCrash(sys, id, Confirms());
    StepNoCrash(mid, id, AssentsLater());
    NextExtends(sys, id, Confirms());
    assert Grounded(mid, AssentsLater());
    RealizeStep(mid, id, AssentsLater());
    NextExtends(mid, id, AssentsLater());
    ExtendsChains(sys, mid, r);
  }

  lemma PaymentBacked(sys: System)
    requires IssuedVote(sys, Ballot("a0", 10, 0)) && IssuedVote(sys, Ballot("a1", 10, 0))
    ensures Grounded(sys, Confirms())
  {
    BothSignCertifies(10, 0, 0);
    hide CertifiedBy, IssuedVote;
    assert Backs(sys, BothSign(10, 0, 0), Pair(), Pay(10, 0, 0));
  }

  /** Both members have assented twice, once over each frontier. */
  lemma AssentedTwice() returns (sys: System)
    ensures Realizable(sys) && sys.Keys == {"a0", "a1", "a2"} && sys["a2"] == Start("a2", Pair())
    ensures AssentedBoth(sys) && NoCrash(sys)
  {
    hide NoCrash, Realizable, Start, Opening, Unspent, Ballot, Grounded, Extends, IssuedVote, Assent, LaterAssent, Pair;
    var sys0 := TrioOpened();
    TrioNoCrash(sys0);
    OpeningFenced("a0");
    OpeningFenced("a1");
    BallotsNamed(10, 0);
    VoteIsIssued(sys0, "a0", 0);
    VoteIsIssued(sys0, "a1", 0);
    PaymentBacked(sys0);
    Sizes();
    var sys1 := MemberAssentsLater(sys0, "a0");
    GroundedStays(sys0, sys1, Confirms());
    sys := MemberAssentsLater(sys1, "a1");
    KeepsAssent(sys0, sys1, "a0");
    KeepsAssent(sys1, sys, "a1");
  }

  lemma KeepsAssent(a: System, b: System, id: AuthorityId)
    requires Extends(a, b) && id in a
    ensures a[id].epochVotes <= b[id].epochVotes
  {
  }

  lemma AssentsNamed(id: AuthorityId)
    ensures Assent(id).authority == id && LaterAssent(id).authority == id
  {
  }

  ghost predicate AssentedBoth(sys: System) {
    && "a0" in sys && "a1" in sys
    && Assent("a0") in sys["a0"].epochVotes && LaterAssent("a0") in sys["a0"].epochVotes
    && Assent("a1") in sys["a1"].epochVotes && LaterAssent("a1") in sys["a1"].epochVotes
  }

  /** The observer receives the later certificate and then the earlier one. */
  lemma ObserverRuns(sys0: System) returns (sys: System)
    requires Realizable(sys0) && NoCrash(sys0) && AssentedBoth(sys0)
    requires "a2" in sys0 && sys0["a2"] == Start("a2", Pair())
    ensures Realizable(sys) && AssentedBoth(sys) && sys.Keys == sys0.Keys && sys["a2"].auth.poisoned
    ensures NoCrash(sys)
  {
    StartReady("a2");
    ObserverStops(sys0["a2"], "a2");
    hide Realizable, NoCrash, AssentedBoth, Start, Ready, Next, Install, Late, Reelection, LaterReelection;
    var mid := Observes(sys0, true);
    sys := Observes(mid, false);
  }

  lemma Observes(sys: System, later: bool) returns (r: System)
    requires Realizable(sys) && NoCrash(sys) && AssentedBoth(sys) && "a2" in sys
    ensures Realizable(r) && NoCrash(r) && AssentedBoth(r) && r.Keys == sys.Keys
    ensures r["a2"] == Next(sys["a2"], Late(if later then LaterReelection() else Reelection()))
  {
    var e := Late(if later then LaterReelection() else Reelection());
    LateGrounded(sys, sys["a2"]);
    LateIsNoCrash(if later then LaterReelection() else Reelection());
    hide Realizable, Next, Late, Grounded, Enabled, Assent, LaterAssent, Reelection, LaterReelection;
    r := sys["a2" := Next(sys["a2"], e)];
    RealizeStep(sys, "a2", e);
    StepNoCrash(sys, "a2", e);
  }

  lemma LateIsNoCrash(cert: EpochCert)
    ensures !Late(cert).OnCrash?
  {
  }

  lemma BothSigned(sys: System)
    requires AssentedBoth(sys)
    ensures forall v :: v in Reelection().votes || v in LaterReelection().votes ==>
              v.authority in sys && v in sys[v.authority].epochVotes
  {
    AssentsNamed("a0");
    AssentsNamed("a1");
    hide Assent, LaterAssent;
  }

  /** With every member honest, no crash and nothing forged there are two valid certificates for one epoch of one
      committee, over different frontiers, and an honest authority that gets both fail-stops. The source takes
      such a pair as proof that the Byzantine budget is exceeded. */
  lemma HonestCertificatesConflict() returns (sys: System, cs: Certs)
    ensures Setting(sys, cs) && Admitted(sys, false, true) && !Agree(cs)
    ensures cs.prior.members.Keys <= sys.Keys && exists id :: id in sys && sys[id].auth.poisoned
  {
    hide Realizable, Start, EpochCertified, Assent, LaterAssent, AssentedBoth;
    Sizes();
    LaterCertified();
    ReelectionCertified();
    FrontiersDiffer();
    var sys0 := AssentedTwice();
    sys := ObserverRuns(sys0);
    cs := Certs(Pair(), Reelection(), Pair().Id(), LaterReelection(), Pair().Id());
    BothSigned(sys);
    assert Pair().members.Keys - sys.Keys == {};
  }

  lemma LateGrounded(sys: System, n: Node)
    requires AssentedBoth(sys)
    ensures Grounded(sys, Late(Reelection())) && Grounded(sys, Late(LaterReelection()))
    ensures Enabled(n, Late(Reelection())) && Enabled(n, Late(LaterReelection()))
  {
    AssentsNamed("a0");
    AssentsNamed("a1");
  }
}
