/** When epoch certificates agree, exactly. A crash alone breaks them: replay does not complete a waiting install
    that a confirmation had covered, so a member that had gone on to fence the next change is rebuilt one epoch
    behind, and the old certificate opens its gate for a different change to the same epoch. */
module CrashLimits {
  import opened Basics
  import opened Ledgers
  import opened Orders
  import opened Authorities
  import opened AuthorityRuns
  import opened Committees
  import opened Realizations
  import opened TwoMembers
  import opened EpochAgreement
  import opened EpochLimits
  import FinalityLimits

  // ---- A committee of four and its possible successors ----

  function Four(): (c: Committee) { Committee(map["a0" := 1, "a1" := 2, "a2" := 3, "a3" := 4], Rules(), 0) }

  function Three(): (c: Committee) { Committee(map["a1" := 2, "a2" := 3, "a3" := 4], Rules(), 0) }

  /** The next committee: without a0 if it shrinks. */
  function Successor(shrinks: bool): (c: Committee) { if shrinks then Three() else Four() }

  function Roster(shrinks: bool): (roster: seq<(AuthorityId, Key)>) {
    if shrinks then [("a1", 2), ("a2", 3), ("a3", 4)] else [("a0", 1), ("a1", 2), ("a2", 3), ("a3", 4)]
  }

  function Change(epoch: nat, shrinks: bool): (p: EpochProposal) {
    EpochProposal("net", Rules(), epoch, Roster(shrinks))
  }

  lemma ThreeBuild()
    ensures BuildRoster(Roster(true)) == Some(Three().members)
  {
    var r := Roster(true);
    assert r[..2][..1] == r[..1] && r[..1][..0] == r[..0];
    assert BuildRoster(r[..1]) == Some(map["a1" := 2]);
    assert BuildRoster(r[..2]) == Some(map["a1" := 2, "a2" := 3]);
  }

  lemma FourBuild()
    ensures BuildRoster(Roster(false)) == Some(Four().members)
  {
    var r := Roster(false);
    assert r[..3][..2] == r[..2] && r[..2][..1] == r[..1] && r[..1][..0] == r[..0];
    assert BuildRoster(r[..1]) == Some(map["a0" := 1]);
    assert BuildRoster(r[..2]) == Some(map["a0" := 1, "a1" := 2]);
    assert BuildRoster(r[..3]) == Some(map["a0" := 1, "a1" := 2, "a2" := 3]);
  }

  lemma ChangeBuilds(epoch: nat, shrinks: bool)
    ensures BuildCommittee(Roster(shrinks), Rules(), epoch) == Some(Successor(shrinks).(epoch := epoch))
  {
    ThreeBuild();
    FourBuild();
    hide BuildRoster, Roster;
    assert "a1" in Three().members && "a1" in Four().members;
  }

  lemma FourSizes()
    ensures Four().members.Keys == {"a0", "a1", "a2", "a3"} && |Four().members| == 4
    ensures Four().QuorumSize() == 3 && Quorums.MaxFaulty(4) == 1
  {
    assert Four().members.Keys == {"a0", "a1", "a2", "a3"};
    assert |Four().members| == |Four().members.Keys|;
  }

  // ---- Certificates over the later frontier ----

  function AssentTo(id: AuthorityId, epoch: nat, shrinks: bool): (v: EpochVote)
    requires id in Four().members
  {
    var c, d, f := Four().Id(), Successor(shrinks).Id(), LaterFrontier();
    EpochVote(id, c, epoch, d, f, FrontierDigest(f),
              Sign(Four().members[id], EpochAssent(id, c, epoch, d, FrontierDigest(f))))
  }

  /** The Byzantine member and two others assent. */
  function ChangeCert(epoch: nat, shrinks: bool, i: AuthorityId, j: AuthorityId): (cert: EpochCert)
    requires i in Four().members && j in Four().members
  {
    EpochCert(epoch, Roster(shrinks), LaterFrontier(),
              [AssentTo("a0", epoch, shrinks), AssentTo(i, epoch, shrinks), AssentTo(j, epoch, shrinks)])
  }

  lemma AssentValid(cert: EpochCert, id: AuthorityId, epoch: nat, shrinks: bool)
    requires id in Four().members && cert.epoch == epoch && cert.frontier == LaterFrontier()
    ensures AssentTo(id, epoch, shrinks).authority == id
    ensures EpochVoteValid(AssentTo(id, epoch, shrinks), cert, Successor(shrinks).Id(), Four())
  {
  }

  lemma ChangeCertified(epoch: nat, shrinks: bool, i: AuthorityId, j: AuthorityId)
    requires i in Four().members && j in Four().members && i != "a0" && j != "a0" && i != j
    ensures EpochCertified(ChangeCert(epoch, shrinks, i, j), Successor(shrinks).Id(), Four())
  {
    var cert, id := ChangeCert(epoch, shrinks, i, j), Successor(shrinks).Id();
    AssentValid(cert, "a0", epoch, shrinks);
    AssentValid(cert, i, epoch, shrinks);
    AssentValid(cert, j, epoch, shrinks);
    FourSizes();
    hide AssentTo, EpochVoteValid, Successor, Roster;
    VotersUpTo(cert.votes, "a0", i, j);
    var c := Four();
    hide Four;
    assert EpochVotesGood(cert, id, c, 0);
    assert EpochVotesGood(cert, id, c, 1);
    assert EpochVotesGood(cert, id, c, 2);
    assert cert.votes[..3] == cert.votes;
  }

  lemma VotersUpTo(votes: seq<EpochVote>, h: AuthorityId, i: AuthorityId, j: AuthorityId)
    requires |votes| == 3 && votes[0].authority == h && votes[1].authority == i && votes[2].authority == j
    ensures EpochVoters(votes[..0]) == {} && EpochVoters(votes[..1]) == {h} && EpochVoters(votes[..2]) == {h, i}
    ensures EpochVoters(votes) == {h, i, j}
  {
  }

  // ---- One member's steps ----

  /** An honest member of the four: its ledger, epoch and gate, with nothing moved behind a fence. */
  ghost predicate Stands(n: Node, id: AuthorityId, l: Ledger, epoch: nat, gate: EpochState) {
    && id in Four().members
    && n.origin == Origin(id, Four().members[id], Rules(), Four().Id(), Genesis())
    && n.auth.id == id && n.auth.key == Four().members[id] && n.auth.policy == Rules()
    && n.auth.committeeId == Four().Id() && !n.auth.poisoned
    && n.auth.ledger == l && n.auth.epoch == epoch && n.auth.epochState == gate && !n.movedFenced
    && (l == Genesis() ==> n.auth.confirmed == map[])
  }

  function Settles(): (e: Event) {
    OnConfirm(Verified(Pay(10, 0, 0), Four().Id()), Four(), true, Durable)
  }

  function FencesOn(epoch: nat, shrinks: bool): (e: Event) { OnFence(Change(epoch, shrinks), Durable) }

  function Enters(cert: EpochCert): (e: Event) { OnInstall(cert, Four(), Durable) }

  lemma FounderStands(id: AuthorityId)
    requires id in Four().members
    ensures Stands(FinalityLimits.Founder(id, Four().members[id], Four()), id, Genesis(), 0, Active)
  {
  }

  lemma MemberAsks(id: AuthorityId)
    requires id in Four().members
    ensures var n := Next(FinalityLimits.Founder(id, Four().members[id], Four()), Asks(10, 0));
            && Stands(n, id, Genesis(), 0, Active)
            && |n.votes| == 1 && n.votes[0].vote == FinalityLimits.VoteIn(id, Four(), 10)
  {
    FinalityLimits.FounderSettles(id, Four(), 10);
    FounderStands(id);
    var n := FinalityLimits.Founder(id, Four().members[id], Four());
    var o := Pay(10, 0, 0);
    assert VerifyOrder(Rules(), o).None? && Preflight(n.auth.ledger, o.transfer).None?;
  }

  /** The payment arrives while the gate is open, or covers a waiting install. */
  lemma MemberSettles(n: Node, id: AuthorityId, gate: EpochState)
    requires Stands(n, id, Genesis(), 0, gate)
    requires gate == Active || (gate.Installing? && gate.cert.frontier == LaterFrontier()
                                && gate.next.Id() == Four().Id())
    ensures var n' := Next(n, Settles());
            && Stands(n', id, Paid(), if gate == Active then 0 else gate.cert.epoch, Active)
            && n'.auth.journal == n.auth.journal + [Confirmed(Pay(10, 0, 0))]
            && n'.epochVotes == n.epochVotes
  {
    var o := Pay(10, 0, 0);
    assert VerifyOrder(Rules(), o).None? && Preflight(n.auth.ledger, o.transfer).None?;
    assert ConfirmGuard(n.auth, Verified(o, Four().Id()), Four(), true).None?;
    PayApplies();
    PaidCovers();
  }

  lemma PayApplies()
    ensures Apply(Genesis(), Pay(10, 0, 0).transfer) == Ok(Paid())
  {
    assert Apply(Genesis(), Pay(10, 0, 0).transfer).value == Paid();
  }

  lemma PaidCovers()
    ensures Covers(Paid(), LaterFrontier()) && !Covers(Genesis(), LaterFrontier()) && Paid() != Genesis()
  {
    assert LaterFrontier()[0] == ("alice", 1) && LaterFrontier()[1] == ("bob", 0);
    assert Paid()["alice"] != Genesis()["alice"];
  }

  lemma MemberFences(n: Node, id: AuthorityId, epoch: nat, shrinks: bool)
    requires Stands(n, id, Paid(), epoch, Active)
    ensures var n' := Next(n, FencesOn(epoch + 1, shrinks));
            && Stands(n', id, Paid(), epoch, Fencing(Change(epoch + 1, shrinks)))
            && n'.auth.journal == n.auth.journal + [EpochFence(Change(epoch + 1, shrinks))]
            && n'.epochVotes == n.epochVotes
  {
    ChangeBuilds(epoch + 1, shrinks);
    hide BuildCommittee, Roster, Four, Paid, Genesis;
  }

  lemma MemberSigns(n: Node, id: AuthorityId, epoch: nat, shrinks: bool)
    requires Stands(n, id, Paid(), epoch, Fencing(Change(epoch + 1, shrinks)))
    ensures Enabled(n, AssentsLater())
    ensures var n' := Next(n, AssentsLater());
            && n' == n.(epochVotes := n.epochVotes + {AssentTo(id, epoch + 1, shrinks)})
            && Stands(n', id, Paid(), epoch, Fencing(Change(epoch + 1, shrinks)))
  {
    ChangeBuilds(epoch + 1, shrinks);
    LaterListed();
    hide BuildCommittee, Roster, ListsFrontier, Paid, LaterFrontier, Four, Successor, Genesis;
  }

  /** The first change: the roster stays, and a1 and a2 have assented. */
  function First(): (cert: EpochCert) { ChangeCert(1, false, "a1", "a2") }

  /** A member with the payment completes the install at once, behind whatever fence. */
  lemma MemberEnters(n: Node, id: AuthorityId, gate: EpochState)
    requires Stands(n, id, Paid(), 0, gate) && gate.Fencing?
    ensures var n' := Next(n, Enters(First()));
            Stands(n', id, Paid(), 1, Active) && n'.epochVotes == n.epochVotes
  {
    FirstEnters(n, id, Paid(), gate);
    PaidCovers();
    hide Four, Paid, LaterFrontier, First, Genesis, Install, Handle, Confirm, Fence, Compact;
  }

  lemma FirstEnters(n: Node, id: AuthorityId, l: Ledger, gate: EpochState)
    requires Stands(n, id, l, 0, gate) && !gate.Installing?
    ensures Install(n.auth, First(), Four(), Durable) == EnterEpoch(n.auth, First(), Four().(epoch := 1), Durable)
    ensures First().frontier == LaterFrontier() && First().epoch == 1
  {
    ChangeBuilds(1, false);
    assert "a1" in Four().members && "a2" in Four().members;
    ChangeCertified(1, false, "a1", "a2");
    hide BuildCommittee, EpochCertified, EnterEpoch;
  }

  /** A member without the payment waits for it. */
  lemma MemberWaits(n: Node, id: AuthorityId)
    requires Stands(n, id, Genesis(), 0, Active)
    ensures var n' := Next(n, Enters(First()));
            && Stands(n', id, Genesis(), 0, Installing(First(), Four().(epoch := 1)))
            && n'.auth.journal == n.auth.journal + [EpochInstalled(First())]
            && n'.epochVotes == n.epochVotes
  {
    FirstEnters(n, id, Genesis(), Active);
    PaidCovers();
    hide Four, Paid, LaterFrontier, First, Genesis, Install, Handle, Confirm, Fence, Compact;
  }

  /** Replay rebuilds the late member behind its fence, but in epoch 0. */
  lemma MemberCrashes(n: Node, id: AuthorityId)
    requires Stands(n, id, Paid(), 1, Fencing(Change(2, false)))
    requires n.auth.journal == [EpochInstalled(First()), Confirmed(Pay(10, 0, 0)), EpochFence(Change(2, false))]
    ensures var n' := Next(n, OnCrash);
            Stands(n', id, Paid(), 0, Fencing(Change(2, false))) && n'.epochVotes == n.epochVotes
  {
    var r := ReplayedBehind(n.origin);
    PaidCovers();
    CrashRebuilds(n, r);
    hide First, Change, Four, Pay, Paid, Genesis, Next, Replay;
  }

  lemma CrashRebuilds(n: Node, r: Authority)
    requires Replay(n.origin, n.auth.journal) == Ok(r)
    ensures Next(n, OnCrash) == n.(auth := r, crashed := true)
  {
  }

  lemma ReplayedBehind(o: Origin) returns (s: Authority)
    requires o.policy == Rules() && o.genesis == Genesis()
    ensures Replay(o, [EpochInstalled(First()), Confirmed(Pay(10, 0, 0)), EpochFence(Change(2, false))]) == Ok(s)
    ensures s == Fresh(o).(ledger := Paid(), confirmed := s.confirmed, journal := s.journal,
                           lastCert := s.lastCert, epochState := Fencing(Change(2, false)))
  {
    var s1 := ReplayedInstall(o);
    ReplayedPayment(s1);
    hide First, Paid, Genesis, Change, Four, Pay, Replay;
    var j1 := [EpochInstalled(First())];
    ReplaySnoc(o, j1, Confirmed(Pay(10, 0, 0)));
    ReplaySnoc(o, j1 + [Confirmed(Pay(10, 0, 0))], EpochFence(Change(2, false)));
    assert j1 + [Confirmed(Pay(10, 0, 0))] + [EpochFence(Change(2, false))]
        == [EpochInstalled(First()), Confirmed(Pay(10, 0, 0)), EpochFence(Change(2, false))];
    s := Replay(o, [EpochInstalled(First()), Confirmed(Pay(10, 0, 0)), EpochFence(Change(2, false))]).value;
  }

  lemma ReplayedInstall(o: Origin) returns (s: Authority)
    requires o.policy == Rules() && o.genesis == Genesis()
    ensures Replay(o, [EpochInstalled(First())]) == Ok(s)
    ensures s == Fresh(o).(journal := [EpochInstalled(First())], lastCert := Some(First()),
                           epochState := Installing(First(), Four().(epoch := 1)))
  {
    ChangeBuilds(1, false);
    PaidCovers();
    s := Fresh(o).(journal := [EpochInstalled(First())], lastCert := Some(First()),
                   epochState := Installing(First(), Four().(epoch := 1)));
    ReplaySnoc(o, [], EpochInstalled(First()));
    assert [] + [EpochInstalled(First())] == [EpochInstalled(First())];
    hide BuildCommittee, Roster, LaterFrontier, Genesis, Four;
    assert First().frontier == LaterFrontier();
  }

  lemma ReplayedPayment(s: Authority)
    requires s.ledger == Genesis() && s.confirmed == map[] && s.locked == map[]
    ensures ReplayRecord(s, Confirmed(Pay(10, 0, 0)))
         == Ok(s.(ledger := Paid(), confirmed := map[("alice", 0) := Pay(10, 0, 0)],
                  journal := s.journal + [Confirmed(Pay(10, 0, 0))]))
  {
    PayApplies();
    hide Apply, Paid, Genesis;
  }

  // ---- The run ----

  /** A realizable state of the three honest members in which the payment is certified. */
  ghost predicate Live(sys: System) {
    Realizable(sys) && Grounded(sys, Settles()) && sys.Keys == {"a1", "a2", "a3"}
  }

  ghost predicate Signed(sys: System, id: AuthorityId, epoch: nat, shrinks: bool) {
    id in Four().members && id in sys && AssentTo(id, epoch, shrinks) in sys[id].epochVotes
  }

  /** Only this member moved, and it forgot no assent. */
  ghost predicate Moved(sys: System, r: System, id: AuthorityId) {
    id in sys && r.Keys == sys.Keys && r == sys[id := r[id]] && sys[id].epochVotes <= r[id].epochVotes
  }

  lemma MovedKeeps(sys: System, r: System, id: AuthorityId)
    requires Moved(sys, r, id)
    ensures forall other, epoch, shrinks :: Signed(sys, other, epoch, shrinks) ==> Signed(r, other, epoch, shrinks)
    ensures forall other :: other in sys && other != id ==> r[other] == sys[other]
  {
  }

  lemma MovedChains(sys: System, mid: System, r: System, id: AuthorityId)
    requires Moved(sys, mid, id) && Moved(mid, r, id)
    ensures Moved(sys, r, id)
  {
  }

  lemma LiveKeys(sys: System)
    requires Live(sys)
    ensures sys.Keys == {"a1", "a2", "a3"}
  {
  }

  lemma Turn(sys: System, id: AuthorityId, e: Event) returns (r: System)
    requires Live(sys) && id in sys && Enabled(sys[id], e) && Grounded(sys, e)
    ensures Live(r) && Moved(sys, r, id) && r[id] == Next(sys[id], e)
  {
    hide Next, Realizable, Grounded, Enabled, Settles;
    r := sys[id := Next(sys[id], e)];
    RealizeStep(sys, id, e);
    NextExtends(sys, id, e);
    GroundedStays(sys, r, Settles());
  }

  lemma Settling(sys: System, id: AuthorityId, gate: EpochState) returns (r: System)
    requires Live(sys) && id in sys && Stands(sys[id], id, Genesis(), 0, gate)
    requires gate == Active || gate == Installing(First(), Four().(epoch := 1))
    ensures Live(r) && Moved(sys, r, id)
    ensures Stands(r[id], id, Paid(), if gate == Active then 0 else 1, Active)
    ensures r[id].auth.journal == sys[id].auth.journal + [Confirmed(Pay(10, 0, 0))]
  {
    assert First().frontier == LaterFrontier() && First().epoch == 1;
    MemberSettles(sys[id], id, gate);
    hide Stands, Next, Paid, Genesis, Four, First, Pay;
    assert Enabled(sys[id], Settles());
    r := Turn(sys, id, Settles());
  }

  lemma Assenting(sys: System, id: AuthorityId, epoch: nat, shrinks: bool) returns (r: System)
    requires Live(sys) && id in sys && Stands(sys[id], id, Paid(), epoch, Active)
    ensures Live(r) && Moved(sys, r, id) && Signed(r, id, epoch + 1, shrinks)
    ensures Stands(r[id], id, Paid(), epoch, Fencing(Change(epoch + 1, shrinks)))
    ensures r[id].auth.journal == sys[id].auth.journal + [EpochFence(Change(epoch + 1, shrinks))]
  {
    assert id in Four().members;
    MemberFences(sys[id], id, epoch, shrinks);
    MemberSigns(Next(sys[id], FencesOn(epoch + 1, shrinks)), id, epoch, shrinks);
    hide Stands, Next, Paid, Change, Four, AssentTo, Live, Roster, FencesOn, AssentsLater, Grounded, Enabled;
    FencesFreely(sys, sys[id], epoch + 1, shrinks);
    var mid := Turn(sys, id, FencesOn(epoch + 1, shrinks));
    AssentsFreely(mid);
    r := Turn(mid, id, AssentsLater());
    hide Moved;
    MovedChains(sys, mid, r, id);
  }

  lemma FencesFreely(sys: System, n: Node, epoch: nat, shrinks: bool)
    ensures Enabled(n, FencesOn(epoch, shrinks)) && Grounded(sys, FencesOn(epoch, shrinks))
  {
  }

  lemma AssentsFreely(sys: System)
    ensures Grounded(sys, AssentsLater())
  {
  }

  lemma FirstGrounded(sys: System, n: Node)
    requires Live(sys) && Signed(sys, "a1", 1, false) && Signed(sys, "a2", 1, false)
    ensures Enabled(n, Enters(First())) && Grounded(sys, Enters(First()))
  {
    assert "a0" in Four().members;
    hide Four, Realizable, LaterFrontier, Roster, Successor;
    assert AssentTo("a1", 1, false).authority == "a1" && AssentTo("a2", 1, false).authority == "a2";
    assert AssentTo("a0", 1, false).authority == "a0";
  }

  lemma Entering(sys: System, id: AuthorityId, gate: EpochState, shrinks: bool) returns (r: System)
    requires Live(sys) && Signed(sys, "a1", 1, false) && Signed(sys, "a2", 1, false)
    requires id in sys && Stands(sys[id], id, Paid(), 0, gate) && gate.Fencing?
    ensures Live(r) && Moved(sys, r, id) && Signed(r, id, 2, shrinks)
    ensures Stands(r[id], id, Paid(), 1, Fencing(Change(2, shrinks)))
  {
    MemberEnters(sys[id], id, gate);
    FirstGrounded(sys, sys[id]);
    hide Stands, Next, Paid, First, Change, Live, Enters, Signed, Four, Grounded, Enabled;
    var mid := Turn(sys, id, Enters(First()));
    r := Assenting(mid, id, 1, shrinks);
    hide Moved;
    MovedChains(sys, mid, r, id);
  }

  lemma Waiting(sys: System) returns (r: System)
    requires Live(sys) && Signed(sys, "a1", 1, false) && Signed(sys, "a2", 1, false)
    requires "a3" in sys && Stands(sys["a3"], "a3", Genesis(), 0, Active)
    ensures Live(r) && Moved(sys, r, "a3")
    ensures Stands(r["a3"], "a3", Genesis(), 0, Installing(First(), Four().(epoch := 1)))
    ensures r["a3"].auth.journal == sys["a3"].auth.journal + [EpochInstalled(First())]
  {
    MemberWaits(sys["a3"], "a3");
    FirstGrounded(sys, sys["a3"]);
    hide Stands, Next, Genesis, First, Four, Enters, Signed, Live, Grounded, Enabled;
    r := Turn(sys, "a3", Enters(First()));
  }

  /** It installs before it has the payment, and the payment completes the install. */
  lemma LateInstalls(sys: System) returns (r: System)
    requires Live(sys) && Signed(sys, "a1", 1, false) && Signed(sys, "a2", 1, false)
    requires Stands(sys["a3"], "a3", Genesis(), 0, Active) && sys["a3"].auth.journal == []
    ensures Live(r) && Moved(sys, r, "a3") && Stands(r["a3"], "a3", Paid(), 1, Active)
    ensures r["a3"].auth.journal == [EpochInstalled(First()), Confirmed(Pay(10, 0, 0))]
  {
    LiveKeys(sys);
    hide Stands, Paid, Genesis, First, Four, Pay, Signed, Live, Moved;
    var mid := Waiting(sys);
    LiveKeys(mid);
    r := Settling(mid, "a3", Installing(First(), Four().(epoch := 1)));
    LiveKeys(r);
    MovedChains(sys, mid, r, "a3");
  }

  /** Caught up, it assents to the second change. */
  lemma LateAssents(sys: System) returns (r: System)
    requires Live(sys) && Signed(sys, "a1", 1, false) && Signed(sys, "a2", 1, false)
    requires Stands(sys["a3"], "a3", Genesis(), 0, Active) && sys["a3"].auth.journal == []
    ensures Live(r) && Moved(sys, r, "a3") && Signed(r, "a3", 2, false)
    ensures Stands(r["a3"], "a3", Paid(), 1, Fencing(Change(2, false)))
    ensures r["a3"].auth.journal
         == [EpochInstalled(First()), Confirmed(Pay(10, 0, 0)), EpochFence(Change(2, false))]
  {
    LiveKeys(sys);
    hide Stands, Paid, Genesis, First, Change, Four, Pay, Signed, Live, Moved;
    var mid := LateInstalls(sys);
    LiveKeys(mid);
    r := Assenting(mid, "a3", 1, false);
    MovedChains(sys, mid, r, "a3");
  }

  /** It crashes, installs the first change anew and assents to another second change. */
  lemma LateCrashes(sys: System) returns (r: System)
    requires Live(sys) && Signed(sys, "a1", 1, false) && Signed(sys, "a2", 1, false)
    requires Stands(sys["a3"], "a3", Paid(), 1, Fencing(Change(2, false)))
    requires sys["a3"].auth.journal
          == [EpochInstalled(First()), Confirmed(Pay(10, 0, 0)), EpochFence(Change(2, false))]
    ensures Live(r) && Moved(sys, r, "a3") && Signed(r, "a3", 2, true)
    ensures Stands(r["a3"], "a3", Paid(), 1, Fencing(Change(2, true)))
  {
    MemberCrashes(sys["a3"], "a3");
    assert Enabled(sys["a3"], OnCrash) && Grounded(sys, OnCrash);
    LiveKeys(sys);
    hide Stands, Next, Paid, First, Change, Four, Pay, Signed, Live, Grounded, Enabled, Moved;
    var mid := Turn(sys, "a3", OnCrash);
    LiveKeys(mid);
    MovedKeeps(sys, mid, "a3");
    r := Entering(mid, "a3", Fencing(Change(2, false)), true);
    MovedChains(sys, mid, r, "a3");
  }

  // ---- The beginning ----

  function FounderOf(id: AuthorityId): (n: Node)
    requires id in Four().members
  {
    FinalityLimits.Founder(id, Four().members[id], Four())
  }

  function Founders(): (sys: System) {
    map["a1" := FounderOf("a1"), "a2" := FounderOf("a2"), "a3" := FounderOf("a3")]
  }

  lemma FoundersRealizable()
    ensures Realizable(Founders())
  {
    FinalityLimits.FounderInitial("a1", 2, Four());
    FinalityLimits.FounderInitial("a2", 3, Four());
    FinalityLimits.FounderInitial("a3", 4, Four());
    assert Founders()["a1"].origin.id == "a1" && Founders()["a2"].origin.id == "a2"
            && Founders()["a3"].origin.id == "a3";
    hide Initial, FinalityLimits.Founder;
    RealizeInitial(Founders());
  }

  lemma Asking(sys: System, id: AuthorityId) returns (r: System)
    requires Realizable(sys) && id in sys && id in Four().members && sys[id] == FounderOf(id)
    ensures Realizable(r) && Extends(sys, r) && r == sys[id := r[id]] && Stands(r[id], id, Genesis(), 0, Active)
    ensures IssuedVote(r, FinalityLimits.VoteIn(id, Four(), 10))
  {
    MemberAsks(id);
    assert FinalityLimits.VoteIn(id, Four(), 10).authority == id;
    hide Stands, Next, Four, Genesis, Realizable, Enabled, Grounded, FinalityLimits.Founder, FinalityLimits.VoteIn;
    assert Enabled(sys[id], Asks(10, 0)) && Grounded(sys, Asks(10, 0)) by {
      FreeSteps(sys, sys[id], 10, 0);
    }
    r := sys[id := Next(sys[id], Asks(10, 0))];
    RealizeStep(sys, id, Asks(10, 0));
    NextExtends(sys, id, Asks(10, 0));
    assert r[id].votes[0].vote == FinalityLimits.VoteIn(id, Four(), 10);
  }

  lemma PaymentCertified(sys: System)
    requires sys.Keys == {"a1", "a2", "a3"}
    requires "a1" in Four().members && "a2" in Four().members
    requires IssuedVote(sys, FinalityLimits.VoteIn("a1", Four(), 10))
    requires IssuedVote(sys, FinalityLimits.VoteIn("a2", Four(), 10))
    ensures Grounded(sys, Settles())
  {
    var ids := ["a0", "a1", "a2"];
    FourSizes();
    assert Four().policy == Rules() && Four().members != map[];
    FinalityLimits.QuorumCertifies({"a0", "a1", "a2"}, ids, Four(), 10);
    var cert := FinalityLimits.CertOf(ids, Four(), 10);
    assert FinalityLimits.VoteIn("a0", Four(), 10).authority == "a0";
    hide CertifiedBy, IssuedVote, FinalityLimits.VoteIn, Four;
    assert Backs(sys, cert, Four(), Pay(10, 0, 0));
  }

  lemma Opens() returns (sys: System)
    ensures Live(sys) && Stands(sys["a1"], "a1", Genesis(), 0, Active) && Stands(sys["a2"], "a2", Genesis(), 0, Active)
    ensures Stands(sys["a3"], "a3", Genesis(), 0, Active) && sys["a3"].auth.journal == []
  {
    var sys0 := Founders();
    FoundersRealizable();
    FounderStands("a3");
    assert "a1" in Four().members && "a2" in Four().members && "a3" in Four().members;
    assert FounderOf("a3").auth.journal == [];
    hide Stands, Genesis, Four, Realizable, IssuedVote, Extends, Grounded, FinalityLimits.Founder, FounderOf;
    var sys1 := Asking(sys0, "a1");
    sys := Asking(sys1, "a2");
    IssuedStays(sys1, sys, FinalityLimits.VoteIn("a1", Four(), 10));
    PaymentCertified(sys);
  }

  // ---- The conflict ----

  /** a1 and a2 have the payment and have assented to the first change. */
  lemma FirstChange() returns (sys: System)
    ensures Live(sys) && Signed(sys, "a1", 1, false) && Signed(sys, "a2", 1, false)
    ensures Stands(sys["a1"], "a1", Paid(), 0, Fencing(Change(1, false)))
    ensures Stands(sys["a2"], "a2", Paid(), 0, Fencing(Change(1, false)))
    ensures Stands(sys["a3"], "a3", Genesis(), 0, Active) && sys["a3"].auth.journal == []
  {
    hide Stands, Genesis, Paid, Change, Four, Realizable, Grounded, Signed, First;
    var sys0 := Opens();
    var sys1 := Settling(sys0, "a1", Active);
    var sys2 := Assenting(sys1, "a1", 0, false);
    var sys3 := Settling(sys2, "a2", Active);
    sys := Assenting(sys3, "a2", 0, false);
    MovedKeeps(sys2, sys3, "a2");
    MovedKeeps(sys3, sys, "a2");
  }

  ghost predicate Split(sys: System) {
    && Signed(sys, "a1", 2, false) && Signed(sys, "a3", 2, false)
    && Signed(sys, "a2", 2, true) && Signed(sys, "a3", 2, true)
  }

  lemma SecondChange() returns (sys: System)
    ensures Live(sys) && Split(sys)
    ensures forall id :: id in sys ==> !sys[id].movedFenced
  {
    var sys0 := FirstChange();
    sys := AllAssent(sys0);
  }

  lemma AllAssent(sys0: System) returns (sys: System)
    requires Live(sys0) && Signed(sys0, "a1", 1, false) && Signed(sys0, "a2", 1, false)
    requires Stands(sys0["a1"], "a1", Paid(), 0, Fencing(Change(1, false)))
    requires Stands(sys0["a2"], "a2", Paid(), 0, Fencing(Change(1, false)))
    requires Stands(sys0["a3"], "a3", Genesis(), 0, Active) && sys0["a3"].auth.journal == []
    ensures Live(sys) && Split(sys)
    ensures forall id :: id in sys ==> !sys[id].movedFenced
  {
    hide Stands, Genesis, Paid, Change, Four, Realizable, Grounded, Signed, First, Pay;
    var sys1 := LateAssents(sys0);
    MovedKeeps(sys0, sys1, "a3");
    var sys2 := LateCrashes(sys1);
    MovedKeeps(sys1, sys2, "a3");
    var sys3 := Entering(sys2, "a1", Fencing(Change(1, false)), false);
    MovedKeeps(sys2, sys3, "a1");
    sys := Entering(sys3, "a2", Fencing(Change(1, false)), true);
    MovedKeeps(sys3, sys, "a2");
    NothingMoved(sys["a1"], "a1", Paid(), 1, Fencing(Change(2, false)));
    NothingMoved(sys["a2"], "a2", Paid(), 1, Fencing(Change(2, true)));
    NothingMoved(sys["a3"], "a3", Paid(), 1, Fencing(Change(2, true)));
  }

  lemma NothingMoved(n: Node, id: AuthorityId, l: Ledger, epoch: nat, gate: EpochState)
    requires Stands(n, id, l, epoch, gate)
    ensures !n.movedFenced
  {
  }

  /** One certificate keeps the roster and one shrinks it. */
  lemma OpposedCerts() returns (cs: Certs)
    ensures cs.prior == Four() && "a1" in Four().members && "a2" in Four().members && "a3" in Four().members
    ensures cs.x == ChangeCert(2, false, "a1", "a3") && cs.y == ChangeCert(2, true, "a2", "a3")
    ensures EpochCertified(cs.x, cs.nextX, Four()) && EpochCertified(cs.y, cs.nextY, Four())
    ensures cs.x.epoch == cs.y.epoch && !Agree(cs)
  {
    assert "a1" in Four().members && "a2" in Four().members && "a3" in Four().members;
    ChangeCertified(2, false, "a1", "a3");
    ChangeCertified(2, true, "a2", "a3");
    cs := Certs(Four(), ChangeCert(2, false, "a1", "a3"), Four().Id(), ChangeCert(2, true, "a2", "a3"), Three().Id());
    assert "a0" in Four().Id().roster && "a0" !in Three().Id().roster;
    hide EpochCertified, Four, Three, Roster, AssentTo, LaterFrontier;
  }

  /** Within budget and with no ledger moving behind a fence, one crash gives two valid certificates for one
      epoch of one committee, over one frontier but for different successors. */
  lemma CrashConflicts() returns (sys: System, cs: Certs)
    ensures Setting(sys, cs) && Admitted(sys, true, false) && !Agree(cs)
  {
    sys := SecondChange();
    cs := OpposedCerts();
    CertIssued(sys, false, "a1", "a3");
    CertIssued(sys, true, "a2", "a3");
    OneFaulty(sys);
    hide Realizable, WithinBudget, EpochCertified, Agree, Four, ChangeCert, Grounded, IssuedEpochVote, Signed;
  }

  lemma OneFaulty(sys: System)
    requires sys.Keys == {"a1", "a2", "a3"}
    ensures WithinBudget(sys, Four())
  {
    FourSizes();
    assert Four().members.Keys - sys.Keys == {"a0"};
  }

  lemma CertIssued(sys: System, shrinks: bool, i: AuthorityId, j: AuthorityId)
    requires sys.Keys == {"a1", "a2", "a3"} && Signed(sys, i, 2, shrinks) && Signed(sys, j, 2, shrinks)
    ensures forall v :: v in ChangeCert(2, shrinks, i, j).votes ==> IssuedEpochVote(sys, v)
  {
    assert AssentTo("a0", 2, shrinks).authority == "a0";
    assert AssentTo(i, 2, shrinks).authority == i && AssentTo(j, 2, shrinks).authority == j;
    hide AssentTo, Four, Roster;
  }

  // ---- Exactly when epoch certificates agree ----

  /** Whatever happens, as far as it is admitted. */
  ghost predicate AlwaysAgree(crashes: bool, moves: bool) {
    forall sys, cs :: Setting(sys, cs) && Admitted(sys, crashes, moves) ==> Agree(cs)
  }

  /** Two valid certificates of issued votes for one epoch agree in every run of every committee within budget if
      and only if honest members neither crash nor move their ledgers behind a fence. */
  lemma EpochAgreementExactly(crashes: bool, moves: bool)
    ensures AlwaysAgree(crashes, moves) <==> !crashes && !moves
  {
    hide Setting, Agree;
    if moves {
      var sys, cs := HonestCertificatesConflict();
      assert !AlwaysAgree(crashes, moves);
    } else if crashes {
      var sys, cs := CrashConflicts();
      assert !AlwaysAgree(crashes, moves);
    } else {
      forall sys, cs | Setting(sys, cs) && Admitted(sys, crashes, moves)
        ensures Agree(cs)
      {
        EpochCertificatesAgree(sys, cs);
      }
    }
  }
}
