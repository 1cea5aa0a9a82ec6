/** A committee of two honest members and the small runs of it that mark where guarantees end. */
module TwoMembers {
  import opened Basics
  import opened Ledgers
  import opened Orders
  import opened Authorities
  import opened AuthorityRuns
  import opened Committees
  import opened Realizations

  const OWNER_KEY: Key := 7

  function Rules(): (r: Policy) { Policy("net", map["alice" := OWNER_KEY, "bob" := OWNER_KEY + 1]) }

  function KeyOf(id: AuthorityId): (r: Key) { if id == "a0" then 1 else 2 }

  function Pair(): (r: Committee) { Committee(map["a0" := 1, "a1" := 2], Rules(), 0) }

  function Genesis(): (r: Ledger) { map["alice" := Account(100, 0)] }

  function OriginOf(id: AuthorityId, c: Committee): (r: Origin) {
    Origin(id, KeyOf(id), Rules(), c.Id(), Genesis())
  }

  function Start(id: AuthorityId, c: Committee): (r: Node) {
    Node(OriginOf(id, c), Fresh(OriginOf(id, c)), [], {}, {}, 0, [], false, false)
  }

  /** Alice pays bob at sequence 0; the nonce tells apart two signatures of one body. */
  function Pay(amount: U128, round: U64, nonce: nat): (r: Order) {
    var t := Transfer("alice", 0, "bob", amount);
    Order("net", Rules(), t, round, Signature(OWNER_KEY, OwnerIntent(Rules(), "net", t, round), nonce))
  }

  function Ballot(id: AuthorityId, amount: U128, round: U64): (r: Vote) {
    var t, c := Transfer("alice", 0, "bob", amount), Pair().Id();
    Vote(id, c, Rules(), "net", t, round, Sign(KeyOf(id), AuthorityVote(id, c, Rules(), "net", t, round)))
  }

  /** Both members sign the same order. */
  function BothSign(amount: U128, round: U64, nonce: nat): (r: Certificate) {
    Certificate(Pay(amount, round, nonce), [Ballot("a0", amount, round), Ballot("a1", amount, round)])
  }

  lemma Sizes()
    ensures |Pair().members| == 2 && Pair().QuorumSize() == 2 && Quorums.MaxFaulty(2) == 0
    ensures Pair().members.Keys == {"a0", "a1"}
  {
    assert Pair().members.Keys == {"a0", "a1"};
  }

  lemma BothSignCertifies(amount: U128, round: U64, nonce: nat)
    ensures CertifiedBy(BothSign(amount, round, nonce), Pair())
  {
    Sizes();
    var cert := BothSign(amount, round, nonce);
    assert cert.votes[0].authority == "a0" && cert.votes[1].authority == "a1";
    assert Voters(cert.votes) == {"a0", "a1"};
  }

  lemma StartsInitial(id: AuthorityId, c: Committee)
    ensures Initial(Start(id, c))
  {
    SupplySplit(Genesis(), "alice");
    assert Genesis() - {"alice"} == map[];
  }

  // ---- One member's steps ----

  /** The member has spent nothing. */
  ghost predicate Unspent(s: Authority, id: AuthorityId) {
    && s.id == id && s.key == KeyOf(id) && s.policy == Rules()
    && s.committeeId == Pair().Id() && s.ledger == Genesis()
    && !s.poisoned && s.epoch <= 1
  }

  /** Its gate is open as well. */
  ghost predicate Ready(s: Authority, id: AuthorityId) {
    Unspent(s, id) && s.epochState.Active?
  }

  function Asks(amount: U128, round: U64): (e: Event) {
    OnHandle(Pay(amount, round, 0), Durable)
  }

  lemma MemberVotes(n: Node, id: AuthorityId, amount: U128, round: U64)
    requires Ready(n.auth, id) && 0 < amount <= 100 && SlotOf(Pay(amount, round, 0)) !in n.auth.locked
    ensures var n' := Next(n, Asks(amount, round));
            && Ready(n'.auth, id) && n'.auth.epoch == n.auth.epoch && n'.stretch == n.stretch
            && n'.auth.locked == n.auth.locked[SlotOf(Pay(amount, round, 0)) := Pay(amount, round, 0)]
            && n'.epochVotes == n.epochVotes
            && |n'.votes| == |n.votes| + 1 && n'.votes[..|n.votes|] == n.votes
            && n'.votes[|n.votes|].vote == Ballot(id, amount, round)
  {
    var o := Pay(amount, round, 0);
    assert VerifyOrder(Rules(), o).None?;
    assert Preflight(n.auth.ledger, o.transfer).None?;
  }

  // ---- Re-electing the same roster ----

  function Proposal(): (p: EpochProposal) {
    EpochProposal("net", Rules(), 1, [("a0", 1), ("a1", 2)])
  }

  /** Nothing has been spent, so every account's next sequence is still 0. */
  function GenesisFrontier(): (f: Frontier) { [("alice", 0)] }

  /** What a fenced member signs. */
  function Assent(id: AuthorityId): (v: EpochVote) {
    var c, f := Pair().Id(), GenesisFrontier();
    EpochVote(id, c, 1, c, f, FrontierDigest(f), Sign(KeyOf(id), EpochAssent(id, c, 1, c, FrontierDigest(f))))
  }

  function Reelection(): (cert: EpochCert) {
    EpochCert(1, Proposal().nextRoster, GenesisFrontier(), [Assent("a0"), Assent("a1")])
  }

  lemma ProposalBuilds()
    ensures BuildCommittee(Proposal().nextRoster, Rules(), 1) == Some(Pair().(epoch := 1))
  {
    var roster := Proposal().nextRoster;
    assert roster[..1][..0] == roster[..0];
    assert BuildRoster(roster[..0]) == Some(map[]);
    assert BuildRoster(roster[..1]) == Some(map["a0" := 1]);
    assert BuildRoster(roster) == Some(Pair().members);
    Sizes();
  }

  lemma ReelectionCertified()
    ensures EpochCertified(Reelection(), Pair().Id(), Pair())
  {
    var cert, id, c := Reelection(), Pair().Id(), Pair();
    Sizes();
    assert cert.votes[0].authority == "a0" && cert.votes[1].authority == "a1";
    assert EpochVoters(cert.votes) == {"a0", "a1"};
    assert EpochVoters(cert.votes[..1]) == {"a0"} by { assert cert.votes[..1][0].authority == "a0"; }
    assert EpochVoteValid(cert.votes[0], cert, id, c) && EpochVoteValid(cert.votes[1], cert, id, c);
    assert EpochVotesGood(cert, id, c, 0);
    assert EpochVotesGood(cert, id, c, 1);
    assert EpochVotesGood(cert, id, c, 2);
  }

  function Fences(): (e: Event) { OnFence(Proposal(), Durable) }

  function Assents(): (e: Event) { OnEpochVote(GenesisFrontier()) }

  function Reelects(): (e: Event) { OnInstall(Reelection(), Pair(), Durable) }

  /** Fence, then sign assent to the fenced proposal over the present frontier. */
  lemma MemberAssents(n: Node, id: AuthorityId)
    requires Ready(n.auth, id) && n.auth.epoch == 0
    ensures var n1 := Next(n, Fences());
            var n2 := Next(n1, Assents());
            && ListsFrontier(GenesisFrontier(), n1.auth.ledger)
            && Unspent(n2.auth, id) && n2.auth.epoch == 0 && n2.auth.epochState == Fencing(Proposal())
            && n2.votes == n.votes && n2.stretch == n.stretch && n2.epochVotes == n.epochVotes + {Assent(id)}
  {
    ProposalBuilds();
    hide BuildCommittee, BuildRoster;
    assert Enumerates(GenesisFrontier(), map["alice" := 0]) by {
      assert GenesisFrontier()[0].0 == "alice";
    }
    assert (map x | x in Genesis() :: Genesis()[x].nextSeq) == map["alice" := 0];
  }

  lemma MemberInstalls(n: Node, id: AuthorityId)
    requires Unspent(n.auth, id) && n.auth.epoch == 0 && !n.auth.epochState.Installing?
    ensures var n' := Next(n, Reelects());
            && Ready(n'.auth, id) && n'.auth.locked == map[] && n'.votes == n.votes && n'.epochVotes == n.epochVotes
            && n'.stretch == n.stretch + 1
  {
    hide EpochCertified, BuildCommittee, BuildRoster;
    ProposalBuilds();
    ReelectionCertified();
    var cert, next := Reelection(), Pair().(epoch := 1);
    assert Install(n.auth, cert, Pair(), Durable) == EnterEpoch(n.auth, cert, next, Durable);
    assert n.auth.journal + [EpochInstalled(cert)] != n.auth.journal;
  }

  // ---- One member's history ----

  /** Vote for one payment and, if an install is to come, fence and assent to it. */
  function Opening(id: AuthorityId, amount: U128, round: U64, install: bool): (n: Node) {
    var n1 := Next(Start(id, Pair()), Asks(amount, round));
    if install then Next(Next(n1, Fences()), Assents()) else n1
  }

  function Middle(n: Node, install: bool): (r: Node) {
    if install then Next(n, Reelects()) else n
  }

  lemma OpeningState(id: AuthorityId, amount: U128, round: U64, install: bool)
    requires 0 < amount <= 100
    ensures var n := Opening(id, amount, round, install);
            && Unspent(n.auth, id) && n.auth.epoch == 0 && !n.auth.epochState.Installing? && n.stretch == 0
            && (!install ==> Ready(n.auth, id) && n.auth.locked.Keys == {SlotOf(Pay(amount, round, 0))})
            && |n.votes| == 1 && n.votes[0].vote == Ballot(id, amount, round)
            && n.epochVotes == (if install then {Assent(id)} else {})
  {
    StartReady(id);
    hide Next, Unspent, Start;
    MemberVotes(Start(id, Pair()), id, amount, round);
    if install {
      MemberAssents(Next(Start(id, Pair()), Asks(amount, round)), id);
    }
  }

  lemma StartReady(id: AuthorityId)
    ensures var n := Start(id, Pair());
            && Ready(n.auth, id) && n.auth.epoch == 0 && n.auth.locked == map[]
            && n.votes == [] && n.epochVotes == {} && n.stretch == 0
  {
  }

  /** Both votes get out, provided that the rounds differ or an install lies between. */
  lemma HistoryVotes(id: AuthorityId, first: U128, round: U64, install: bool, second: U128, later: U64)
    requires (install || round != later) && 0 < first <= 100 && 0 < second <= 100
    ensures var n := Next(Middle(Opening(id, first, round, install), install), Asks(second, later));
            && n.stretch == (if install then 1 else 0)
            && |n.votes| == 2 && n.votes[0].vote == Ballot(id, first, round)
            && n.votes[1].vote == Ballot(id, second, later)
  {
    hide Next, Opening, Unspent;
    OpeningState(id, first, round, install);
    var n1 := Opening(id, first, round, install);
    if install {
      MemberInstalls(n1, id);
    }
    var n2 := Middle(n1, install);
    MemberVotes(n2, id, second, later);
    var n3 := Next(n2, Asks(second, later));
    assert n3.votes[..1][0] == n2.votes[0];
  }

  // ---- Both members ----

  /** A member may take a step that is possible and grounded. */
  lemma Steps(sys: System, id: AuthorityId, n: Node, e: Event, r: System)
    requires Realizable(sys) && id in sys && sys[id] == n && Enabled(n, e) && Grounded(sys, e)
    requires r == sys[id := Next(n, e)]
    ensures Realizable(r)
  {
    hide Next, Realizable, Enabled, Grounded;
    RealizeStep(sys, id, e);
  }

  lemma FreeSteps(sys: System, n: Node, amount: U128, round: U64)
    ensures Enabled(n, Asks(amount, round)) && Grounded(sys, Asks(amount, round))
    ensures Enabled(n, Fences()) && Grounded(sys, Fences()) && Grounded(sys, Assents()) && Enabled(n, Reelects())
  {
  }

  function Opened(first: U128, other: U128, round: U64, install: bool): (sys: System) {
    map["a0" := Opening("a0", first, round, install), "a1" := Opening("a1", other, round, install)]
  }

  /** One member opens in a realizable system. */
  lemma OpeningRuns(sys: System, id: AuthorityId, amount: U128, round: U64, install: bool)
    requires Realizable(sys) && id in sys && sys[id] == Start(id, Pair()) && 0 < amount <= 100
    ensures Realizable(sys[id := Opening(id, amount, round, install)])
  {
    hide Next, Realizable, Enabled, Grounded, Start, Ready, Unspent, Asks, Fences, Assents, Reelects, Ballot, Pay;
    var n0 := Start(id, Pair());
    StartReady(id);
    MemberVotes(n0, id, amount, round);
    var n1 := Next(n0, Asks(amount, round));
    var sys1 := sys[id := n1];
    FreeSteps(sys, n0, amount, round);
    Steps(sys, id, n0, Asks(amount, round), sys1);
    if install {
      MemberAssents(n1, id);
      var n2 := Next(n1, Fences());
      var sys2 := sys1[id := n2];
      FreeSteps(sys1, n1, amount, round);
      Steps(sys1, id, n1, Fences(), sys2);
      FreeSteps(sys2, n2, amount, round);
      assert Enabled(n2, Assents()) by {
        AssentsEnabled(n2);
      }
      Steps(sys2, id, n2, Assents(), sys[id := Opening(id, amount, round, install)]);
    }
  }

  lemma AssentsEnabled(n: Node)
    requires ListsFrontier(GenesisFrontier(), n.auth.ledger)
    ensures Enabled(n, Assents())
  {
  }

  lemma StartsRealizable(c: Committee)
    ensures Realizable(map["a0" := Start("a0", c), "a1" := Start("a1", c)])
  {
    hide Realizable;
    StartsInitial("a0", c);
    StartsInitial("a1", c);
    RealizeInitial(map["a0" := Start("a0", c), "a1" := Start("a1", c)]);
  }

  lemma OpenedRealizable(first: U128, other: U128, round: U64, install: bool)
    requires 0 < first <= 100 && 0 < other <= 100
    ensures Realizable(Opened(first, other, round, install))
  {
    var sys := map["a0" := Start("a0", Pair()), "a1" := Start("a1", Pair())];
    StartsRealizable(Pair());
    hide Realizable, Start, Opening, Next, Pair;
    OpeningRuns(sys, "a0", first, round, install);
    OpeningRuns(sys["a0" := Opening("a0", first, round, install)], "a1", other, round, install);
    assert sys["a0" := Opening("a0", first, round, install)]["a1" := Opening("a1", other, round, install)]
            == Opened(first, other, round, install);
  }

  /** The two members install on each other's assents. */
  function Installed(sys: System, install: bool): (r: System)
    requires "a0" in sys && "a1" in sys
  {
    sys["a0" := Middle(sys["a0"], install)]["a1" := Middle(sys["a1"], install)]
  }

  lemma InstalledRealizable(first: U128, other: U128, round: U64, install: bool)
    requires 0 < first <= 100 && 0 < other <= 100
    ensures Realizable(Installed(Opened(first, other, round, install), install))
  {
    hide Realizable, Opening, Unspent, Ready, Next, Grounded, Enabled, Asks, Fences, Assents, Reelects, Ballot;
    var sys := Opened(first, other, round, install);
    OpenedRealizable(first, other, round, install);
    if install {
      OpeningState("a0", first, round, install);
      OpeningState("a1", other, round, install);
      MemberInstalls(sys["a0"], "a0");
      var sys1 := sys["a0" := Next(sys["a0"], Reelects())];
      ReelectionGrounded(sys);
      ReelectionGrounded(sys1);
      FreeSteps(sys, sys["a0"], first, round);
      Steps(sys, "a0", sys["a0"], Reelects(), sys1);
      FreeSteps(sys1, sys["a1"], first, round);
      Steps(sys1, "a1", sys["a1"], Reelects(), Installed(sys, install));
    } else {
      assert Installed(sys, install) == sys;
    }
  }

  lemma ReelectionGrounded(sys: System)
    requires "a0" in sys && "a1" in sys && Assent("a0") in sys["a0"].epochVotes && Assent("a1") in sys["a1"].epochVotes
    ensures Grounded(sys, Reelects())
  {
  }

  function Asked(sys: System, amount: U128, round: U64): (r: System)
    requires "a0" in sys && "a1" in sys
  {
    sys["a0" := Next(sys["a0"], Asks(amount, round))]["a1" := Next(sys["a1"], Asks(amount, round))]
  }

  lemma AskedRealizable(sys: System, amount: U128, round: U64)
    requires Realizable(sys) && sys.Keys == {"a0", "a1"}
    ensures Realizable(Asked(sys, amount, round))
  {
    hide Realizable, Next, Asks, Grounded, Enabled, Fences, Assents, Reelects;
    var sys1 := sys["a0" := Next(sys["a0"], Asks(amount, round))];
    FreeSteps(sys, sys["a0"], amount, round);
    Steps(sys, "a0", sys["a0"], Asks(amount, round), sys1);
    FreeSteps(sys1, sys1["a1"], amount, round);
    Steps(sys1, "a1", sys1["a1"], Asks(amount, round), Asked(sys, amount, round));
  }

  /** Both members vote once more. */
  function Played(first: U128, other: U128, round: U64, install: bool, second: U128, later: U64): (sys: System) {
    Asked(Installed(Opened(first, other, round, install), install), second, later)
  }

  lemma PlayedRealizable(first: U128, other: U128, round: U64, install: bool, second: U128, later: U64)
    requires 0 < first <= 100 && 0 < other <= 100
    ensures Realizable(Played(first, other, round, install, second, later))
  {
    hide Realizable, Opening, Middle, Asked;
    InstalledRealizable(first, other, round, install);
    AskedRealizable(Installed(Opened(first, other, round, install), install), second, later);
  }

  /** All four votes are out, everybody is honest, and without an install nobody has journalled one. */
  lemma PlayedOut(first: U128, other: U128, round: U64, install: bool, second: U128, later: U64)
    requires (install || round != later) && 0 < first <= 100 && 0 < other <= 100 && 0 < second <= 100
    ensures var sys := Played(first, other, round, install, second, later);
            && Realizable(sys) && WithinBudget(sys, Pair()) && (!install ==> NoInstall(sys))
            && IssuedVote(sys, Ballot("a0", first, round)) && IssuedVote(sys, Ballot("a1", other, round))
            && IssuedVote(sys, Ballot("a0", second, later)) && IssuedVote(sys, Ballot("a1", second, later))
  {
    hide Realizable, Opening, Middle, Next, Asks, Ballot, IssuedVote;
    PlayedRealizable(first, other, round, install, second, later);
    HistoryVotes("a0", first, round, install, second, later);
    HistoryVotes("a1", other, round, install, second, later);
    var sys := Played(first, other, round, install, second, later);
    AllHonest(sys);
    VoteIsIssued(sys, "a0", 0);
    VoteIsIssued(sys, "a0", 1);
    VoteIsIssued(sys, "a1", 0);
    VoteIsIssued(sys, "a1", 1);
    BallotsNamed(first, round);
    BallotsNamed(other, round);
    BallotsNamed(second, later);
  }

  lemma AllHonest(sys: System)
    requires sys.Keys == {"a0", "a1"}
    ensures WithinBudget(sys, Pair())
  {
    Sizes();
    assert Pair().members.Keys - sys.Keys == {};
  }

  lemma BallotsNamed(amount: U128, round: U64)
    ensures Ballot("a0", amount, round).authority == "a0" && Ballot("a1", amount, round).authority == "a1"
  {
  }

  lemma VoteIsIssued(sys: System, id: AuthorityId, i: nat)
    requires id in sys && i < |sys[id].votes|
    ensures sys[id].votes[i].vote.authority == id ==> IssuedVote(sys, sys[id].votes[i].vote)
  {
  }

  lemma IssuedIsGenuine(sys: System, v: Vote)
    requires IssuedVote(sys, v)
    ensures GenuineVote(sys, v)
  {
  }
}
