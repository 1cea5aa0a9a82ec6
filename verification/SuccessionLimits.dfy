/** The reach of finality again, where the second committee is the one that the first elects: everybody starts under
    the first committee, and a genuine epoch certificate of it installs the second. The bound stays the same. */
module SuccessionLimits {
  import opened Basics
  import opened Ledgers
  import opened Orders
  import opened Authorities
  import opened AuthorityRuns
  import opened Committees
  import opened Realizations
  import opened TwoMembers
  import opened FinalityLimits

  type Roster = seq<(AuthorityId, Key)>

  /** The second committee is the successor that a genuine epoch certificate of the first names, and every honest
      member started under the first. */
  ghost predicate Elected(sys: System, f: Finals, cert: EpochCert) {
    && (forall id :: id in sys ==> sys[id].origin.committeeId == f.c.Id())
    && BuildCommittee(cert.nextRoster, f.c.policy, cert.epoch) == Some(f.d) && EpochCertified(cert, f.d.Id(), f.c)
    && forall v :: v in cert.votes ==> IssuedEpochVote(sys, v)
  }

  ghost predicate SuccessionAgrees(m1: map<AuthorityId, Key>, roster: Roster, m2: map<AuthorityId, Key>,
                                   honest: set<AuthorityId>)
  {
    forall sys, f, cert: EpochCert ::
      Setting(m1, m2, honest, sys, f) && Elected(sys, f, cert) && cert.nextRoster == roster ==> f.x == f.y
  }

  // ---- One member ----

  function Electing(roster: Roster): (p: EpochProposal) { EpochProposal("net", Rules(), 1, roster) }

  function FencesFor(roster: Roster): (e: Event) { OnFence(Electing(roster), Durable) }

  function AssentIn(id: AuthorityId, c: Committee, d: Committee): (v: EpochVote)
    requires id in c.members
  {
    var f := GenesisFrontier();
    EpochVote(id, c.Id(), 1, d.Id(), f, FrontierDigest(f),
              Sign(c.members[id], EpochAssent(id, c.Id(), 1, d.Id(), FrontierDigest(f))))
  }

  /** A member of the first committee that has signed nothing away yet. */
  ghost predicate Idle(n: Node, id: AuthorityId, key: Key, c: Committee) {
    && n.auth.id == id && n.auth.key == key && n.auth.policy == Rules() && n.auth.committeeId == c.Id()
    && n.auth.ledger == Genesis() && n.auth.confirmed == map[] && !n.auth.poisoned
  }

  lemma FounderAsks(id: AuthorityId, c: Committee)
    requires id in c.members && c.policy == Rules()
    ensures var n1 := Next(Founder(id, c.members[id], c), Asks(1, 0));
            && Idle(n1, id, c.members[id], c) && n1.auth.epochState == Active && n1.auth.epoch == 0
            && |n1.votes| == 1 && n1.votes[0].vote == VoteIn(id, c, 1)
  {
    FounderSettles(id, c, 1);
    var o := Pay(1, 0, 0);
    assert VerifyOrder(Rules(), o).None? && Preflight(Genesis(), o.transfer).None?;
  }

  /** It votes and then fences, and will sign assent over the present frontier. */
  lemma LeftOpens(id: AuthorityId, c: Committee, roster: Roster, d: Committee)
    requires id in c.members && c.policy == Rules() && BuildCommittee(roster, Rules(), 1) == Some(d)
    ensures var n := After(Founder(id, c.members[id], c), [Asks(1, 0), FencesFor(roster)]);
            && Idle(n, id, c.members[id], c) && n.auth.epochState == Fencing(Electing(roster))
            && |n.votes| == 1 && n.votes[0].vote == VoteIn(id, c, 1)
  {
    FounderAsks(id, c);
    var n0, events := Founder(id, c.members[id], c), [Asks(1, 0), FencesFor(roster)];
    assert events[..1] == [Asks(1, 0)];
    AfterOne(n0, Asks(1, 0));
    FencesIdle(Next(n0, Asks(1, 0)), id, c.members[id], c, roster, d);
    hide Next, Idle, Founder, VoteIn;
  }

  lemma FencesIdle(n: Node, id: AuthorityId, key: Key, c: Committee, roster: Roster, d: Committee)
    requires Idle(n, id, key, c) && n.auth.epochState == Active && n.auth.epoch == 0
    requires BuildCommittee(roster, Rules(), 1) == Some(d)
    ensures var n' := Next(n, FencesFor(roster));
            && Idle(n', id, key, c) && n'.auth.epochState == Fencing(Electing(roster)) && n'.votes == n.votes
  {
    hide BuildCommittee;
  }

  lemma GenesisListed()
    ensures ListsFrontier(GenesisFrontier(), Genesis()) && Covers(Genesis(), GenesisFrontier())
  {
    assert Enumerates(GenesisFrontier(), map["alice" := 0]) by {
      assert GenesisFrontier()[0].0 == "alice";
    }
    assert (map x | x in Genesis() :: Genesis()[x].nextSeq) == map["alice" := 0];
  }

  lemma LeftAssents(n: Node, id: AuthorityId, c: Committee, roster: Roster, d: Committee)
    requires id in c.members && BuildCommittee(roster, Rules(), 1) == Some(d) && d.policy == Rules()
    requires Idle(n, id, c.members[id], c) && n.auth.epochState == Fencing(Electing(roster))
    ensures Enabled(n, Assents())
    ensures Next(n, Assents()) == n.(epochVotes := n.epochVotes + {AssentIn(id, c, d)})
  {
    GenesisListed();
    hide BuildCommittee, ListsFrontier;
  }

  /** It installs the successor at once and votes under it. */
  lemma RightOpens(id: AuthorityId, c: Committee, d: Committee, cert: EpochCert)
    requires id in d.members && c.policy == Rules() && d.policy == Rules() && cert.frontier == GenesisFrontier()
    requires BuildCommittee(cert.nextRoster, Rules(), 1) == Some(d) && cert.epoch == 1
    requires EpochCertified(cert, d.Id(), c)
    ensures var n := After(Founder(id, d.members[id], c), [OnInstall(cert, c, Durable), Asks(2, 0)]);
            && Idle(n, id, d.members[id], d) && n.auth.epochState.Active?
            && |n.votes| == 1 && n.votes[0].vote == VoteIn(id, d, 2)
  {
    var n0, e := Founder(id, d.members[id], c), OnInstall(cert, c, Durable);
    FounderInstalls(id, d.members[id], c, d, cert);
    MemberAsks(Next(n0, e), id, d);
    assert [e, Asks(2, 0)][..1] == [e];
    AfterOne(n0, e);
    hide Next, Idle, Founder, VoteIn, BuildCommittee, EpochCertified;
  }

  lemma FounderInstalls(id: AuthorityId, key: Key, c: Committee, d: Committee, cert: EpochCert)
    requires c.policy == Rules() && d.policy == Rules() && cert.frontier == GenesisFrontier() && cert.epoch == 1
    requires BuildCommittee(cert.nextRoster, Rules(), 1) == Some(d) && EpochCertified(cert, d.Id(), c)
    ensures var n := Next(Founder(id, key, c), OnInstall(cert, c, Durable));
            Idle(n, id, key, d) && n.auth.epochState.Active? && n.auth.locked == map[] && n.votes == []
            && n.auth.epoch == 1 && n.origin.committeeId == c.Id()
  {
    GenesisListed();
    hide BuildCommittee, EpochCertified, Genesis, GenesisFrontier;
    var n := Founder(id, key, c);
    assert Install(n.auth, cert, c, Durable) == EnterEpoch(n.auth, cert, d, Durable);
  }

  lemma MemberAsks(n: Node, id: AuthorityId, d: Committee)
    requires id in d.members && d.policy == Rules() && Idle(n, id, d.members[id], d)
    requires n.auth.epochState.Active? && n.auth.locked == map[] && n.votes == []
    ensures var n' := Next(n, Asks(2, 0));
            && Idle(n', id, d.members[id], d) && n'.auth.epochState.Active?
            && |n'.votes| == 1 && n'.votes[0].vote == VoteIn(id, d, 2)
  {
    var o := Pay(2, 0, 0);
    assert VerifyOrder(Rules(), o).None? && Preflight(Genesis(), o.transfer).None?;
  }

  // ---- The certificate ----

  function ElectionOf(ids: seq<AuthorityId>, c: Committee, roster: Roster, d: Committee): (cert: EpochCert)
    requires forall id :: id in ids ==> id in c.members
  {
    EpochCert(1, roster, GenesisFrontier(), seq(|ids|, i requires 0 <= i < |ids| => AssentIn(ids[i], c, d)))
  }

  lemma {:induction false} AssentsGood(ids: seq<AuthorityId>, c: Committee, roster: Roster, d: Committee, n: nat)
    requires (forall id :: id in ids ==> id in c.members) && n <= |ids|
    requires forall i, j :: 0 <= i < j < |ids| ==> ids[i] != ids[j]
    ensures EpochVotesGood(ElectionOf(ids, c, roster, d), d.Id(), c, n)
  {
    if n > 0 {
      AssentsGood(ids, c, roster, d, n - 1);
      var votes := ElectionOf(ids, c, roster, d).votes;
      assert forall i :: 0 <= i < |votes| ==> votes[i].authority == ids[i];
    }
  }

  lemma QuorumElects(s: set<AuthorityId>, ids: seq<AuthorityId>, c: Committee, roster: Roster, d: Committee)
    requires s <= c.members.Keys && |s| >= c.QuorumSize()
    requires (forall id :: id in ids <==> id in s) && forall i, j :: 0 <= i < j < |ids| ==> ids[i] != ids[j]
    ensures EpochCertified(ElectionOf(ids, c, roster, d), d.Id(), c)
  {
    var votes := ElectionOf(ids, c, roster, d).votes;
    AssentsGood(ids, c, roster, d, |ids|);
    forall id | id in s
      ensures id in EpochVoters(votes)
    {
      var i :| 0 <= i < |ids| && ids[i] == id;
      assert votes[i].authority == id;
    }
    assert forall i :: 0 <= i < |votes| ==> votes[i].authority == ids[i];
    assert EpochVoters(votes) == s;
  }

  // ---- The forking run ----

  ghost predicate Heir(p: Split, roster: Roster) {
    Divided(p) && BuildCommittee(roster, Rules(), 1) == Some(p.d)
  }

  /** Everybody starts under the first committee. */
  function Begun(p: Split): (sys: System) {
    map id | id in p.honest :: Founder(id, KeyIn(p, id), p.c)
  }

  /** The first quorum votes, fences and assents. */
  function Fenced(p: Split, roster: Roster): (sys: System) {
    Ran(Begun(p), p.honest * p.a, _ => [Asks(1, 0), FencesFor(roster)])
  }

  function Assented(p: Split, roster: Roster): (sys: System) {
    Ran(Fenced(p, roster), p.honest * p.a, _ => [Assents()])
  }

  /** The second quorum installs the successor and votes under it. */
  function Succeeded(p: Split, roster: Roster, cert: EpochCert): (sys: System) {
    Ran(Assented(p, roster), p.honest * p.b, _ => [OnInstall(cert, p.c, Durable), Asks(2, 0)])
  }

  /** Both quorums settle. */
  function Finished(p: Split, roster: Roster, cert: EpochCert): (sys: System) {
    Ran(Succeeded(p, roster, cert), p.honest * (p.a + p.b), id => Settle(Home(p, id), Amount(p, id)))
  }

  lemma Members(p: Split, roster: Roster, cert: EpochCert)
    ensures Begun(p).Keys == Fenced(p, roster).Keys == Assented(p, roster).Keys == p.honest
    ensures Succeeded(p, roster, cert).Keys == Finished(p, roster, cert).Keys == p.honest
  {
  }

  /** A member of the first quorum, up to the install by the others. */
  lemma LeftMember(p: Split, roster: Roster, id: AuthorityId)
    requires Heir(p, roster) && id in p.honest * p.a
    ensures id in p.c.members && id !in p.b && Home(p, id) == p.c && Amount(p, id) == 1
    ensures id in Fenced(p, roster) && Enabled(Fenced(p, roster)[id], Assents())
    ensures var n := Assented(p, roster)[id];
            && Idle(n, id, p.c.members[id], p.c) && n.auth.epochState.Fencing?
            && AssentIn(id, p.c, p.d) in n.epochVotes && |n.votes| == 1 && n.votes[0].vote == VoteIn(id, p.c, 1)
  {
    assert id in p.a * p.b * p.honest <==> id in p.b;
    var n := After(Founder(id, p.c.members[id], p.c), [Asks(1, 0), FencesFor(roster)]);
    LeftOpens(id, p.c, roster, p.d);
    LeftAssents(n, id, p.c, roster, p.d);
    hide After, Next, BuildCommittee, Idle, Enabled, VoteIn, AssentIn, Founder, Assents;
    assert Fenced(p, roster)[id] == n;
    AfterOne(n, Assents());
    assert Assented(p, roster)[id] == Next(n, Assents());
    LeftKeepsIdle(n, id, p.c, AssentIn(id, p.c, p.d));
  }

  lemma LeftKeepsIdle(n: Node, id: AuthorityId, c: Committee, v: EpochVote)
    requires id in c.members && Idle(n, id, c.members[id], c)
    ensures Idle(n.(epochVotes := n.epochVotes + {v}), id, c.members[id], c)
  {
  }

  /** A member of the second quorum has installed the successor and voted under it. */
  lemma RightMember(p: Split, roster: Roster, cert: EpochCert, id: AuthorityId)
    requires Heir(p, roster) && id in p.honest * p.b
    requires cert.nextRoster == roster && cert.epoch == 1 && cert.frontier == GenesisFrontier()
    requires EpochCertified(cert, p.d.Id(), p.c)
    ensures id in p.d.members && id !in p.a && Home(p, id) == p.d && Amount(p, id) == 2
    ensures id in Succeeded(p, roster, cert)
    ensures var n := Succeeded(p, roster, cert)[id];
            && Idle(n, id, p.d.members[id], p.d) && n.auth.epochState.Active?
            && |n.votes| == 1 && n.votes[0].vote == VoteIn(id, p.d, 2)
  {
    assert id in p.a * p.b * p.honest <==> id in p.a;
    RightOpens(id, p.c, p.d, cert);
    hide After, Next, BuildCommittee, Idle, VoteIn, Founder, EpochCertified;
    assert Assented(p, roster)[id] == Founder(id, p.d.members[id], p.c);
  }

  /** What an honest member of either quorum has let out in the end. */
  lemma EitherMember(p: Split, roster: Roster, cert: EpochCert, id: AuthorityId)
    requires Heir(p, roster) && id in p.honest * (p.a + p.b)
    requires cert.nextRoster == roster && cert.epoch == 1 && cert.frontier == GenesisFrontier()
    requires EpochCertified(cert, p.d.Id(), p.c)
    ensures id in Home(p, id).members && id in Finished(p, roster, cert)
    ensures IssuedVote(Succeeded(p, roster, cert), VoteIn(id, Home(p, id), Amount(p, id)))
    ensures StatementIn(id, Home(p, id), Amount(p, id)) in Finished(p, roster, cert)[id].attested
  {
    Members(p, roster, cert);
    var n := Succeeded(p, roster, cert)[id];
    if id in p.a {
      LeftMember(p, roster, id);
      assert n == Assented(p, roster)[id];
    } else {
      RightMember(p, roster, cert, id);
    }
    HomeRules(p, roster, id);
    assert VoteIn(id, Home(p, id), Amount(p, id)).authority == id;
    IdleSettles(n, id, Home(p, id), Amount(p, id));
    hide After, BuildCommittee, Idle, VoteIn, EpochCertified, Assented, Home, Amount, Divided;
    assert n.votes[0].vote == VoteIn(id, Home(p, id), Amount(p, id));
  }

  lemma HomeRules(p: Split, roster: Roster, id: AuthorityId)
    requires Heir(p, roster)
    ensures Home(p, id).policy == Rules() && 0 < Amount(p, id) <= 100
  {
  }

  lemma IdleSettles(n: Node, id: AuthorityId, c: Committee, amount: U128)
    requires id in c.members && c.policy == Rules() && 0 < amount <= 100
    requires Idle(n, id, c.members[id], c) && !n.auth.epochState.Installing?
    ensures StatementIn(id, c, amount) in After(n, Settle(c, amount)).attested
  {
    SettlesFrom(n, id, c, amount);
  }

  lemma AssentedRealizable(p: Split, roster: Roster)
    requires Heir(p, roster)
    ensures Realizable(Assented(p, roster))
  {
    forall id | id in p.honest
      ensures Initial(Begun(p)[id]) && Begun(p)[id].origin.id == id
    {
      FounderInitial(id, KeyIn(p, id), p.c);
    }
    forall id | id in p.honest * p.a
      ensures id in Fenced(p, roster) && Enabled(Fenced(p, roster)[id], Assents())
    {
      LeftMember(p, roster, id);
    }
    hide Initial, Founder, Realizable, Next, After, Heir, Enabled, Idle, Extends, KeyIn, FencesFor;
    RealizeInitial(Begun(p));
    AllRun(Begun(p), p.honest * p.a, _ => [Asks(1, 0), FencesFor(roster)]);
    AllStep(Fenced(p, roster), p.honest * p.a, Assents());
  }

  /** The first quorum's certificate for the successor. */
  lemma Election(p: Split, roster: Roster) returns (cert: EpochCert)
    requires Heir(p, roster)
    ensures cert.nextRoster == roster && cert.epoch == 1 && cert.frontier == GenesisFrontier()
    ensures EpochCertified(cert, p.d.Id(), p.c)
    ensures forall v :: v in cert.votes ==> IssuedEpochVote(Assented(p, roster), v)
  {
    QuorumsOf(p);
    forall id | id in p.a
      ensures id in p.c.members && IssuedEpochVote(Assented(p, roster), AssentIn(id, p.c, p.d))
    {
      AssentIssued(p, roster, id);
    }
    hide Assented, EpochCertified, IssuedEpochVote, Heir, AssentIn;
    var left := Listing(p.a);
    cert := ElectionOf(left, p.c, roster, p.d);
    QuorumElects(p.a, left, p.c, roster, p.d);
    forall v | v in cert.votes
      ensures IssuedEpochVote(Assented(p, roster), v)
    {
      var i :| 0 <= i < |left| && v == AssentIn(left[i], p.c, p.d);
    }
  }

  lemma AssentIssued(p: Split, roster: Roster, id: AuthorityId)
    requires Heir(p, roster) && id in p.a
    ensures id in p.c.members && IssuedEpochVote(Assented(p, roster), AssentIn(id, p.c, p.d))
  {
    Members(p, roster, EpochCert(1, roster, GenesisFrontier(), []));
    if id in p.honest {
      LeftMember(p, roster, id);
    }
  }

  lemma AssentsStayIssued(a: System, b: System, v: EpochVote)
    requires Extends(a, b) && IssuedEpochVote(a, v)
    ensures IssuedEpochVote(b, v)
  {
  }

  lemma SucceededRealizable(p: Split, roster: Roster, cert: EpochCert)
    requires Heir(p, roster) && forall v :: v in cert.votes ==> IssuedEpochVote(Assented(p, roster), v)
    ensures Realizable(Succeeded(p, roster, cert)) && Extends(Assented(p, roster), Succeeded(p, roster, cert))
  {
    AssentedRealizable(p, roster);
    Members(p, roster, cert);
    hide Realizable, Assented, Next, After, Heir, IssuedEpochVote;
    AllRun(Assented(p, roster), p.honest * p.b, _ => [OnInstall(cert, p.c, Durable), Asks(2, 0)]);
  }

  /** A quorum's votes for a payment are out, and so is a certificate for it. */
  lemma QuorumBacks(sys: System, s: set<AuthorityId>, c: Committee, amount: U128) returns (ids: seq<AuthorityId>)
    requires s <= c.members.Keys && |s| >= c.QuorumSize() && c.policy == Rules() && c.members != map[]
    requires forall id :: id in s && id in sys ==> IssuedVote(sys, VoteIn(id, c, amount))
    ensures (forall id :: id in ids <==> id in s)
    ensures Backs(sys, CertOf(ids, c, amount), c, Pay(amount, 0, 0))
  {
    ids := Listing(s);
    QuorumCertifies(s, ids, c, amount);
    hide CertifiedBy;
    forall v | v in CertOf(ids, c, amount).votes
      ensures IssuedVote(sys, v)
    {
      var i :| 0 <= i < |ids| && v == VoteIn(ids[i], c, amount);
    }
  }

  ghost predicate Fits(p: Split, roster: Roster, cert: EpochCert) {
    && Heir(p, roster)
    && cert.nextRoster == roster && cert.epoch == 1 && cert.frontier == GenesisFrontier()
    && EpochCertified(cert, p.d.Id(), p.c)
    && forall v :: v in cert.votes ==> IssuedEpochVote(Assented(p, roster), v)
  }

  /** The certificates behind the confirmations. */
  lemma BothBacked(p: Split, roster: Roster, cert: EpochCert) returns (left: seq<AuthorityId>, right: seq<AuthorityId>)
    requires Fits(p, roster, cert)
    ensures (forall id :: id in left <==> id in p.a) && (forall id :: id in right <==> id in p.b)
    ensures Backs(Succeeded(p, roster, cert), CertOf(left, p.c, 1), p.c, Pay(1, 0, 0))
    ensures Backs(Succeeded(p, roster, cert), CertOf(right, p.d, 2), p.d, Pay(2, 0, 0))
  {
    var sys := Succeeded(p, roster, cert);
    Members(p, roster, cert);
    LeftFoundsLeft(p);
    RightFoundsRight(p);
    forall id | id in p.honest * (p.a + p.b)
      ensures id in Home(p, id).members && IssuedVote(sys, VoteIn(id, Home(p, id), Amount(p, id)))
    {
      EitherMember(p, roster, cert, id);
    }
    QuorumsOf(p);
    hide Succeeded, Assented, Home, Amount, Fits, IssuedVote, Backs, CertOf;
    OutsidersIssue(sys, p);
    left := QuorumBacks(sys, p.a, p.c, 1);
    right := QuorumBacks(sys, p.b, p.d, 2);
  }

  lemma OutsidersIssue(sys: System, p: Split)
    requires sys.Keys == p.honest && p.a <= p.c.members.Keys && p.b <= p.d.members.Keys
    ensures forall id :: id in p.a && id !in p.honest ==> IssuedVote(sys, VoteIn(id, p.c, 1))
    ensures forall id :: id in p.b && id !in p.honest ==> IssuedVote(sys, VoteIn(id, p.d, 2))
  {
  }

  lemma QuorumsOf(p: Split)
    requires Divided(p)
    ensures p.c.policy == p.d.policy == Rules() && p.c.members != map[] && p.d.members != map[]
    ensures p.a <= p.c.members.Keys && |p.a| >= p.c.QuorumSize()
    ensures p.b <= p.d.members.Keys && |p.b| >= p.d.QuorumSize()
  {
  }

  lemma FinishedRealizable(p: Split, roster: Roster, cert: EpochCert)
    requires Fits(p, roster, cert)
    ensures Realizable(Finished(p, roster, cert))
    ensures Extends(Succeeded(p, roster, cert), Finished(p, roster, cert))
  {
    SucceededRealizable(p, roster, cert);
    Members(p, roster, cert);
    hide Realizable, Succeeded, Settle, Home, Amount, Fits, Extends, After, Performable;
    var sys, who := Succeeded(p, roster, cert), p.honest * (p.a + p.b);
    forall id | id in who
      ensures Performable(sys, Settle(Home(p, id), Amount(p, id)))
    {
      SettlesPerformable(p, roster, cert, id);
    }
    AllRun(sys, who, id => Settle(Home(p, id), Amount(p, id)));
  }

  lemma SettlesPerformable(p: Split, roster: Roster, cert: EpochCert, id: AuthorityId)
    requires Fits(p, roster, cert) && id in p.a + p.b
    ensures Performable(Succeeded(p, roster, cert), Settle(Home(p, id), Amount(p, id)))
  {
    var left, right := BothBacked(p, roster, cert);
    hide Succeeded, CertOf, Backs, Fits, CertifiedBy, Pay, Settle, Grounded;
    forall e | e in Settle(Home(p, id), Amount(p, id))
      ensures !e.OnCompact? && !e.OnEpochVote? && Grounded(Succeeded(p, roster, cert), e)
    {
      SettleGrounded(Succeeded(p, roster, cert), if id in p.a then CertOf(left, p.c, 1) else CertOf(right, p.d, 2),
                     Home(p, id), Amount(p, id), e);
    }
  }

  /** A quorum's attestations are genuine, and final. */
  lemma QuorumFinal(sys: System, s: set<AuthorityId>, ids: seq<AuthorityId>, c: Committee, amount: U128)
    requires s <= c.members.Keys && |s| >= c.QuorumSize() && forall id :: id in ids <==> id in s
    requires forall id :: id in s && id in sys ==> StatementIn(id, c, amount) in sys[id].attested
    ensures forall a :: a in StatementsOf(ids, c, amount) ==> GenuineAttestation(sys, a)
    ensures EffectFinal("alice", 0, Pay(amount, 0, 0), StatementsOf(ids, c, amount), c)
  {
    QuorumAttests(s, ids, c, amount);
    hide EffectFinal;
    forall a | a in StatementsOf(ids, c, amount)
      ensures GenuineAttestation(sys, a)
    {
      var i :| 0 <= i < |ids| && a == StatementIn(ids[i], c, amount);
    }
  }

  lemma BothFinal(p: Split, roster: Roster, cert: EpochCert) returns (f: Finals)
    requires Fits(p, roster, cert)
    ensures f.account == "alice" && f.seqNo == 0 && f.c == p.c && f.d == p.d && f.x != f.y
    ensures forall a :: a in f.xs || a in f.ys ==> GenuineAttestation(Finished(p, roster, cert), a)
    ensures EffectFinal("alice", 0, f.x, f.xs, p.c) && EffectFinal("alice", 0, f.y, f.ys, p.d)
  {
    var sys := Finished(p, roster, cert);
    Members(p, roster, cert);
    LeftFoundsLeft(p);
    RightFoundsRight(p);
    forall id | id in p.honest * (p.a + p.b)
      ensures id in Home(p, id).members && StatementIn(id, Home(p, id), Amount(p, id)) in sys[id].attested
    {
      EitherMember(p, roster, cert, id);
    }
    QuorumsOf(p);
    hide Finished, Assented, Home, Amount, Fits, EffectFinal, StatementIn, StatementsOf, GenuineAttestation;
    var left := Listing(p.a);
    var right := Listing(p.b);
    QuorumFinal(sys, p.a, left, p.c, 1);
    QuorumFinal(sys, p.b, right, p.d, 2);
    f := Finals("alice", 0, p.c, Pay(1, 0, 0), StatementsOf(left, p.c, 1), p.d, Pay(2, 0, 0),
                StatementsOf(right, p.d, 2));
  }

  lemma {:induction false} RanKeepsOrigin(sys: System, who: set<AuthorityId>, script: AuthorityId -> seq<Event>)
    ensures forall id :: id in sys ==> Ran(sys, who, script)[id].origin == sys[id].origin
  {
    forall id | id in sys
      ensures Ran(sys, who, script)[id].origin == sys[id].origin
    {
      AfterKeepsOrigin(sys[id], script(id));
    }
  }

  lemma AllFoundedFirst(p: Split, roster: Roster, cert: EpochCert)
    ensures forall id :: id in Finished(p, roster, cert) ==>
              Finished(p, roster, cert)[id].origin.committeeId == p.c.Id()
  {
    RanKeepsOrigin(Begun(p), p.honest * p.a, _ => [Asks(1, 0), FencesFor(roster)]);
    RanKeepsOrigin(Fenced(p, roster), p.honest * p.a, _ => [Assents()]);
    RanKeepsOrigin(Assented(p, roster), p.honest * p.b, _ => [OnInstall(cert, p.c, Durable), Asks(2, 0)]);
    RanKeepsOrigin(Succeeded(p, roster, cert), p.honest * (p.a + p.b), id => Settle(Home(p, id), Amount(p, id)));
    Members(p, roster, cert);
    assert forall id :: id in p.honest ==> Begun(p)[id].origin.committeeId == p.c.Id();
    hide After, Settle;
  }

  /** Rosters that share too few honest members fork also when the second is elected by the first. */
  lemma SuccessionForks(m1: map<AuthorityId, Key>, roster: Roster, m2: map<AuthorityId, Key>, honest: set<AuthorityId>)
    returns (sys: System, f: Finals, cert: EpochCert)
    requires m1 != map[] && m2 != map[] && BuildRoster(roster) == Some(m2)
    requires |m1.Keys - honest| <= Quorums.MaxFaulty(|m1|) && |m2.Keys - honest| <= Quorums.MaxFaulty(|m2|)
    requires |m1.Keys * m2.Keys * honest| <= Quorums.MaxFaulty(|m1|) + Quorums.MaxFaulty(|m2|)
    ensures Setting(m1, m2, honest, sys, f) && Elected(sys, f, cert) && cert.nextRoster == roster && f.x != f.y
  {
    hide Realizable, Assented, Succeeded, Finished, EpochCertified, EffectFinal, GenuineAttestation, Extends,
            BuildRoster, IssuedEpochVote, Divided;
    var p := Divide(m1, m2, honest);
    QuorumsOf(p);
    assert Heir(p, roster);
    cert := Election(p, roster);
    sys := Finished(p, roster, cert);
    f := BothFinal(p, roster, cert);
    FinishedRealizable(p, roster, cert);
    AllFoundedFirst(p, roster, cert);
    Members(p, roster, cert);
    StillIssued(p, roster, cert);
  }

  lemma StillIssued(p: Split, roster: Roster, cert: EpochCert)
    requires Fits(p, roster, cert)
    ensures forall v :: v in cert.votes ==> IssuedEpochVote(Finished(p, roster, cert), v)
  {
    SucceededRealizable(p, roster, cert);
    FinishedRealizable(p, roster, cert);
    hide Realizable, Assented, Succeeded, Finished, Extends, IssuedEpochVote, EpochCertified, Heir;
    forall v | v in cert.votes
      ensures IssuedEpochVote(Finished(p, roster, cert), v)
    {
      AssentsStayIssued(Assented(p, roster), Succeeded(p, roster, cert), v);
      AssentsStayIssued(Succeeded(p, roster, cert), Finished(p, roster, cert), v);
    }
  }

  /** Where the first committee elects the second, their finality agrees in every run if and only if they share more
      honest members than both Byzantine budgets together. */
  lemma SuccessionExactly(m1: map<AuthorityId, Key>, roster: Roster, m2: map<AuthorityId, Key>,
                          honest: set<AuthorityId>)
    requires m1 != map[] && m2 != map[] && BuildRoster(roster) == Some(m2)
    requires |m1.Keys - honest| <= Quorums.MaxFaulty(|m1|) && |m2.Keys - honest| <= Quorums.MaxFaulty(|m2|)
    ensures SuccessionAgrees(m1, roster, m2, honest)
            <==> |m1.Keys * m2.Keys * honest| > Quorums.MaxFaulty(|m1|) + Quorums.MaxFaulty(|m2|)
  {
    hide Setting, Elected;
    if |m1.Keys * m2.Keys * honest| > Quorums.MaxFaulty(|m1|) + Quorums.MaxFaulty(|m2|) {
      FinalityExactly(m1, m2, honest);
      assert FinalityAgrees(m1, m2, honest);
    } else {
      var sys, f, cert := SuccessionForks(m1, roster, m2, honest);
      assert !SuccessionAgrees(m1, roster, m2, honest);
    }
  }
}
