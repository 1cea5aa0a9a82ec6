/** How far effect finality reaches across committees: exactly as far as they share enough honest members. */
module FinalityLimits {
  import opened Basics
  import opened Ledgers
  import opened Orders
  import opened Authorities
  import opened AuthorityRuns
  import opened Committees
  import opened Realizations
  import opened TwoMembers

  /** Two committees of these rosters, within their budgets next to exactly these honest members, and effect
      quorums for two orders of one (account, sequence), in a run without forged evidence. */
  ghost predicate Setting(m1: map<AuthorityId, Key>, m2: map<AuthorityId, Key>, honest: set<AuthorityId>,
                          sys: System, f: Finals)
  {
    && Realizable(sys) && sys.Keys == honest
    && f.c.members == m1 && f.d.members == m2 && WithinBudget(sys, f.c) && WithinBudget(sys, f.d)
    && (forall a :: a in f.xs || a in f.ys ==> GenuineAttestation(sys, a))
    && EffectFinal(f.account, f.seqNo, f.x, f.xs, f.c) && EffectFinal(f.account, f.seqNo, f.y, f.ys, f.d)
  }

  /** The two effect quorums: committee, order and attestations of each. */
  datatype Finals = Finals(account: AccountId, seqNo: U64, c: Committee, x: Order, xs: seq<Attestation>,
                           d: Committee, y: Order, ys: seq<Attestation>)

  ghost predicate FinalityAgrees(m1: map<AuthorityId, Key>, m2: map<AuthorityId, Key>, honest: set<AuthorityId>) {
    forall sys, f :: Setting(m1, m2, honest, sys, f) ==> f.x == f.y
  }

  // ---- One founding member ----

  function Founder(id: AuthorityId, key: Key, c: Committee): (n: Node) {
    var o := Origin(id, key, Rules(), c.Id(), Genesis());
    Node(o, Fresh(o), [], {}, {}, 0, [], false, false)
  }

  function VoteIn(id: AuthorityId, c: Committee, amount: U128): (v: Vote)
    requires id in c.members
  {
    var t := Transfer("alice", 0, "bob", amount);
    Vote(id, c.Id(), Rules(), "net", t, 0, Sign(c.members[id], AuthorityVote(id, c.Id(), Rules(), "net", t, 0)))
  }

  function StatementIn(id: AuthorityId, c: Committee, amount: U128): (a: Attestation)
    requires id in c.members
  {
    var o := Pay(amount, 0, 0);
    Attestation(id, c.Id(), "alice", 0, o, Sign(c.members[id], Effect(c.Id(), "alice", 0, o)))
  }

  function Settle(c: Committee, amount: U128): (events: seq<Event>) {
    [OnConfirm(Verified(Pay(amount, 0, 0), c.Id()), c, true, Durable), OnAttest("alice", 0)]
  }

  lemma FounderInitial(id: AuthorityId, key: Key, c: Committee)
    ensures Initial(Founder(id, key, c))
  {
    SupplySplit(Genesis(), "alice");
    assert Genesis() - {"alice"} == map[];
  }

  /** It votes for a payment, and settles it once certified. */
  lemma FounderSettles(id: AuthorityId, c: Committee, amount: U128)
    requires id in c.members && c.policy == Rules() && 0 < amount <= 100
    ensures var n1 := Next(Founder(id, c.members[id], c), Asks(amount, 0));
            && |n1.votes| == 1 && n1.votes[0].vote == VoteIn(id, c, amount)
            && StatementIn(id, c, amount) in After(n1, Settle(c, amount)).attested
  {
    var n0 := Founder(id, c.members[id], c);
    var n1 := Next(n0, Asks(amount, 0));
    var o := Pay(amount, 0, 0);
    assert VerifyOrder(Rules(), o).None? && Preflight(n0.auth.ledger, o.transfer).None?;
    assert n1.auth.ledger == Genesis() && n1.auth.confirmed == map[] && !n1.auth.poisoned
            && n1.auth.committeeId == c.Id();
    SettlesFrom(n1, id, c, amount);
  }

  lemma SettlesFrom(n: Node, id: AuthorityId, c: Committee, amount: U128)
    requires id in c.members && c.policy == Rules() && 0 < amount <= 100
    requires n.auth.id == id && n.auth.key == c.members[id] && n.auth.policy == Rules() && n.auth.committeeId == c.Id()
    requires n.auth.ledger == Genesis() && n.auth.confirmed == map[] && !n.auth.poisoned
    requires !n.auth.epochState.Installing?
    ensures StatementIn(id, c, amount) in After(n, Settle(c, amount)).attested
  {
    var o, events := Pay(amount, 0, 0), Settle(c, amount);
    assert VerifyOrder(Rules(), o).None? && Preflight(n.auth.ledger, o.transfer).None?;
    assert ConfirmGuard(n.auth, Verified(o, c.Id()), c, true).None?;
    var n1 := Next(n, events[0]);
    assert ("alice", 0) in n1.auth.confirmed && n1.auth.confirmed[("alice", 0)] == o && n1.auth.committeeId == c.Id();
    assert events[..1][..0] == [] && After(n, []) == n;
    assert events[..1][0] == events[0] && After(n, events[..1]) == n1;
  }

  // ---- A quorum's certificate and attestations ----

  /** The members of a set, in some order. */
  lemma {:induction false} Listing(s: set<AuthorityId>) returns (ids: seq<AuthorityId>)
    ensures (forall id :: id in ids <==> id in s) && forall i, j :: 0 <= i < j < |ids| ==> ids[i] != ids[j]
  {
    if s == {} {
      return [];
    }
    var id :| id in s;
    ids := Listing(s - {id});
    ids := ids + [id];
  }

  function CertOf(ids: seq<AuthorityId>, c: Committee, amount: U128): (cert: Certificate)
    requires forall id :: id in ids ==> id in c.members
  {
    Certificate(Pay(amount, 0, 0), seq(|ids|, i requires 0 <= i < |ids| => VoteIn(ids[i], c, amount)))
  }

  function StatementsOf(ids: seq<AuthorityId>, c: Committee, amount: U128): (all: seq<Attestation>)
    requires forall id :: id in ids ==> id in c.members
  {
    seq(|ids|, i requires 0 <= i < |ids| => StatementIn(ids[i], c, amount))
  }

  lemma QuorumCertifies(s: set<AuthorityId>, ids: seq<AuthorityId>, c: Committee, amount: U128)
    requires s <= c.members.Keys && |s| >= c.QuorumSize() && c.policy == Rules() && c.members != map[]
    requires (forall id :: id in ids <==> id in s) && forall i, j :: 0 <= i < j < |ids| ==> ids[i] != ids[j]
    ensures CertifiedBy(CertOf(ids, c, amount), c)
  {
    var cert := CertOf(ids, c, amount);
    assert VerifyOrder(Rules(), cert.order).None?;
    forall k | 0 <= k < |cert.votes|
      ensures ValidateVote(cert.votes[k], cert.order, c).None? && cert.votes[k].authority == ids[k]
    {
    }
    forall id | id in s
      ensures id in Voters(cert.votes)
    {
      var i :| 0 <= i < |ids| && ids[i] == id;
      assert cert.votes[i].authority == id;
    }
    assert Voters(cert.votes) == s;
  }

  lemma QuorumAttests(s: set<AuthorityId>, ids: seq<AuthorityId>, c: Committee, amount: U128)
    requires s <= c.members.Keys && |s| >= c.QuorumSize()
    requires forall id :: id in ids <==> id in s
    ensures EffectFinal("alice", 0, Pay(amount, 0, 0), StatementsOf(ids, c, amount), c)
  {
    var o, all := Pay(amount, 0, 0), StatementsOf(ids, c, amount);
    forall id | id in s
      ensures id in Attestors("alice", 0, o, all, c)
    {
      var i :| 0 <= i < |ids| && ids[i] == id;
      assert all[i].authority == id && Attests(all[i], "alice", 0, o, c);
    }
    SubsetSize(s, Attestors("alice", 0, o, all, c));
  }

  // ---- The forking run ----

  /** Who founds what: `a` belongs to the first committee, everybody else to the second. */
  datatype Split = Split(c: Committee, d: Committee, a: set<AuthorityId>, b: set<AuthorityId>, honest: set<AuthorityId>)

  ghost predicate Divided(p: Split) {
    && p.c.policy == Rules() && p.d.policy == Rules() && p.c.members != map[] && p.d.members != map[]
    && p.a <= p.c.members.Keys && |p.a| >= p.c.QuorumSize()
    && p.b <= p.d.members.Keys && |p.b| >= p.d.QuorumSize()
    && p.a * p.b * p.honest == {}
  }

  function Home(p: Split, id: AuthorityId): (c: Committee) {
    if id in p.a then p.c else p.d
  }

  function Amount(p: Split, id: AuthorityId): (amount: U128) {
    if id in p.a then 1 else 2
  }

  function KeyIn(p: Split, id: AuthorityId): (key: Key) {
    var c := Home(p, id);
    if id in c.members then c.members[id] else 0
  }

  function Founded(p: Split): (sys: System) {
    map id | id in p.honest :: Founder(id, KeyIn(p, id), Home(p, id))
  }

  function Voted(p: Split): (sys: System) {
    Ran(Founded(p), p.honest, id => [Asks(Amount(p, id), 0)])
  }

  /** Honest members of the two quorums settle; the rest do nothing more. */
  function Settled(p: Split): (sys: System) {
    Ran(Voted(p), p.honest * (p.a + p.b), id => Settle(Home(p, id), Amount(p, id)))
  }

  lemma FoundedRealizable(p: Split)
    ensures Realizable(Founded(p))
  {
    forall id | id in p.honest
      ensures Initial(Founded(p)[id]) && Founded(p)[id].origin.id == id
    {
      FounderInitial(id, KeyIn(p, id), Home(p, id));
    }
    hide Initial, Founder;
    RealizeInitial(Founded(p));
  }

  lemma VotedRealizable(p: Split)
    ensures Realizable(Voted(p))
  {
    FoundedRealizable(p);
    hide Realizable, Founder, Next, After, Pay;
    AllRun(Founded(p), p.honest, id => [Asks(Amount(p, id), 0)]);
  }

  /** What an honest member of either quorum has let out. */
  lemma HonestMember(p: Split, id: AuthorityId)
    requires Divided(p) && id in p.honest * (p.a + p.b)
    ensures id in Home(p, id).members && KeyIn(p, id) == Home(p, id).members[id]
    ensures IssuedVote(Voted(p), VoteIn(id, Home(p, id), Amount(p, id)))
    ensures StatementIn(id, Home(p, id), Amount(p, id)) in Settled(p)[id].attested
  {
    var c, amount := Home(p, id), Amount(p, id);
    FounderSettles(id, c, amount);
    hide Next, Founder, Settle;
    var n0 := Founder(id, KeyIn(p, id), c);
    var events := [Asks(amount, 0)];
    assert events[..0] == [] && After(n0, []) == n0;
    assert After(n0, events) == Next(n0, Asks(amount, 0));
    assert Voted(p)[id] == Next(n0, Asks(amount, 0));
    assert Voted(p)[id].votes[0].vote == VoteIn(id, c, amount);
  }

  lemma VotesIssued(p: Split, ids: seq<AuthorityId>, c: Committee, amount: U128)
    requires Divided(p) && (forall id :: id in ids ==> id in c.members)
    requires forall id :: id in ids && id in p.honest ==> id in p.a + p.b && Home(p, id) == c && Amount(p, id) == amount
    ensures forall v :: v in CertOf(ids, c, amount).votes ==> IssuedVote(Voted(p), v)
  {
    hide Voted, Divided, Home, Amount;
    forall v | v in CertOf(ids, c, amount).votes
      ensures IssuedVote(Voted(p), v)
    {
      var i :| 0 <= i < |ids| && v == VoteIn(ids[i], c, amount);
      if ids[i] in p.honest {
        HonestMember(p, ids[i]);
      } else {
        assert Voted(p).Keys == p.honest by {
          VotedKeys(p);
        }
      }
    }
  }

  lemma VotedKeys(p: Split)
    ensures Voted(p).Keys == p.honest && Settled(p).Keys == p.honest
  {
  }

  lemma RightFoundsRight(p: Split)
    requires Divided(p)
    ensures forall id :: id in p.b && id in p.honest ==> Home(p, id) == p.d && Amount(p, id) == 2
  {
    forall id | id in p.b && id in p.honest
      ensures id !in p.a
    {
      assert id in p.a ==> id in p.a * p.b * p.honest;
    }
  }

  /** The certificates behind the confirmations. */
  lemma Certificates(p: Split) returns (left: seq<AuthorityId>, right: seq<AuthorityId>)
    requires Divided(p)
    ensures (forall id :: id in left <==> id in p.a) && (forall id :: id in right <==> id in p.b)
    ensures Backs(Voted(p), CertOf(left, p.c, 1), p.c, Pay(1, 0, 0))
    ensures Backs(Voted(p), CertOf(right, p.d, 2), p.d, Pay(2, 0, 0))
  {
    left := Listing(p.a);
    right := Listing(p.b);
    hide Voted;
    RightFoundsRight(p);
    VotesIssued(p, left, p.c, 1);
    VotesIssued(p, right, p.d, 2);
    QuorumCertifies(p.a, left, p.c, 1);
    QuorumCertifies(p.b, right, p.d, 2);
  }

  lemma SettlePerformable(p: Split, id: AuthorityId)
    requires Divided(p) && id in p.a + p.b
    ensures Performable(Voted(p), Settle(Home(p, id), Amount(p, id)))
  {
    var left, right := Certificates(p);
    hide Voted, CertOf, Backs, Divided, CertifiedBy, Pay, Settle, Grounded;
    forall e | e in Settle(Home(p, id), Amount(p, id))
      ensures !e.OnCompact? && !e.OnEpochVote? && Grounded(Voted(p), e)
    {
      var cert := if id in p.a then CertOf(left, p.c, 1) else CertOf(right, p.d, 2);
      SettleGrounded(Voted(p), cert, Home(p, id), Amount(p, id), e);
    }
  }

  lemma SettledRealizable(p: Split)
    requires Divided(p)
    ensures Realizable(Settled(p))
  {
    VotedRealizable(p);
    VotedKeys(p);
    hide Realizable, Voted, Divided, Settle, Performable, Home, Amount, Extends;
    var who := p.honest * (p.a + p.b);
    forall id | id in who
      ensures Performable(Voted(p), Settle(Home(p, id), Amount(p, id)))
    {
      SettlePerformable(p, id);
    }
    AllRun(Voted(p), who, id => Settle(Home(p, id), Amount(p, id)));
  }

  lemma SettleGrounded(sys: System, cert: Certificate, c: Committee, amount: U128, e: Event)
    requires Backs(sys, cert, c, Pay(amount, 0, 0)) && e in Settle(c, amount)
    ensures !e.OnCompact? && !e.OnEpochVote? && Grounded(sys, e)
  {
    hide Backs, Pay;
  }

  lemma StatementsGenuine(p: Split, ids: seq<AuthorityId>, c: Committee, amount: U128)
    requires Divided(p) && (forall id :: id in ids ==> id in c.members)
    requires forall id :: id in ids && id in p.honest ==> id in p.a + p.b && Home(p, id) == c && Amount(p, id) == amount
    ensures forall a :: a in StatementsOf(ids, c, amount) ==> GenuineAttestation(Settled(p), a)
  {
    hide Settled, Divided, Home, Amount, Voted;
    VotedKeys(p);
    forall a | a in StatementsOf(ids, c, amount)
      ensures GenuineAttestation(Settled(p), a)
    {
      var i :| 0 <= i < |ids| && a == StatementIn(ids[i], c, amount);
      if ids[i] in p.honest {
        HonestMember(p, ids[i]);
      }
    }
  }

  /** Divide the honest members that two such rosters share between two quorums. */
  lemma Divide(m1: map<AuthorityId, Key>, m2: map<AuthorityId, Key>, honest: set<AuthorityId>) returns (p: Split)
    requires m1 != map[] && m2 != map[]
    requires |m1.Keys * m2.Keys * honest| <= Quorums.MaxFaulty(|m1|) + Quorums.MaxFaulty(|m2|)
    ensures Divided(p) && p.honest == honest && p.c.members == m1 && p.d.members == m2 && p.d.epoch == 1
  {
    var faulty := (m1.Keys + m2.Keys) - honest;
    assert m1.Keys * m2.Keys - faulty == m1.Keys * m2.Keys * honest;
    assert |m1| == |m1.Keys| && |m2| == |m2.Keys|;
    var a, b := Quorums.Apart(m1.Keys, m2.Keys, faulty);
    p := Split(Committee(m1, Rules(), 0), Committee(m2, Rules(), 1), a, b, honest);
    assert a * b * honest == {};
  }

  lemma DividedMeans(p: Split)
    requires Divided(p)
    ensures p.a <= p.c.members.Keys && |p.a| >= p.c.QuorumSize()
    ensures p.b <= p.d.members.Keys && |p.b| >= p.d.QuorumSize()
  {
  }

  /** Rosters that share too few honest members can make two payments of one (account, sequence) final, with a
      genuine certificate behind every confirmation. */
  lemma FinalityForks(m1: map<AuthorityId, Key>, m2: map<AuthorityId, Key>, honest: set<AuthorityId>)
    returns (sys: System, f: Finals)
    requires m1 != map[] && m2 != map[]
    requires |m1.Keys - honest| <= Quorums.MaxFaulty(|m1|) && |m2.Keys - honest| <= Quorums.MaxFaulty(|m2|)
    requires |m1.Keys * m2.Keys * honest| <= Quorums.MaxFaulty(|m1|) + Quorums.MaxFaulty(|m2|)
    ensures Setting(m1, m2, honest, sys, f) && f.x != f.y
  {
    hide Settled, Voted, Divided, GenuineAttestation, EffectFinal, Realizable, Home, Amount, Backs, StatementsOf;
    var p := Divide(m1, m2, honest);
    DividedMeans(p);
    sys := Forked(p);
    var left, right := Certificates(p);
    f := Finals("alice", 0, p.c, Pay(1, 0, 0), StatementsOf(left, p.c, 1), p.d, Pay(2, 0, 0),
                StatementsOf(right, p.d, 2));
    LeftFoundsLeft(p);
    RightFoundsRight(p);
    StatementsGenuine(p, left, p.c, 1);
    StatementsGenuine(p, right, p.d, 2);
    QuorumAttests(p.a, left, p.c, 1);
    QuorumAttests(p.b, right, p.d, 2);
  }

  lemma LeftFoundsLeft(p: Split)
    ensures forall id :: id in p.a ==> Home(p, id) == p.c && Amount(p, id) == 1
  {
  }

  lemma Forked(p: Split) returns (sys: System)
    requires Divided(p)
    ensures sys == Settled(p) && Realizable(sys) && sys.Keys == p.honest
  {
    sys := Settled(p);
    SettledRealizable(p);
    VotedKeys(p);
  }

  /** Finality of two committees agrees in every run if and only if they share more honest members than both
      Byzantine budgets together. */
  lemma FinalityExactly(m1: map<AuthorityId, Key>, m2: map<AuthorityId, Key>, honest: set<AuthorityId>)
    requires m1 != map[] && m2 != map[]
    requires |m1.Keys - honest| <= Quorums.MaxFaulty(|m1|) && |m2.Keys - honest| <= Quorums.MaxFaulty(|m2|)
    ensures FinalityAgrees(m1, m2, honest)
            <==> |m1.Keys * m2.Keys * honest| > Quorums.MaxFaulty(|m1|) + Quorums.MaxFaulty(|m2|)
  {
    if |m1.Keys * m2.Keys * honest| > Quorums.MaxFaulty(|m1|) + Quorums.MaxFaulty(|m2|) {
      forall sys, f | Setting(m1, m2, honest, sys, f)
        ensures f.x == f.y
      {
        RealizableIsReachable(sys);
        FinalityAcrossCommittees(sys, f.c, f.d, f.account, f.seqNo, f.x, f.y, f.xs, f.ys);
      }
    } else {
      var sys, f := FinalityForks(m1, m2, honest);
      assert !FinalityAgrees(m1, m2, honest);
    }
  }
}
