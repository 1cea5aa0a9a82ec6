/** Runs in which nothing rests on a forged signature, and how to build them: what a witness of failure has to
    show, where a safety theorem may leave the evidence arbitrary. */
module Realizations {
  import opened Orders
  import opened Authorities
  import opened AuthorityRuns
  import opened Committees

  /** An honest member's name on a vote means that exactly this vote was let out. */
  ghost predicate IssuedVote(sys: System, v: Vote) {
    v.authority in sys ==> exists i :: 0 <= i < |sys[v.authority].votes| && sys[v.authority].votes[i].vote == v
  }

  /** An honest member's name on an epoch vote means that it was signed, behind a fence and over that member's
      own frontier. */
  ghost predicate IssuedEpochVote(sys: System, v: EpochVote) {
    v.authority in sys ==> v in sys[v.authority].epochVotes
  }

  /** A valid certificate of issued votes for the order. */
  ghost predicate Backs(sys: System, cert: Certificate, c: Committee, o: Order) {
    CertifiedBy(cert, c) && cert.order == o && forall v :: v in cert.votes ==> IssuedVote(sys, v)
  }

  /** A confirmation rests on a certificate of issued votes, an install on issued epoch votes. */
  ghost predicate Grounded(sys: System, e: Event) {
    match e
    case OnConfirm(v, c, _, _) => v.committeeId == c.Id() && exists cert :: Backs(sys, cert, c, v.order)
    case OnInstall(cert, _, _) => forall v :: v in cert.votes ==> IssuedEpochVote(sys, v)
    case _ => true
  }

  ghost predicate AllGrounded(states: seq<System>, moves: seq<Move>)
    requires |states| == |moves| + 1
  {
    forall i :: 0 <= i < |moves| ==> Grounded(states[i], moves[i].event)
  }

  ghost predicate Realizable(sys: System) {
    exists states: seq<System>, moves: seq<Move> :: SystemRun(states, moves) && AllGrounded(states, moves)
            && states[|moves|] == sys
  }

  lemma RealizableIsReachable(sys: System)
    requires Realizable(sys)
    ensures Reachable(sys)
  {
    var states, moves :| SystemRun(states, moves) && AllGrounded(states, moves) && states[|moves|] == sys;
    assert SystemRun(states, moves) && states[|moves|] == sys;
  }

  lemma RealizeInitial(sys: System)
    requires SystemInitial(sys)
    ensures Realizable(sys)
  {
    var states, moves: seq<Move> := [sys], [];
    assert SystemRun(states, moves) && AllGrounded(states, moves) && states[|moves|] == sys;
  }

  lemma RealizeStep(sys: System, id: AuthorityId, e: Event)
    requires Realizable(sys) && id in sys && Enabled(sys[id], e) && Grounded(sys, e)
    ensures Realizable(sys[id := Next(sys[id], e)])
  {
    hide Next, Grounded;
    var states, moves :| SystemRun(states, moves) && AllGrounded(states, moves) && states[|moves|] == sys;
    var sys' := sys[id := Next(sys[id], e)];
    var states', moves' := states + [sys'], moves + [Move(id, e)];
    forall i | 0 <= i < |moves'|
      ensures SystemLinked(states', moves', i) && Grounded(states'[i], moves'[i].event)
    {
      if i < |moves| {
        assert SystemLinked(states, moves, i) && Grounded(states[i], moves[i].event);
      }
    }
    assert SystemRun(states', moves') && AllGrounded(states', moves') && states'[|moves'|] == sys';
  }

  /** No honest member has crashed. */
  ghost predicate NoCrash(sys: System) {
    forall id :: id in sys ==> !sys[id].crashed
  }

  lemma StepNoCrash(sys: System, id: AuthorityId, e: Event)
    requires NoCrash(sys) && id in sys && !e.OnCrash?
    ensures NoCrash(sys[id := Next(sys[id], e)])
  {
  }

  // ---- Running scripts ----

  /** The node after a sequence of events. */
  function After(n: Node, events: seq<Event>): (r: Node) {
    if events == [] then n else Next(After(n, events[..|events| - 1]), events[|events| - 1])
  }

  /** Same members, and whatever votes had been let out still are. */
  ghost predicate Extends(a: System, b: System) {
    && a.Keys == b.Keys
    && forall id :: id in a ==>
         && a[id].epochVotes <= b[id].epochVotes
         && |a[id].votes| <= |b[id].votes|
         && forall i :: 0 <= i < |a[id].votes| ==> b[id].votes[i] == a[id].votes[i]
  }

  lemma NextExtends(sys: System, id: AuthorityId, e: Event)
    requires id in sys
    ensures Extends(sys, sys[id := Next(sys[id], e)])
  {
  }

  lemma ExtendsChains(a: System, b: System, c: System)
    requires Extends(a, b) && Extends(b, c)
    ensures Extends(a, c)
  {
    forall id | id in a
      ensures a[id].epochVotes <= c[id].epochVotes && |a[id].votes| <= |c[id].votes|
      ensures forall i :: 0 <= i < |a[id].votes| ==> c[id].votes[i] == a[id].votes[i]
    {
      assert forall i :: 0 <= i < |a[id].votes| ==> b[id].votes[i] == a[id].votes[i];
    }
  }

  lemma IssuedStays(a: System, b: System, v: Vote)
    requires Extends(a, b) && IssuedVote(a, v)
    ensures IssuedVote(b, v)
  {
    if v.authority in a {
      var i :| 0 <= i < |a[v.authority].votes| && a[v.authority].votes[i].vote == v;
      assert b[v.authority].votes[i].vote == v;
    }
  }

  lemma GroundedStays(a: System, b: System, e: Event)
    requires Extends(a, b) && Grounded(a, e)
    ensures Grounded(b, e)
  {
    hide CertifiedBy;
    match e
    case OnConfirm(v, c, _, _) =>
      var cert :| Backs(a, cert, c, v.order);
      forall w | w in cert.votes
        ensures IssuedVote(b, w)
      {
        IssuedStays(a, b, w);
      }
      assert Backs(b, cert, c, v.order);
    case _ =>
  }

  /** Events that are possible in every state and rest on evidence that `sys` already holds. */
  ghost predicate Performable(sys: System, events: seq<Event>) {
    forall e :: e in events ==> !e.OnCompact? && !e.OnEpochVote? && Grounded(sys, e)
  }

  /** One member may run such a script. */
  lemma {:induction false} MemberRuns(sys: System, id: AuthorityId, events: seq<Event>)
    requires Realizable(sys) && id in sys && Performable(sys, events)
    ensures Realizable(sys[id := After(sys[id], events)]) && Extends(sys, sys[id := After(sys[id], events)])
    decreases |events|
  {
    hide Next, Realizable, Grounded;
    if events == [] {
      assert sys[id := sys[id]] == sys;
    } else {
      var init, last := events[..|events| - 1], events[|events| - 1];
      MemberRuns(sys, id, init);
      var mid := sys[id := After(sys[id], init)];
      GroundedStays(sys, mid, last);
      RealizeStep(mid, id, last);
      NextExtends(mid, id, last);
      ExtendsChains(sys, mid, mid[id := Next(mid[id], last)]);
      assert mid[id := Next(mid[id], last)] == sys[id := After(sys[id], events)];
    }
  }

  /** The system in which each member of `who` has run its script. */
  function Ran(sys: System, who: set<AuthorityId>, script: AuthorityId -> seq<Event>): (r: System) {
    map id | id in sys :: if id in who then After(sys[id], script(id)) else sys[id]
  }

  /** All members may run such scripts side by side. */
  lemma {:induction false} AllRun(sys: System, who: set<AuthorityId>, script: AuthorityId -> seq<Event>)
    requires Realizable(sys) && who <= sys.Keys && forall id :: id in who ==> Performable(sys, script(id))
    ensures Realizable(Ran(sys, who, script)) && Extends(sys, Ran(sys, who, script))
    decreases who
  {
    hide Next, Realizable, Grounded, After;
    if who == {} {
      assert Ran(sys, who, script) == sys;
    } else {
      var id :| id in who;
      var rest := who - {id};
      AllRun(sys, rest, script);
      var mid := Ran(sys, rest, script);
      forall e | e in script(id)
        ensures !e.OnCompact? && !e.OnEpochVote? && Grounded(mid, e)
      {
        GroundedStays(sys, mid, e);
      }
      MemberRuns(mid, id, script(id));
      assert mid[id := After(mid[id], script(id))] == Ran(sys, who, script);
      ExtendsChains(sys, mid, Ran(sys, who, script));
    }
  }

  /** All members may take one such step, possible in their present states. */
  lemma {:induction false} AllStep(sys: System, who: set<AuthorityId>, e: Event)
    requires Realizable(sys) && who <= sys.Keys && Grounded(sys, e) && forall id :: id in who ==> Enabled(sys[id], e)
    ensures Realizable(Ran(sys, who, _ => [e])) && Extends(sys, Ran(sys, who, _ => [e]))
    decreases who
  {
    hide Next, Realizable, Grounded, Enabled;
    if who == {} {
      assert Ran(sys, who, _ => [e]) == sys;
    } else {
      var id :| id in who;
      var rest := who - {id};
      AllStep(sys, rest, e);
      var mid := Ran(sys, rest, _ => [e]);
      GroundedStays(sys, mid, e);
      RealizeStep(mid, id, e);
      NextExtends(mid, id, e);
      AfterOne(sys[id], e);
      assert mid[id := Next(mid[id], e)] == Ran(sys, who, _ => [e]);
      ExtendsChains(sys, mid, Ran(sys, who, _ => [e]));
    }
  }

  lemma AfterOne(n: Node, e: Event)
    ensures After(n, [e]) == Next(n, e)
  {
    assert [e][..0] == [] && After(n, []) == n;
  }

  lemma {:induction false} AfterKeepsOrigin(n: Node, events: seq<Event>)
    ensures After(n, events).origin == n.origin
  {
    if events != [] {
      AfterKeepsOrigin(n, events[..|events| - 1]);
    }
  }
}
