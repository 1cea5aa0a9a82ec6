/** With no new originations the epidemic traffic dies out: a weighted count of unseen pairs, pending
    announcements and in-flight events strictly falls with every step. */
module EpidemicTermination {
  import opened Basics
  import opened Plumtree
  import opened Epidemic

  // ---- Sums ----

  ghost function Sum(m: map<NodeId, nat>): (r: nat)
    decreases |m|
  {
    if m == map[] then 0
    else
      var k :| k in m;
      assert |m - {k}| < |m| by { assert m.Keys == (m - {k}).Keys + {k}; }
      m[k] + Sum(m - {k})
  }

  lemma {:induction false} SumSplit(m: map<NodeId, nat>, k: NodeId)
    requires k in m
    ensures Sum(m) == m[k] + Sum(m - {k})
    decreases |m|
  {
    assert m != map[];
    var first :| first in m && Sum(m) == m[first] + Sum(m - {first});
    if first != k {
      assert k in m - {first} && first in m - {k};
      assert |m - {first}| < |m| by { assert m.Keys == (m - {first}).Keys + {first}; }
      assert |m - {k}| < |m| by { assert m.Keys == (m - {k}).Keys + {k}; }
      SumSplit(m - {first}, k);
      SumSplit(m - {k}, first);
      assert m - {first} - {k} == m - {k} - {first};
    }
  }

  lemma SumUpdate(m: map<NodeId, nat>, k: NodeId, v: nat)
    requires k in m
    ensures Sum(m[k := v]) == Sum(m) - m[k] + v
  {
    SumSplit(m, k);
    SumSplit(m[k := v], k);
    assert m[k := v] - {k} == m - {k};
  }

  /** An event costs more than everything its delivery may put in flight or in a queue. */
  function EventCost(e: Event): (r: nat) {
    match e
    case Eager(_, _, _) => 2
    case IHave(_, _, _) => 5
    case Graft(_, _, _) => 3
    case Prune(_, _) => 1
  }

  ghost function FlightCost(m: multiset<Event>): (r: nat)
    decreases |m|
  {
    if m == multiset{} then 0
    else
      var e :| e in m;
      EventCost(e) + FlightCost(m - multiset{e})
  }

  lemma {:induction false} FlightSplit(m: multiset<Event>, e: Event)
    requires e in m
    ensures FlightCost(m) == EventCost(e) + FlightCost(m - multiset{e})
    decreases |m|
  {
    hide EventCost;
    var first :| first in m && FlightCost(m) == EventCost(first) + FlightCost(m - multiset{first});
    if first != e {
      var a, b := m - multiset{first}, m - multiset{e};
      assert e in a && first in b && |a| < |m| && |b| < |m|;
      FlightSplit(a, e);
      FlightSplit(b, first);
      assert a - multiset{e} == b - multiset{first};
    }
  }

  lemma {:induction false} FlightAdd(m: multiset<Event>, n: multiset<Event>)
    ensures FlightCost(m + n) == FlightCost(m) + FlightCost(n)
    decreases |n|
  {
    if n == multiset{} {
      assert m + n == m;
    } else {
      var e :| e in n;
      FlightSplit(n, e);
      FlightSplit(m + n, e);
      assert m + n - multiset{e} == m + (n - multiset{e});
      FlightAdd(m, n - multiset{e});
    }
  }

  lemma {:induction false} FlightBound(m: multiset<Event>)
    ensures FlightCost(m) <= 5 * |m|
    decreases |m|
  {
    if m != multiset{} {
      var e :| e in m;
      FlightSplit(m, e);
      FlightBound(m - multiset{e});
    }
  }

  lemma FlightOne(e: Event)
    ensures FlightCost(multiset{e}) == EventCost(e)
  {
    FlightSplit(multiset{e}, e);
    assert multiset{e} - multiset{e} == multiset{};
  }

  lemma FlightNone()
    ensures FlightCost(multiset{}) == 0
  {
  }

  lemma {:induction false} GraftsCost(me: NodeId, seen: set<MsgId>, pending: seq<(NodeId, MsgId)>)
    ensures FlightCost(Grafts(me, seen, pending)) <= 3 * |pending|
    decreases |pending|
  {
    if pending != [] {
      var (from, id) := pending[|pending| - 1];
      GraftsCost(me, seen, pending[..|pending| - 1]);
      if id !in seen {
        FlightAdd(Grafts(me, seen, pending[..|pending| - 1]), multiset{Graft(me, from, id)});
        FlightOne(Graft(me, from, id));
      } else {
        assert Grafts(me, seen, pending) == Grafts(me, seen, pending[..|pending| - 1]);
      }
    }
  }

  lemma {:induction false} PushCount(me: NodeId, targets: set<NodeId>, id: MsgId)
    ensures |set q | q in targets :: Eager(me, q, id)| == |targets|
    ensures |set q | q in targets :: IHave(me, q, id)| == |targets|
    decreases targets
  {
    if targets != {} {
      var t :| t in targets;
      PushCount(me, targets - {t}, id);
      assert (set q | q in targets :: Eager(me, q, id))
              == (set q | q in targets - {t} :: Eager(me, q, id)) + {Eager(me, t, id)};
      assert (set q | q in targets :: IHave(me, q, id))
              == (set q | q in targets - {t} :: IHave(me, q, id)) + {IHave(me, t, id)};
    }
  }

  /** A fan-out costs at most five per neighbour. */
  lemma FanOutCost(p: Peer, id: MsgId, skip: set<NodeId>, nbrs: set<NodeId>)
    requires p.eager + p.lazy == nbrs && p.eager !! p.lazy
    ensures FlightCost(multiset(FanOut(p, id, skip))) <= 5 * |nbrs|
  {
    PushCount(p.me, p.eager - skip, id);
    PushCount(p.me, p.lazy - skip, id);
    SubsetSize(p.eager - skip, p.eager);
    SubsetSize(p.lazy - skip, p.lazy);
    assert |p.eager + p.lazy| == |p.eager| + |p.lazy|;
    var out := FanOut(p, id, skip);
    assert |out| <= |nbrs|;
    FlightBound(multiset(out));
    assert |multiset(out)| == |out|;
  }

  // ---- The measure ----

  function Unseen(n: Net, ids: set<MsgId>): (r: map<NodeId, nat>) {
    map p | p in n.peers :: |ids - n.peers[p].tree.seen|
  }

  function Queued(n: Net): (r: map<NodeId, nat>) {
    map p | p in n.peers :: |n.peers[p].tree.pending|
  }

  /** Every message anybody has seen is one of `ids`. */
  ghost predicate Within(n: Net, ids: set<MsgId>) {
    forall p :: p in n.peers ==> n.peers[p].tree.seen <= ids
  }

  function Times(w: nat, u: nat): (r: nat) {
    if u == 0 then 0 else w + Times(w, u - 1)
  }

  lemma TimesStep(w: nat, u: nat)
    requires u > 0
    ensures Times(w, u) == w + Times(w, u - 1)
  {
  }

  /** Five units per peer for every unseen pair, four per queued announcement, plus the flight. */
  ghost function Cost(n: Net, ids: set<MsgId>): (r: nat) {
    Times(5 * |n.peers|, Sum(Unseen(n, ids))) + 4 * Sum(Queued(n)) + FlightCost(n.flight)
  }

  lemma UnseenAfter(n: Net, q: NodeId, ep: Endpoint, flight: multiset<Event>, ids: set<MsgId>)
    requires q in n.peers
    ensures Sum(Unseen(Net(n.peers[q := ep], flight), ids))
            == Sum(Unseen(n, ids)) - |ids - n.peers[q].tree.seen| + |ids - ep.tree.seen|
    ensures Sum(Unseen(n, ids)) >= |ids - n.peers[q].tree.seen|
  {
    assert Unseen(Net(n.peers[q := ep], flight), ids) == Unseen(n, ids)[q := |ids - ep.tree.seen|];
    SumUpdate(Unseen(n, ids), q, |ids - ep.tree.seen|);
    SumSplit(Unseen(n, ids), q);
  }

  lemma QueuedAfter(n: Net, q: NodeId, ep: Endpoint, flight: multiset<Event>)
    requires q in n.peers
    ensures Sum(Queued(Net(n.peers[q := ep], flight))) == Sum(Queued(n)) - |n.peers[q].tree.pending| + |ep.tree.pending|
  {
    assert Queued(Net(n.peers[q := ep], flight)) == Queued(n)[q := |ep.tree.pending|];
    SumUpdate(Queued(n), q, |ep.tree.pending|);
  }

  /** The measure after peer `q` becomes `ep`, `gone` leaves the flight and `out` joins it. */
  lemma CostAfter(n: Net, q: NodeId, ep: Endpoint, gone: multiset<Event>, out: multiset<Event>, ids: set<MsgId>)
    requires q in n.peers && gone <= n.flight
    ensures var n' := Net(n.peers[q := ep], n.flight - gone + out);
            && Sum(Unseen(n, ids)) >= |ids - n.peers[q].tree.seen|
            && Cost(n', ids) == Times(5 * |n.peers|,
                                      Sum(Unseen(n, ids)) - |ids - n.peers[q].tree.seen| + |ids - ep.tree.seen|)
                                + 4 * (Sum(Queued(n)) - |n.peers[q].tree.pending| + |ep.tree.pending|)
                                + FlightCost(n.flight) - FlightCost(gone) + FlightCost(out)
  {
    hide *;
    var flight := n.flight - gone + out;
    UnseenAfter(n, q, ep, flight, ids);
    QueuedAfter(n, q, ep, flight);
    FlightAfter(n.flight, gone, out);
    SameSize(n.peers, q, ep);
    CostOf(Net(n.peers[q := ep], flight), ids);
  }

  lemma FlightAfter(flight: multiset<Event>, gone: multiset<Event>, out: multiset<Event>)
    requires gone <= flight
    ensures FlightCost(flight - gone + out) == FlightCost(flight) - FlightCost(gone) + FlightCost(out)
  {
    hide FlightCost;
    FlightAdd(flight - gone, out);
    FlightAdd(flight - gone, gone);
    assert flight - gone + gone == flight;
  }

  lemma SameSize(peers: map<NodeId, Endpoint>, q: NodeId, ep: Endpoint)
    requires q in peers
    ensures |peers[q := ep]| == |peers|
  {
    assert peers[q := ep].Keys == peers.Keys;
    assert |peers[q := ep]| == |peers[q := ep].Keys| && |peers| == |peers.Keys|;
  }

  lemma NewFacts(n: Net, nbr: Overlay, e: Event, ids: set<MsgId>)
    requires Inv(n, nbr) && Enabled(n, Deliver(e)) && Within(n, ids) && e.Eager? && e.id !in n.peers[e.to].tree.seen
    ensures var (ep, out) := Accept(n.peers[e.to], e);
            && |ids - ep.tree.seen| == |ids - n.peers[e.to].tree.seen| - 1
            && ep.tree.pending == n.peers[e.to].tree.pending
            && FlightCost(out) <= 5 * |n.peers|
  {
    hide FanOut, FlightCost, Covered, PendingOk;
    var q := e.to;
    assert EventOk(n, nbr, e) && ViewOk(n.peers[q], q, nbr[q], nbr.Keys);
    var ep := Accept(n.peers[q], e).0;
    assert e.id in ids && ids - ep.tree.seen == (ids - n.peers[q].tree.seen) - {e.id};
    FanOutCost(n.peers[q].tree, e.id, {e.from}, nbr[q]);
    SubsetSize(nbr[q], nbr.Keys);
    assert |n.peers| == |n.peers.Keys|;
  }

  /** Receiving a message for the first time pays for its fan-out with one unseen pair. */
  lemma NewCosts(n: Net, nbr: Overlay, e: Event, ids: set<MsgId>)
    requires Inv(n, nbr) && Enabled(n, Deliver(e)) && Within(n, ids) && e.Eager? && e.id !in n.peers[e.to].tree.seen
    ensures Cost(Next(n, Deliver(e)), ids) < Cost(n, ids)
  {
    hide Accept, Cost, Sum, FlightCost, Times, Unseen, Queued, Inv, Within;
    var (ep, out) := Accept(n.peers[e.to], e);
    NewFacts(n, nbr, e, ids);
    CostAfter(n, e.to, ep, multiset{e}, out, ids);
    FlightOne(e);
    TimesStep(5 * |n.peers|, Sum(Unseen(n, ids)));
    CostOf(n, ids);
  }

  lemma CostOf(n: Net, ids: set<MsgId>)
    ensures Cost(n, ids) == Times(5 * |n.peers|, Sum(Unseen(n, ids))) + 4 * Sum(Queued(n)) + FlightCost(n.flight)
  {
  }

  lemma DuplicateCosts(n: Net, e: Event, ids: set<MsgId>)
    requires Enabled(n, Deliver(e)) && e.Eager? && e.id in n.peers[e.to].tree.seen
    ensures Cost(Next(n, Deliver(e)), ids) < Cost(n, ids)
  {
    hide FanOut, Cost, Sum, FlightCost, Times, Unseen, Queued;
    var (ep, out) := Accept(n.peers[e.to], e);
    CostAfter(n, e.to, ep, multiset{e}, out, ids);
    FlightOne(e);
    FlightOne(Prune(n.peers[e.to].tree.me, e.from));
    FlightNone();
    CostOf(n, ids);
  }

  lemma ControlCosts(n: Net, e: Event, ids: set<MsgId>)
    requires Enabled(n, Deliver(e)) && !e.Eager?
    ensures Cost(Next(n, Deliver(e)), ids) < Cost(n, ids)
  {
    hide FanOut, Cost, Sum, FlightCost, Times, Unseen, Queued;
    var (ep, out) := Accept(n.peers[e.to], e);
    CostAfter(n, e.to, ep, multiset{e}, out, ids);
    FlightOne(e);
    if e.Graft? {
      FlightOne(Eager(n.peers[e.to].tree.me, e.from, e.id));
    }
    FlightNone();
    CostOf(n, ids);
  }

  lemma TickCosts(n: Net, q: NodeId, ids: set<MsgId>)
    requires Enabled(n, TickAt(q))
    ensures Cost(Next(n, TickAt(q)), ids) < Cost(n, ids)
  {
    hide Cost, Sum, FlightCost, Times, Unseen, Queued, Grafts;
    var (tree, out) := Tick(n.peers[q].tree);
    CostAfter(n, q, n.peers[q].(tree := tree), multiset{}, out, ids);
    assert n.flight - multiset{} + out == n.flight + out;
    FlightNone();
    GraftsCost(n.peers[q].tree.me, n.peers[q].tree.seen, n.peers[q].tree.pending);
    CostOf(n, ids);
  }

  lemma StepStaysWithin(n: Net, nbr: Overlay, l: Label, ids: set<MsgId>)
    requires Inv(n, nbr) && Enabled(n, l) && !l.Originate? && Within(n, ids)
    ensures Within(Next(n, l), ids)
  {
    if l.Deliver? {
      assert EventOk(n, nbr, l.event);
    }
  }

  /** Every delivery and every timer tick that does anything lowers the measure. */
  lemma StepCosts(n: Net, nbr: Overlay, l: Label, ids: set<MsgId>)
    requires Inv(n, nbr) && Enabled(n, l) && !l.Originate? && Within(n, ids)
    ensures Cost(Next(n, l), ids) < Cost(n, ids)
  {
    match l
    case TickAt(q) => TickCosts(n, q, ids);
    case Deliver(e) =>
      if e.Eager? && e.id !in n.peers[e.to].tree.seen {
        NewCosts(n, nbr, e, ids);
      } else if e.Eager? {
        DuplicateCosts(n, e, ids);
      } else {
        ControlCosts(n, e, ids);
      }
  }

  /** Traffic dies out: from any reachable state, a run without new originations has at most as many
      steps as the measure of that state. */
  lemma {:induction false} TrafficDiesOut(nets: seq<Net>, labels: seq<Label>, nbr: Overlay, i: nat, j: nat,
                                          ids: set<MsgId>)
    requires Run(nets, labels, nbr) && i <= j < |nets|
    requires forall k :: i <= k < j ==> !labels[k].Originate?
    requires Within(nets[i], ids)
    ensures Within(nets[j], ids)
    ensures (j - i) + Cost(nets[j], ids) <= Cost(nets[i], ids)
    decreases j
  {
    hide Inv, Next, Cost;
    if i < j {
      TrafficDiesOut(nets, labels, nbr, i, j - 1, ids);
      RunKeepsInv(nets, labels, nbr, j - 1);
      assert Linked(nets, labels, j - 1);
      StepStaysWithin(nets[j - 1], nbr, labels[j - 1], ids);
      StepCosts(nets[j - 1], nbr, labels[j - 1], ids);
    }
  }

  /** A state that is not quiet can always take such a step, so every maximal run ends quiet. */
  lemma NotQuietMoves(nets: seq<Net>, labels: seq<Label>, nbr: Overlay, k: nat)
    requires Run(nets, labels, nbr) && k < |nets|
    ensures !Quiet(nets[k]) <==> exists l: Label :: !l.Originate? && Enabled(nets[k], l)
  {
    var n := nets[k];
    RunKeepsInv(nets, labels, nbr, k);
    if n.flight != multiset{} {
      var e :| e in n.flight;
      assert EventOk(n, nbr, e);
      assert Enabled(n, Deliver(e));
    } else if !Quiet(n) {
      var p :| p in n.peers && n.peers[p].tree.pending != [];
      assert Enabled(n, TickAt(p));
    }
  }

  // ---- Driving a network in rounds ----

  /** From `n` to `n'` nothing was forgotten, and either nothing happened or the measure fell. */
  ghost predicate Progressed(n: Net, n': Net, nbr: Overlay, ids: set<MsgId>) {
    && Inv(n', nbr) && Within(n', ids)
    && n.peers.Keys == n'.peers.Keys && (forall p :: p in n.peers ==> n.peers[p].tree.seen <= n'.peers[p].tree.seen)
    && (n == n' || Cost(n', ids) < Cost(n, ids))
  }

  lemma StepProgresses(n: Net, nbr: Overlay, l: Label, ids: set<MsgId>)
    requires Inv(n, nbr) && Enabled(n, l) && !l.Originate? && Within(n, ids)
    ensures Progressed(n, Next(n, l), nbr, ids) && Cost(Next(n, l), ids) < Cost(n, ids)
  {
    hide Inv, Within, Cost, Next;
    StepStaysWithin(n, nbr, l, ids);
    StepCosts(n, nbr, l, ids);
    StepKeepsInv(n, nbr, l);
    StepLearns(n, l);
  }

  lemma ProgressChains(a: Net, b: Net, c: Net, nbr: Overlay, ids: set<MsgId>)
    requires Progressed(a, b, nbr, ids) && Progressed(b, c, nbr, ids)
    ensures Progressed(a, c, nbr, ids) && Cost(c, ids) <= Cost(b, ids) <= Cost(a, ids)
    ensures a == c ==> a == b == c
  {
  }

  /** Nothing is addressed to `p` and it has no announcement to follow up. */
  predicate Idle(n: Net, p: NodeId) {
    p in n.peers && n.peers[p].tree.pending == [] && forall e :: e in n.flight ==> e.to != p
  }

  lemma AllIdleIsQuiet(n: Net, nbr: Overlay, order: seq<NodeId>)
    requires Inv(n, nbr) && (forall p :: p in n.peers ==> p in order) && forall i :: 0 <= i < |order| ==>
              Idle(n, order[i])
    ensures Quiet(n)
  {
    forall e | e in n.flight
      ensures false
    {
    }
  }

  lemma QuietIsIdle(n: Net, p: NodeId)
    requires Quiet(n) && p in n.peers
    ensures Idle(n, p)
  {
  }

  /** One endpoint's turn: drain its mailbox, then follow up on its announcements. */
  method ProcessAndTick(start: Net, p: NodeId, ghost nbr: Overlay, ghost ids: set<MsgId>) returns (n: Net)
    requires Inv(start, nbr) && Within(start, ids) && p in start.peers
    ensures Progressed(start, n, nbr, ids) && (n == start <==> Idle(start, p))
  {
    hide Inv, Within, Cost, Next;
    n := start;
    while true
      invariant Inv(n, nbr) && Within(n, ids) && Progressed(start, n, nbr, ids)
      invariant Idle(start, p) ==> n == start
      decreases Cost(n, ids)
    {
      var mail := set e | e in n.flight && e.to == p;
      if mail == {} {
        assert forall e :: e in n.flight && e.to == p ==> e in mail;
        break;
      }
      var e :| e in mail;
      StepProgresses(n, nbr, Deliver(e), ids);
      ProgressChains(start, n, Next(n, Deliver(e)), nbr, ids);
      n := Next(n, Deliver(e));
    }
    if n.peers[p].tree.pending != [] {
      StepProgresses(n, nbr, TickAt(p), ids);
      ProgressChains(start, n, Next(n, TickAt(p)), nbr, ids);
      n := Next(n, TickAt(p));
    }
  }

  /** One turn for every endpoint; a round that changes nothing finds the network quiet. */
  method Round(start: Net, order: seq<NodeId>, ghost nbr: Overlay, ghost ids: set<MsgId>) returns (n: Net)
    requires Inv(start, nbr) && Within(start, ids)
    requires (forall p :: p in order ==> p in start.peers) && forall p :: p in start.peers ==> p in order
    ensures Progressed(start, n, nbr, ids) && (n == start <==> Quiet(start))
  {
    hide Inv, Within, Cost, Idle;
    n := start;
    for i := 0 to |order|
      invariant Inv(n, nbr) && Within(n, ids) && Progressed(start, n, nbr, ids)
      invariant n == start ==> forall j :: 0 <= j < i ==> Idle(start, order[j])
      invariant Quiet(start) ==> n == start
    {
      if Quiet(start) {
        QuietIsIdle(start, order[i]);
      }
      var n' := ProcessAndTick(n, order[i], nbr, ids);
      ProgressChains(start, n, n', nbr, ids);
      n := n';
    }
    if n == start {
      AllIdleIsQuiet(start, nbr, order);
    }
  }

  /** Drive the endpoints for a number of rounds. Nothing is ever forgotten, and with more rounds than the measure
      of the starting state the network is quiet and every message has spread to all neighbours of its
      holders. */
  method Pump(start: Net, order: seq<NodeId>, rounds: nat, ghost nbr: Overlay, ghost ids: set<MsgId>) returns (n: Net)
    requires Inv(start, nbr) && Within(start, ids)
    requires (forall p :: p in order ==> p in start.peers) && forall p :: p in start.peers ==> p in order
    ensures Progressed(start, n, nbr, ids)
    ensures rounds > Cost(start, ids) ==>
              && Quiet(n)
              && forall p, q, id :: p in nbr && q in nbr[p] && id in n.peers[p].tree.seen ==>
                        q in n.peers && id in n.peers[q].tree.seen
  {
    hide Inv, Within, Cost;
    n := start;
    for i := 0 to rounds
      invariant Inv(n, nbr) && Within(n, ids) && Progressed(start, n, nbr, ids)
      invariant Quiet(n) || Cost(n, ids) + i <= Cost(start, ids)
    {
      var n' := Round(n, order, nbr, ids);
      ProgressChains(start, n, n', nbr, ids);
      n := n';
    }
    if Quiet(n) {
      QuietCovers(n, nbr);
    }
  }

  lemma StepLearns(n: Net, l: Label)
    requires Enabled(n, l)
    ensures n.peers.Keys == Next(n, l).peers.Keys
    ensures forall p :: p in n.peers ==> n.peers[p].tree.seen <= Next(n, l).peers[p].tree.seen
  {
  }

  lemma QuietCovers(n: Net, nbr: Overlay)
    requires Inv(n, nbr) && Quiet(n)
    ensures forall p, q, id :: p in nbr && q in nbr[p] && id in n.peers[p].tree.seen ==>
              q in n.peers && id in n.peers[q].tree.seen
  {
    forall p, q, id | p in nbr && q in nbr[p] && id in n.peers[p].tree.seen
      ensures q in n.peers && id in n.peers[q].tree.seen
    {
      NeighboursExist(n, nbr, p, q);
      assert UnderWay(n, p, q, id);
    }
  }
}
