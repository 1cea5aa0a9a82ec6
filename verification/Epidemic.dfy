/** Plumtree peers over a lossless mesh: every emitted event stays in flight until it is delivered,
    in any order. Runs interleave originations, deliveries and timer ticks arbitrarily. */
module Epidemic {
  import opened Plumtree

  /** A mesh endpoint: the peer, the hops it can address, and what it handed to the application. */
  datatype Endpoint = Endpoint(tree: Peer, known: set<NodeId>, counts: map<MsgId, nat>)

  datatype Net = Net(peers: map<NodeId, Endpoint>, flight: multiset<Event>)

  function PushApp(ep: Endpoint, id: MsgId): (r: Endpoint) {
    ep.(counts := ep.counts[id := (if id in ep.counts then ep.counts[id] else 0) + 1])
  }

  /** One event arriving at its addressee. */
  function Accept(ep: Endpoint, e: Event): (r: (Endpoint, multiset<Event>)) {
    match e
    case Eager(from, _, id) =>
      var (tree, out) := OnReceive(ep.tree, from, id);
      var ep1 := ep.(tree := tree, known := ep.known + {from});
      (if id in ep.tree.seen then ep1 else PushApp(ep1, id), out)
    case IHave(from, _, id) => (ep.(tree := OnIHave(ep.tree, from, id), known := ep.known + {from}), multiset{})
    case Graft(from, _, id) =>
      var (tree, out) := OnGraft(ep.tree, from, id);
      (ep.(tree := tree, known := ep.known + {from}), out)
    case Prune(from, _) => (ep.(tree := Demote(ep.tree, from)), multiset{})
  }

  function Launch(ep: Endpoint, id: MsgId): (r: (Endpoint, multiset<Event>)) {
    var (tree, out) := Broadcast(ep.tree, id);
    var ep1 := ep.(tree := tree);
    (if id in ep.tree.seen then ep1 else PushApp(ep1, id), out)
  }

  datatype Label = Deliver(event: Event) | TickAt(peer: NodeId) | Originate(peer: NodeId, id: MsgId)

  predicate Enabled(n: Net, l: Label) {
    match l
    case Deliver(e) => e in n.flight && e.to in n.peers
    case TickAt(q) => q in n.peers && n.peers[q].tree.pending != []
    case Originate(q, _) => q in n.peers
  }

  function Put(n: Net, q: NodeId, r: (Endpoint, multiset<Event>)): (res: Net) {
    Net(n.peers[q := r.0], n.flight + r.1)
  }

  function Next(n: Net, l: Label): (r: Net)
    requires Enabled(n, l)
  {
    match l
    case Deliver(e) => Put(n.(flight := n.flight - multiset{e}), e.to, Accept(n.peers[e.to], e))
    case TickAt(q) =>
      var (tree, out) := Tick(n.peers[q].tree);
      Put(n, q, (n.peers[q].(tree := tree), out))
    case Originate(q, id) => Put(n, q, Launch(n.peers[q], id))
  }

  type Overlay = map<NodeId, set<NodeId>>

  /** Fixed neighbour sets, split in any way into eager and lazy; nothing sent or seen yet. */
  ghost predicate Initial(n: Net, nbr: Overlay) {
    && n.peers.Keys == nbr.Keys && n.flight == multiset{}
    && forall p :: p in nbr ==>
         && nbr[p] <= nbr.Keys - {p}
         && n.peers[p].tree.me == p
         && n.peers[p].tree.eager + n.peers[p].tree.lazy == nbr[p] && n.peers[p].tree.eager !! n.peers[p].tree.lazy
         && n.peers[p].tree.seen == {} && n.peers[p].tree.pending == []
         && n.peers[p].known == nbr[p] && n.peers[p].counts == map[]
  }

  // ---- Invariant ----

  /** A peer's two views partition its fixed neighbour set, and every neighbour can be addressed. */
  ghost predicate ViewOk(ep: Endpoint, p: NodeId, nbrs: set<NodeId>, all: set<NodeId>) {
    && ep.tree.me == p
    && ep.tree.eager + ep.tree.lazy == nbrs && ep.tree.eager !! ep.tree.lazy
    && nbrs <= ep.known <= all
    && nbrs <= all - {p}
    && ep.counts == map id | id in ep.tree.seen :: 1
  }

  /** An event in flight: both ends exist, it runs along an overlay edge, and what it offers or asks
      for is held by the right end. */
  ghost predicate EventOk(n: Net, nbr: Overlay, e: Event)
    requires n.peers.Keys == nbr.Keys
  {
    && e.from in nbr && e.to in nbr && e.to in n.peers[e.from].known
    && match e
       case Eager(p, q, id) => q in nbr[p] && id in n.peers[p].tree.seen
       case IHave(p, q, id) => q in nbr[p] && id in n.peers[p].tree.seen
       case Graft(q, p, id) => q in nbr[p] && id in n.peers[p].tree.seen
       case Prune(q, p) => p in nbr[q]
  }

  ghost predicate PendingOk(n: Net, nbr: Overlay, q: NodeId)
    requires n.peers.Keys == nbr.Keys && q in nbr
  {
    forall x :: x in n.peers[q].tree.pending ==>
      x.0 in nbr && q in nbr[x.0] && x.1 in n.peers[x.0].tree.seen && x.0 in n.peers[q].known
  }

  /** What `p` has seen reaches its neighbour `q`: already there, or something under way will bring it. */
  ghost predicate UnderWay(n: Net, p: NodeId, q: NodeId, id: MsgId)
    requires q in n.peers
  {
    || id in n.peers[q].tree.seen
    || Eager(p, q, id) in n.flight
    || IHave(p, q, id) in n.flight
    || (p, id) in n.peers[q].tree.pending
    || Graft(q, p, id) in n.flight
  }

  ghost predicate Shape(n: Net, nbr: Overlay) {
    && n.peers.Keys == nbr.Keys
    && (forall p :: p in nbr ==> ViewOk(n.peers[p], p, nbr[p], nbr.Keys))
    && (forall e :: e in n.flight ==> EventOk(n, nbr, e))
    && (forall q :: q in nbr ==> PendingOk(n, nbr, q))
  }

  ghost predicate Covered(n: Net, nbr: Overlay)
    requires Shape(n, nbr)
  {
    forall p, q, id :: p in nbr && q in nbr[p] && id in n.peers[p].tree.seen ==> UnderWay(n, p, q, id)
  }

  ghost predicate Inv(n: Net, nbr: Overlay) {
    Shape(n, nbr) && Covered(n, nbr)
  }

  lemma InitialInv(n: Net, nbr: Overlay)
    requires Initial(n, nbr)
    ensures Inv(n, nbr)
  {
    forall p | p in nbr ensures ViewOk(n.peers[p], p, nbr[p], nbr.Keys) {
      assert n.peers[p].counts == map id | id in n.peers[p].tree.seen :: 1;
    }
  }

  // ---- What a peer's own step may do ----

  /** The step of peer `q`: it keeps its views' union, only learns, and emits sound events. */
  ghost predicate PeerStep(n: Net, nbr: Overlay, q: NodeId, ep: Endpoint, out: multiset<Event>)
    requires Shape(n, nbr) && q in nbr
  {
    && ViewOk(ep, q, nbr[q], nbr.Keys)
    && n.peers[q].tree.seen <= ep.tree.seen
    && n.peers[q].known <= ep.known
    && (forall x :: x in ep.tree.pending ==>
          || x in n.peers[q].tree.pending
          || (x.0 in nbr && q in nbr[x.0] && x.1 in n.peers[x.0].tree.seen && x.0 in ep.known))
    && (forall e :: e in out ==> EmittedOk(n, nbr, q, ep, e))
  }

  /** An event `q` may emit from its new state `ep`. */
  ghost predicate EmittedOk(n: Net, nbr: Overlay, q: NodeId, ep: Endpoint, e: Event)
    requires Shape(n, nbr) && q in nbr
  {
    && e.from == q && e.to in ep.known
    && match e
       case Eager(_, t, id) => t in nbr[q] && id in ep.tree.seen
       case IHave(_, t, id) => t in nbr[q] && id in ep.tree.seen
       case Graft(_, t, id) => t in nbr && q in nbr[t] && id in n.peers[t].tree.seen
       case Prune(_, t) => t in nbr[q]
  }

  lemma PeerStepKeepsShape(n: Net, nbr: Overlay, q: NodeId, ep: Endpoint, out: multiset<Event>, flight: multiset<Event>)
    requires Shape(n, nbr) && q in nbr && PeerStep(n, nbr, q, ep, out)
    requires flight <= n.flight
    ensures Shape(Net(n.peers[q := ep], flight + out), nbr)
  {
    var n' := Net(n.peers[q := ep], flight + out);
    forall e | e in n'.flight
      ensures EventOk(n', nbr, e)
    {
      if e in flight {
        assert EventOk(n, nbr, e);
      }
    }
    forall p | p in nbr
      ensures PendingOk(n', nbr, p)
    {
      assert PendingOk(n, nbr, p);
    }
  }

  lemma FanOutMember(p: Peer, id: MsgId, skip: set<NodeId>, e: Event)
    requires e in FanOut(p, id, skip)
    ensures (e.Eager? || e.IHave?) && e.from == p.me && e.id == id && e.to in p.eager + p.lazy
  {
  }

  lemma FanOutOk(n: Net, nbr: Overlay, q: NodeId, ep: Endpoint, id: MsgId, skip: set<NodeId>)
    requires Shape(n, nbr) && q in nbr && ViewOk(ep, q, nbr[q], nbr.Keys) && id in ep.tree.seen
    requires ep.tree.eager == n.peers[q].tree.eager && ep.tree.lazy == n.peers[q].tree.lazy
    ensures forall e :: e in multiset(FanOut(n.peers[q].tree, id, skip)) ==> EmittedOk(n, nbr, q, ep, e)
  {
    assert ViewOk(n.peers[q], q, nbr[q], nbr.Keys);
    forall e | e in FanOut(n.peers[q].tree, id, skip)
      ensures EmittedOk(n, nbr, q, ep, e)
    {
      FanOutMember(n.peers[q].tree, id, skip, e);
    }
  }

  lemma AcceptNew(n: Net, nbr: Overlay, e: Event)
    requires Shape(n, nbr) && e in n.flight && e.to in nbr && e.Eager? && e.id !in n.peers[e.to].tree.seen
    ensures PeerStep(n, nbr, e.to, Accept(n.peers[e.to], e).0, Accept(n.peers[e.to], e).1)
  {
    hide FanOut;
    assert EventOk(n, nbr, e);
    var ep := Accept(n.peers[e.to], e).0;
    assert ViewOk(n.peers[e.to], e.to, nbr[e.to], nbr.Keys);
    assert ep.counts == map id | id in ep.tree.seen :: 1;
    assert ViewOk(ep, e.to, nbr[e.to], nbr.Keys);
    FanOutOk(n, nbr, e.to, ep, e.id, {e.from});
  }

  lemma AcceptDuplicate(n: Net, nbr: Overlay, e: Event)
    requires Shape(n, nbr) && e in n.flight && e.to in nbr && e.Eager? && e.id in n.peers[e.to].tree.seen
    ensures PeerStep(n, nbr, e.to, Accept(n.peers[e.to], e).0, Accept(n.peers[e.to], e).1)
  {
    hide FanOut;
    assert EventOk(n, nbr, e);
    assert ViewOk(n.peers[e.to], e.to, nbr[e.to], nbr.Keys);
  }

  lemma AcceptControl(n: Net, nbr: Overlay, e: Event)
    requires Shape(n, nbr) && e in n.flight && e.to in nbr && !e.Eager?
    ensures PeerStep(n, nbr, e.to, Accept(n.peers[e.to], e).0, Accept(n.peers[e.to], e).1)
  {
    assert EventOk(n, nbr, e);
    assert ViewOk(n.peers[e.to], e.to, nbr[e.to], nbr.Keys);
  }

  lemma LaunchStep(n: Net, nbr: Overlay, q: NodeId, id: MsgId)
    requires Shape(n, nbr) && q in nbr
    ensures PeerStep(n, nbr, q, Launch(n.peers[q], id).0, Launch(n.peers[q], id).1)
  {
    hide FanOut;
    var ep := Launch(n.peers[q], id).0;
    assert ViewOk(n.peers[q], q, nbr[q], nbr.Keys);
    assert ep.counts == map i | i in ep.tree.seen :: 1;
    if id !in n.peers[q].tree.seen {
      FanOutOk(n, nbr, q, ep, id, {});
    }
  }

  lemma TickStep(n: Net, nbr: Overlay, q: NodeId)
    requires Shape(n, nbr) && q in nbr
    ensures var (tree, out) := Tick(n.peers[q].tree);
            PeerStep(n, nbr, q, n.peers[q].(tree := tree), out)
  {
    var (tree, out) := Tick(n.peers[q].tree);
    assert ViewOk(n.peers[q], q, nbr[q], nbr.Keys);
    assert PendingOk(n, nbr, q);
    forall e | e in out
      ensures EmittedOk(n, nbr, q, n.peers[q].(tree := tree), e)
    {
      GraftsMember(q, n.peers[q].tree.seen, n.peers[q].tree.pending, e);
    }
  }

  // ---- Coverage is never lost ----

  lemma DeliverKeepsCover(n: Net, nbr: Overlay, e: Event, p: NodeId, t: NodeId, id: MsgId)
    requires Inv(n, nbr) && Enabled(n, Deliver(e))
    requires p in nbr && t in nbr[p] && id in Next(n, Deliver(e)).peers[p].tree.seen && t in nbr
    ensures UnderWay(Next(n, Deliver(e)), p, t, id)
  {
    hide FanOut;
    var n' := Next(n, Deliver(e));
    var q := e.to;
    assert EventOk(n, nbr, e);
    assert ViewOk(n.peers[q], q, nbr[q], nbr.Keys);
    assert ViewOk(n.peers[p], p, nbr[p], nbr.Keys);
    if id in n.peers[p].tree.seen {
      assert UnderWay(n, p, t, id);
      OldCover(n, nbr, e, p, t, id);
    } else {
      assert e.Eager? && p == q && e.id == id;
      if t != e.from {
        NewCover(n.peers[q].tree, t, id, {e.from});
      }
    }
  }

  /** Fan-out leaves something under way to every neighbour it does not skip. */
  lemma NewCover(p: Peer, t: NodeId, id: MsgId, skip: set<NodeId>)
    requires t in p.eager + p.lazy && t !in skip
    ensures Eager(p.me, t, id) in FanOut(p, id, skip) || IHave(p.me, t, id) in FanOut(p, id, skip)
  {
  }

  /** The event that was going to bring `id` either still is, or has been turned into the next one. */
  lemma OldCover(n: Net, nbr: Overlay, e: Event, p: NodeId, t: NodeId, id: MsgId)
    requires Inv(n, nbr) && Enabled(n, Deliver(e))
    requires p in nbr && t in nbr[p] && t in nbr && id in n.peers[p].tree.seen && UnderWay(n, p, t, id)
    ensures UnderWay(Next(n, Deliver(e)), p, t, id)
  {
    hide FanOut, Covered, PendingOk, EventOk;
    var n' := Next(n, Deliver(e));
    assert ViewOk(n.peers[e.to], e.to, nbr[e.to], nbr.Keys);
    if e == Eager(p, t, id) {
      assert id in n'.peers[t].tree.seen;
    } else if e == IHave(p, t, id) {
      assert id in n'.peers[t].tree.seen || (p, id) in n'.peers[t].tree.pending;
    } else if e == Graft(t, p, id) {
      assert Eager(p, t, id) in n'.flight;
    } else {
      assert n.peers[t].tree.seen <= n'.peers[t].tree.seen;
      if (p, id) in n.peers[t].tree.pending {
        assert (p, id) in n'.peers[t].tree.pending;
      }
    }
  }

  lemma TickKeepsCover(n: Net, nbr: Overlay, q: NodeId, p: NodeId, t: NodeId, id: MsgId)
    requires Inv(n, nbr) && Enabled(n, TickAt(q))
    requires p in nbr && t in nbr[p] && t in nbr && id in n.peers[p].tree.seen
    ensures UnderWay(Next(n, TickAt(q)), p, t, id)
  {
    assert UnderWay(n, p, t, id);
    assert ViewOk(n.peers[q], q, nbr[q], nbr.Keys);
    if t == q && (p, id) in n.peers[q].tree.pending && id !in n.peers[q].tree.seen {
      GraftsMember(q, n.peers[q].tree.seen, n.peers[q].tree.pending, Graft(q, p, id));
    }
  }

  lemma OriginateKeepsCover(n: Net, nbr: Overlay, q: NodeId, newId: MsgId, p: NodeId, t: NodeId, id: MsgId)
    requires Inv(n, nbr) && Enabled(n, Originate(q, newId))
    requires p in nbr && t in nbr[p] && t in nbr && id in Next(n, Originate(q, newId)).peers[p].tree.seen
    ensures UnderWay(Next(n, Originate(q, newId)), p, t, id)
  {
    assert ViewOk(n.peers[q], q, nbr[q], nbr.Keys);
    if id in n.peers[p].tree.seen {
      assert UnderWay(n, p, t, id);
    } else {
      NewCover(n.peers[q].tree, t, id, {});
    }
  }

  lemma DeliverKeepsInv(n: Net, nbr: Overlay, e: Event)
    requires Inv(n, nbr) && Enabled(n, Deliver(e))
    ensures Inv(Next(n, Deliver(e)), nbr)
  {
    var n' := Next(n, Deliver(e));
    assert Shape(n', nbr) by {
      hide Accept, PeerStep;
      if !e.Eager? {
        AcceptControl(n, nbr, e);
      } else if e.id in n.peers[e.to].tree.seen {
        AcceptDuplicate(n, nbr, e);
      } else {
        AcceptNew(n, nbr, e);
      }
      var r := Accept(n.peers[e.to], e);
      PeerStepKeepsShape(n, nbr, e.to, r.0, r.1, n.flight - multiset{e});
    }
    forall p, t, id | p in nbr && t in nbr[p] && id in n'.peers[p].tree.seen ensures UnderWay(n', p, t, id) {
      hide *;
      NeighboursExist(n, nbr, p, t);
      DeliverKeepsCover(n, nbr, e, p, t, id);
    }
  }

  lemma NeighboursExist(n: Net, nbr: Overlay, p: NodeId, t: NodeId)
    requires Inv(n, nbr) && p in nbr && t in nbr[p]
    ensures t in nbr
  {
    assert ViewOk(n.peers[p], p, nbr[p], nbr.Keys);
  }

  lemma TickKeepsInv(n: Net, nbr: Overlay, q: NodeId)
    requires Inv(n, nbr) && Enabled(n, TickAt(q))
    ensures Inv(Next(n, TickAt(q)), nbr)
  {
    var n' := Next(n, TickAt(q));
    assert Shape(n', nbr) by {
      TickStep(n, nbr, q);
      var (tree, out) := Tick(n.peers[q].tree);
      PeerStepKeepsShape(n, nbr, q, n.peers[q].(tree := tree), out, n.flight);
    }
    forall p, t, id | p in nbr && t in nbr[p] && id in n'.peers[p].tree.seen ensures UnderWay(n', p, t, id) {
      hide UnderWay;
      NeighboursExist(n, nbr, p, t);
      TickKeepsCover(n, nbr, q, p, t, id);
    }
  }

  lemma OriginateKeepsInv(n: Net, nbr: Overlay, q: NodeId, newId: MsgId)
    requires Inv(n, nbr) && Enabled(n, Originate(q, newId))
    ensures Inv(Next(n, Originate(q, newId)), nbr)
  {
    var n' := Next(n, Originate(q, newId));
    LaunchStep(n, nbr, q, newId);
    var (ep, out) := Launch(n.peers[q], newId);
    PeerStepKeepsShape(n, nbr, q, ep, out, n.flight);
    forall p, t, id | p in nbr && t in nbr[p] && id in n'.peers[p].tree.seen ensures UnderWay(n', p, t, id) {
      NeighboursExist(n, nbr, p, t);
      OriginateKeepsCover(n, nbr, q, newId, p, t, id);
    }
  }

  lemma StepKeepsInv(n: Net, nbr: Overlay, l: Label)
    requires Inv(n, nbr) && Enabled(n, l)
    ensures Inv(Next(n, l), nbr)
  {
    hide Inv, Next;
    match l
    case Deliver(e) => DeliverKeepsInv(n, nbr, e);
    case TickAt(q) => TickKeepsInv(n, nbr, q);
    case Originate(q, id) => OriginateKeepsInv(n, nbr, q, id);
  }

  // ---- Runs ----

  ghost predicate Run(nets: seq<Net>, labels: seq<Label>, nbr: Overlay) {
    && |nets| == |labels| + 1
    && Initial(nets[0], nbr)
    && forall i :: 0 <= i < |labels| ==> Linked(nets, labels, i)
  }

  ghost predicate Linked(nets: seq<Net>, labels: seq<Label>, i: nat)
    requires |nets| == |labels| + 1 && i < |labels|
  {
    Enabled(nets[i], labels[i]) && nets[i + 1] == Next(nets[i], labels[i])
  }

  lemma {:induction false} RunKeepsInv(nets: seq<Net>, labels: seq<Label>, nbr: Overlay, i: nat)
    requires Run(nets, labels, nbr) && i < |nets|
    ensures Inv(nets[i], nbr)
  {
    hide Inv, Next;
    if i == 0 {
      InitialInv(nets[0], nbr);
    } else {
      RunKeepsInv(nets, labels, nbr, i - 1);
      assert Linked(nets, labels, i - 1);
      StepKeepsInv(nets[i - 1], nbr, labels[i - 1]);
    }
  }

  /** Nothing in flight and no announcement waiting for the timer. */
  ghost predicate Quiet(n: Net) {
    n.flight == multiset{} && forall p :: p in n.peers ==> n.peers[p].tree.pending == []
  }

  /** `path` walks the overlay along neighbour edges. */
  ghost predicate Walk(path: seq<NodeId>, nbr: Overlay) {
    && path != []
    && (forall i :: 0 <= i < |path| ==> path[i] in nbr)
    && (forall i :: 0 <= i < |path| - 1 ==> path[i + 1] in nbr[path[i]])
  }

  lemma {:induction false} QuietSpread(n: Net, nbr: Overlay, path: seq<NodeId>, id: MsgId)
    requires Inv(n, nbr) && Quiet(n) && Walk(path, nbr)
    requires id in n.peers[path[0]].tree.seen
    ensures id in n.peers[path[|path| - 1]].tree.seen
    decreases |path|
  {
    if |path| > 1 {
      QuietSpread(n, nbr, path[..|path| - 1], id);
      var p, q := path[|path| - 2], path[|path| - 1];
      assert q in nbr[p];
      assert UnderWay(n, p, q, id);
    }
  }

  /** Plumtree coverage: in every run, however edges were pruned and grafted on the way, once nothing
      is in flight and no IHAVE is pending, every peer that the overlay reaches from a holder of a
      message holds it too. */
  lemma PruningLosesNothing(nets: seq<Net>, labels: seq<Label>, nbr: Overlay, k: nat, path: seq<NodeId>, id: MsgId)
    requires Run(nets, labels, nbr) && k < |nets| && Quiet(nets[k])
    requires Walk(path, nbr) && path[0] in nets[k].peers && id in nets[k].peers[path[0]].tree.seen
    ensures path[|path| - 1] in nets[k].peers && id in nets[k].peers[path[|path| - 1]].tree.seen
  {
    RunKeepsInv(nets, labels, nbr, k);
    QuietSpread(nets[k], nbr, path, id);
  }

  /** Each peer hands each message to the application exactly once if it ever sees it, and never
      otherwise; and no dispatch ever fails to resolve its addressee. */
  lemma DeliveredAtMostOnce(nets: seq<Net>, labels: seq<Label>, nbr: Overlay, k: nat, p: NodeId, id: MsgId)
    requires Run(nets, labels, nbr) && k < |nets| && p in nbr
    ensures p in nets[k].peers
    ensures (id in nets[k].peers[p].counts <==> id in nets[k].peers[p].tree.seen)
    ensures id in nets[k].peers[p].counts ==> nets[k].peers[p].counts[id] == 1
    ensures forall e :: e in nets[k].flight ==>
              e.to in nets[k].peers && e.from in nets[k].peers && e.to in nets[k].peers[e.from].known
  {
    RunKeepsInv(nets, labels, nbr, k);
    var n := nets[k];
    assert ViewOk(n.peers[p], p, nbr[p], nbr.Keys);
    forall e | e in n.flight
      ensures e.to in n.peers && e.from in n.peers && e.to in n.peers[e.from].known
    {
      assert EventOk(n, nbr, e);
    }
  }
}
