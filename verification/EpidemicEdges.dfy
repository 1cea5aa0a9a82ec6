/** Which way traffic takes through a Plumtree network: bodies along eager edges, announcements along lazy ones, and
    silence on a pruned edge until it is grafted. */
module EpidemicEdges {
  import opened Plumtree
  import opened Epidemic

  /** The step puts one more such event into flight than it takes out. */
  predicate Emits(n: Net, l: Label, e: Event)
    requires Enabled(n, l)
  {
    Next(n, l).flight[e] > n.flight[e]
  }

  /** The peer whose state the step moves. */
  function Actor(l: Label): (q: NodeId) {
    match l
    case Deliver(e) => e.to
    case TickAt(q) => q
    case Originate(q, _) => q
  }

  lemma ActorIsNamed(n: Net, nbr: Overlay, l: Label)
    requires Inv(n, nbr) && Enabled(n, l)
    ensures Actor(l) in nbr && Actor(l) in n.peers && n.peers[Actor(l)].tree.me == Actor(l)
    ensures n.peers[Actor(l)].tree.eager !! n.peers[Actor(l)].tree.lazy
  {
    assert ViewOk(n.peers[Actor(l)], Actor(l), nbr[Actor(l)], nbr.Keys);
  }

  lemma FanOutAddresses(p: Peer, id: MsgId, skip: set<NodeId>)
    ensures forall e :: e in FanOut(p, id, skip) ==>
              && e.from == p.me
              && (|| (e.Eager? && e.to in p.eager - skip && e.id == id)
                  || (e.IHave? && e.to in p.lazy - skip && e.id == id))
  {
  }

  lemma FanOutAddress(p: Peer, id: MsgId, skip: set<NodeId>, t: NodeId)
    ensures Eager(p.me, t, id) in FanOut(p, id, skip) <==> t in p.eager - skip
    ensures IHave(p.me, t, id) in FanOut(p, id, skip) <==> t in p.lazy - skip
  {
  }

  // ---- Where an event may go ----

  /** A body leaves a peer along an eager edge, or answers a graft, which makes the edge eager; an announcement
      leaves along a lazy edge; a graft asks the announcer of a missing body; a prune answers a body already held. */
  lemma TrafficFollowsViews(n: Net, nbr: Overlay, l: Label, e: Event)
    requires Inv(n, nbr) && Enabled(n, l) && Emits(n, l, e)
    ensures e.from == Actor(l) && e.from in n.peers && e.from in Next(n, l).peers
    ensures var p, p' := n.peers[e.from].tree, Next(n, l).peers[e.from].tree;
            match e
            case Eager(q, t, id) => t in p'.eager && id in p'.seen && (t in p.eager || l == Deliver(Graft(t, q, id)))
            case IHave(q, t, id) => t in p.lazy && t in p'.lazy && id !in p.seen && id in p'.seen
            case Graft(q, t, id) => l == TickAt(q) && id !in p.seen && (t, id) in p.pending
            case Prune(q, t) =>
              t in p.eager && t in p'.lazy && exists id :: id in p.seen && l == Deliver(Eager(t, q, id))
  {
    ActorIsNamed(n, nbr, l);
    match l
    case Deliver(d) => DeliveryFollowsViews(n, nbr, d, e);
    case TickAt(q) =>
      GraftsMember(q, n.peers[q].tree.seen, n.peers[q].tree.pending, e);
      assert e in Tick(n.peers[q].tree).1;
    case Originate(q, id) =>
      FanOutAddresses(n.peers[q].tree, id, {});
      assert e in Launch(n.peers[q], id).1;
  }

  lemma DeliveryFollowsViews(n: Net, nbr: Overlay, d: Event, e: Event)
    requires Inv(n, nbr) && Enabled(n, Deliver(d)) && Emits(n, Deliver(d), e)
    ensures e.from == d.to && d.to in n.peers && d.to in Next(n, Deliver(d)).peers
    ensures var p, p' := n.peers[d.to].tree, Next(n, Deliver(d)).peers[d.to].tree;
            match e
            case Eager(q, t, id) => t in p'.eager && id in p'.seen && (t in p.eager || d == Graft(t, q, id))
            case IHave(q, t, id) => t in p.lazy && t in p'.lazy && id !in p.seen && id in p'.seen
            case Graft(q, t, id) => false
            case Prune(q, t) => exists id :: id in p.seen && d == Eager(t, q, id) && t in p.eager && t in p'.lazy
  {
    ActorIsNamed(n, nbr, Deliver(d));
    AnswersFollowViews(n.peers[d.to], d, e);
    hide Inv, Accept;
  }

  /** The events with which an endpoint answers an arriving one. */
  lemma AnswersFollowViews(ep: Endpoint, d: Event, e: Event)
    requires e in Accept(ep, d).1 && ep.tree.me == d.to && ep.tree.eager !! ep.tree.lazy
    ensures e.from == d.to
    ensures var p, p' := ep.tree, Accept(ep, d).0.tree;
            match e
            case Eager(q, t, id) => t in p'.eager && id in p'.seen && (t in p.eager || d == Graft(t, q, id))
            case IHave(q, t, id) => t in p.lazy && t in p'.lazy && id !in p.seen && id in p'.seen
            case Graft(q, t, id) => false
            case Prune(q, t) => exists id :: id in p.seen && d == Eager(t, q, id) && t in p.eager && t in p'.lazy
  {
    hide FanOut;
    match d
    case Eager(from, to, id) =>
      FanOutAddresses(ep.tree, id, {from});
    case _ =>
  }

  // ---- What goes out when a message arrives ----

  /** A peer that first sees a message hands the body to every eager neighbour and announces it to every lazy one,
      except to the hop the message came from. */
  lemma NewMessageSpreads(n: Net, nbr: Overlay, l: Label, id: MsgId, t: NodeId)
    requires Inv(n, nbr) && Enabled(n, l) && Actor(l) in n.peers && Actor(l) in Next(n, l).peers
    requires id !in n.peers[Actor(l)].tree.seen && id in Next(n, l).peers[Actor(l)].tree.seen
    requires !(l.Deliver? && l.event.from == t)
    ensures var q := Actor(l);
            && (t in n.peers[q].tree.eager <==> Emits(n, l, Eager(q, t, id)))
            && (t in n.peers[q].tree.lazy <==> Emits(n, l, IHave(q, t, id)))
  {
    ActorIsNamed(n, nbr, l);
    var q := Actor(l);
    var p := n.peers[q].tree;
    var skip := if l.Deliver? then {l.event.from} else {};
    FanOutAddress(p, id, skip, t);
    NewMessageFansOut(n, l, id, skip);
    hide FanOut, Inv, Next, Enabled, Emits;
  }

  /** What a new message adds to the traffic is the fan-out. */
  lemma NewMessageFansOut(n: Net, l: Label, id: MsgId, skip: set<NodeId>)
    requires Enabled(n, l) && Actor(l) in n.peers && n.peers[Actor(l)].tree.me == Actor(l)
    requires Actor(l) in Next(n, l).peers && skip == if l.Deliver? then {l.event.from} else {}
    requires id !in n.peers[Actor(l)].tree.seen && id in Next(n, l).peers[Actor(l)].tree.seen
    ensures var out := FanOut(n.peers[Actor(l)].tree, id, skip);
            forall e: Event :: e.from == Actor(l) && (l.Deliver? ==> e != l.event) ==>
              (Emits(n, l, e) <==> e in out)
  {
    hide FanOut;
    var out := FanOut(n.peers[Actor(l)].tree, id, skip);
    match l
    case Deliver(d) =>
      assert Next(n, l).flight == n.flight - multiset{d} + multiset(out);
    case Originate(_, _) =>
      assert Next(n, l).flight == n.flight + multiset(out);
    case TickAt(_) =>
  }

  // ---- Pruned edges ----

  /** A body that arrives again over an eager edge prunes the edge on both sides: the receiver demotes the sender
      and tells it to do the same. */
  lemma DuplicatePrunes(n: Net, nbr: Overlay, d: Event)
    requires Inv(n, nbr) && Enabled(n, Deliver(d)) && d.Eager? && d.id in n.peers[d.to].tree.seen
    ensures d.to in Next(n, Deliver(d)).peers && d.from !in Next(n, Deliver(d)).peers[d.to].tree.eager
    ensures Emits(n, Deliver(d), Prune(d.to, d.from)) <==> d.from in n.peers[d.to].tree.eager
  {
    ActorIsNamed(n, nbr, Deliver(d));
  }

  /** No graft from `t` reaches `q` by these steps. */
  ghost predicate NoGraft(labels: seq<Label>, i: nat, j: nat, q: NodeId, t: NodeId)
    requires i <= j <= |labels|
  {
    forall m, id :: i <= m < j ==> labels[m] != Deliver(Graft(t, q, id))
  }

  /** The m-th step puts no body from `q` to `t` into flight. */
  ghost predicate NoBody(nets: seq<Net>, labels: seq<Label>, m: nat, q: NodeId, t: NodeId)
    requires m < |labels| == |nets| - 1
  {
    Enabled(nets[m], labels[m]) && forall id :: !Emits(nets[m], labels[m], Eager(q, t, id))
  }

  lemma EagerNeedsGraft(n: Net, nbr: Overlay, l: Label, q: NodeId, t: NodeId)
    requires Inv(n, nbr) && Enabled(n, l) && q in n.peers && t !in n.peers[q].tree.eager
    requires forall id :: l != Deliver(Graft(t, q, id))
    ensures q in Next(n, l).peers && t !in Next(n, l).peers[q].tree.eager
    ensures forall id :: !Emits(n, l, Eager(q, t, id))
  {
    forall id
      ensures !Emits(n, l, Eager(q, t, id))
    {
      if Emits(n, l, Eager(q, t, id)) {
        TrafficFollowsViews(n, nbr, l, Eager(q, t, id));
      }
    }
    ActorIsNamed(n, nbr, l);
    hide Inv, Emits, Accept, Grafts, FanOut;
    if l.Deliver? && l.event.to == q {
      DeliveryKeepsPruned(n.peers[q], l.event, t);
    }
  }

  /** Only a graft makes its sender eager. */
  lemma DeliveryKeepsPruned(ep: Endpoint, d: Event, t: NodeId)
    requires t !in ep.tree.eager && !(d.Graft? && d.from == t)
    ensures t !in Accept(ep, d).0.tree.eager
  {
    hide FanOut;
  }

  /** After `q` has accepted a prune from `t`, it keeps `t` out of its eager view and puts no further body for `t`
      into flight, until it accepts a graft from `t`. */
  lemma {:induction false} PrunedEdgeIsSilent(nets: seq<Net>, labels: seq<Label>, nbr: Overlay, i: nat, j: nat,
                                              q: NodeId, t: NodeId)
    requires Run(nets, labels, nbr) && i < j <= |labels| && labels[i] == Deliver(Prune(t, q))
    requires NoGraft(labels, i + 1, j, q, t)
    ensures q in nets[j].peers && t !in nets[j].peers[q].tree.eager
    ensures forall m :: i < m < j ==> NoBody(nets, labels, m, q, t)
    decreases j
  {
    hide Inv, Next, Emits;
    RunKeepsInv(nets, labels, nbr, j - 1);
    assert Linked(nets, labels, j - 1);
    if j == i + 1 {
      PruneDemotes(nets[i], nbr, t, q);
    } else {
      PrunedEdgeIsSilent(nets, labels, nbr, i, j - 1, q, t);
      EagerNeedsGraft(nets[j - 1], nbr, labels[j - 1], q, t);
    }
  }

  lemma PruneDemotes(n: Net, nbr: Overlay, t: NodeId, q: NodeId)
    requires Inv(n, nbr) && Enabled(n, Deliver(Prune(t, q)))
    ensures q in Next(n, Deliver(Prune(t, q))).peers && t !in Next(n, Deliver(Prune(t, q))).peers[q].tree.eager
  {
    ActorIsNamed(n, nbr, Deliver(Prune(t, q)));
  }

  // ---- Hops and the application ----

  /** Whoever sends anything but a prune can be addressed from then on, and nobody else is learned; the application
      gets exactly the bodies that are new. */
  lemma DeliveryTeaches(n: Net, nbr: Overlay, d: Event)
    requires Inv(n, nbr) && Enabled(n, Deliver(d))
    ensures d.to in n.peers && d.to in Next(n, Deliver(d)).peers
    ensures var ep, ep' := n.peers[d.to], Next(n, Deliver(d)).peers[d.to];
            && ep'.known == (if d.Prune? then ep.known else ep.known + {d.from})
            && (if d.Eager? && d.id !in ep.tree.seen
                then d.id !in ep.counts && ep'.counts == ep.counts[d.id := 1] else ep'.counts == ep.counts)
  {
    ActorIsNamed(n, nbr, Deliver(d));
    assert ViewOk(n.peers[d.to], d.to, nbr[d.to], nbr.Keys);
    AcceptTeaches(n.peers[d.to], d);
    hide Inv, Accept;
  }

  lemma AcceptTeaches(ep: Endpoint, d: Event)
    ensures var ep' := Accept(ep, d).0;
            && ep'.known == (if d.Prune? then ep.known else ep.known + {d.from})
            && ep'.counts == (if d.Eager? && d.id !in ep.tree.seen then PushApp(ep, d.id).counts else ep.counts)
  {
    hide FanOut;
  }
}
