/** One Plumtree peer: eager push along tree edges, IHAVE to lazy peers, GRAFT to pull and heal,
    PRUNE on duplicates. A message is named by its content id, so the payload is left implicit, and
    events carry the peer that emits them. */
module Plumtree {

  type NodeId = string
  type MsgId = string

  datatype Event =
    | Eager(from: NodeId, to: NodeId, id: MsgId)
    | IHave(from: NodeId, to: NodeId, id: MsgId)
    | Graft(from: NodeId, to: NodeId, id: MsgId)
    | Prune(from: NodeId, to: NodeId)

  datatype Peer = Peer(me: NodeId, eager: set<NodeId>, lazy: set<NodeId>, seen: set<MsgId>,
                       pending: seq<(NodeId, MsgId)>)

  /** Full pushes to the eager peers and announcements to the lazy ones, except to `skip`. */
  function FanOut(p: Peer, id: MsgId, skip: set<NodeId>): (r: set<Event>) {
    (set q | q in p.eager - skip :: Eager(p.me, q, id)) + (set q | q in p.lazy - skip :: IHave(p.me, q, id))
  }

  /** The events hand the body to exactly these peers and announce it to exactly those, once each. */
  ghost predicate Sends(events: seq<Event>, me: NodeId, bodies: set<NodeId>, announced: set<NodeId>, id: MsgId) {
    && (forall q :: multiset(events)[Eager(me, q, id)] == if q in bodies then 1 else 0)
    && (forall q :: multiset(events)[IHave(me, q, id)] == if q in announced then 1 else 0)
    && (forall e :: e in events ==> (e.Eager? || e.IHave?) && e.from == me && e.id == id)
  }

  /** Fan-out gives the body to the eager peers and announces it to the lazy ones. */
  lemma FanOutSends(p: Peer, id: MsgId, skip: set<NodeId>, events: seq<Event>)
    requires multiset(events) == multiset(FanOut(p, id, skip))
    ensures Sends(events, p.me, p.eager - skip, p.lazy - skip, id)
  {
    forall e | e in events
      ensures (e.Eager? || e.IHave?) && e.from == p.me && e.id == id
    {
      assert e in multiset(events);
    }
  }

  function Broadcast(p: Peer, id: MsgId): (r: (Peer, multiset<Event>)) {
    if id in p.seen then (p, multiset{})
    else (p.(seen := p.seen + {id}), multiset(FanOut(p, id, {})))
  }

  function Demote(p: Peer, q: NodeId): (r: Peer) {
    if q in p.eager then p.(eager := p.eager - {q}, lazy := p.lazy + {q}) else p
  }

  function OnReceive(p: Peer, from: NodeId, id: MsgId): (r: (Peer, multiset<Event>)) {
    if id in p.seen then
      (Demote(p, from), if from in p.eager then multiset{Prune(p.me, from)} else multiset{})
    else (p.(seen := p.seen + {id}), multiset(FanOut(p, id, {from})))
  }

  function OnIHave(p: Peer, from: NodeId, id: MsgId): (r: Peer) {
    if id in p.seen then p else p.(pending := p.pending + [(from, id)])
  }

  function OnGraft(p: Peer, from: NodeId, id: MsgId): (r: (Peer, multiset<Event>)) {
    (p.(lazy := p.lazy - {from}, eager := p.eager + {from}),
     if id in p.seen then multiset{Eager(p.me, from, id)} else multiset{})
  }

  /** One GRAFT per queued announcement whose body is still missing. */
  function Grafts(me: NodeId, seen: set<MsgId>, pending: seq<(NodeId, MsgId)>): (r: multiset<Event>) {
    if pending == [] then multiset{}
    else
      var (from, id) := pending[|pending| - 1];
      Grafts(me, seen, pending[..|pending| - 1]) + (if id in seen then multiset{} else multiset{Graft(me, from, id)})
  }

  /** A graft goes out for exactly the queued announcements of bodies still missing. */
  lemma {:induction false} GraftsMember(me: NodeId, seen: set<MsgId>, pending: seq<(NodeId, MsgId)>, e: Event)
    ensures e in Grafts(me, seen, pending) <==> e.Graft? && e.from == me && e.id !in seen && (e.to, e.id) in pending
    decreases |pending|
  {
    if pending != [] {
      var init, last := pending[..|pending| - 1], pending[|pending| - 1];
      GraftsMember(me, seen, init, e);
      assert pending == init + [last];
      if e.Graft? {
        assert (e.to, e.id) in pending <==> (e.to, e.id) in init || (e.to, e.id) == last;
      }
    }
  }

  function Tick(p: Peer): (r: (Peer, multiset<Event>)) {
    (p.(pending := []), Grafts(p.me, p.seen, p.pending))
  }

  method PushAll(me: NodeId, targets: set<NodeId>, id: MsgId) returns (events: seq<Event>)
    ensures multiset(events) == multiset(set q | q in targets :: Eager(me, q, id))
  {
    events := [];
    var todo := targets;
    while todo != {}
      invariant todo <= targets
      invariant multiset(events) == multiset(set q | q in targets - todo :: Eager(me, q, id))
    {
      var q :| q in todo;
      ghost var sent := set x | x in targets - todo :: Eager(me, x, id);
      todo := todo - {q};
      assert (set x | x in targets - todo :: Eager(me, x, id)) == sent + {Eager(me, q, id)};
      events := events + [Eager(me, q, id)];
    }
    assert targets - todo == targets;
  }

  method AnnounceAll(me: NodeId, targets: set<NodeId>, id: MsgId) returns (events: seq<Event>)
    ensures multiset(events) == multiset(set q | q in targets :: IHave(me, q, id))
  {
    events := [];
    var todo := targets;
    while todo != {}
      invariant todo <= targets
      invariant multiset(events) == multiset(set q | q in targets - todo :: IHave(me, q, id))
    {
      var q :| q in todo;
      ghost var sent := set x | x in targets - todo :: IHave(me, x, id);
      todo := todo - {q};
      assert (set x | x in targets - todo :: IHave(me, x, id)) == sent + {IHave(me, q, id)};
      events := events + [IHave(me, q, id)];
    }
    assert targets - todo == targets;
  }

  /** The peer object; handlers update its views in place and return the events to send. */
  class InMemoryPlumtree {
    const me: NodeId
    var eager: set<NodeId>
    var lazy: set<NodeId>
    var seen: set<MsgId>
    var pending: seq<(NodeId, MsgId)>

    ghost function State(): (r: Peer)
      reads this
    {
      Peer(me, eager, lazy, seen, pending)
    }

    constructor (me: NodeId)
      ensures State() == Peer(me, {}, {}, {}, [])
    {
      this.me, eager, lazy, seen, pending := me, {}, {}, {}, [];
    }

    /** Views stay disjoint: re-adding a pruned peer promotes it. */
    method AddPeer(q: NodeId)
      modifies this
      ensures State() == old(State()).(lazy := old(lazy) - {q}, eager := old(eager) + {q})
    {
      lazy := lazy - {q};
      eager := eager + {q};
    }

    /** Push to every eager peer, then announce to every lazy peer, skipping one hop. */
    method Spread(id: MsgId, skip: set<NodeId>) returns (events: seq<Event>)
      ensures multiset(events) == multiset(FanOut(State(), id, skip))
      ensures Sends(events, me, eager - skip, lazy - skip, id)
    {
      var pushes := PushAll(me, eager - skip, id);
      var announcements := AnnounceAll(me, lazy - skip, id);
      events := pushes + announcements;
      FanOutSends(State(), id, skip, events);
    }

    method Originate(id: MsgId) returns (events: seq<Event>)
      modifies this
      ensures (State(), multiset(events)) == Broadcast(old(State()), id)
      ensures id in old(seen) ==> events == []
      ensures id !in old(seen) ==> Sends(events, me, eager, lazy, id)
      ensures eager == old(eager) && lazy == old(lazy) && seen == old(seen) + {id} && pending == old(pending)
    {
      if id in seen {
        return [];
      }
      events := Spread(id, {});
      seen := seen + {id};
    }

    method Receive(from: NodeId, id: MsgId) returns (events: seq<Event>)
      modifies this
      ensures (State(), multiset(events)) == OnReceive(old(State()), from, id)
      ensures id !in old(seen) ==> Sends(events, me, eager - {from}, lazy - {from}, id)
      ensures id !in old(seen) ==> eager == old(eager) && lazy == old(lazy)
      ensures id in old(seen) ==> events == if from in old(eager) then [Prune(me, from)] else []
      ensures id in old(seen) ==> eager == old(eager) - {from} && lazy == old(lazy) + (old(eager) * {from})
      ensures seen == old(seen) + {id} && pending == old(pending)
    {
      if id in seen {
        if from in eager {
          eager, lazy := eager - {from}, lazy + {from};
          return [Prune(me, from)];
        }
        return [];
      }
      events := Spread(id, {from});
      seen := seen + {id};
    }

    method HearIHave(from: NodeId, id: MsgId)
      modifies this
      ensures State() == OnIHave(old(State()), from, id)
      ensures pending == if id in seen then old(pending) else old(pending) + [(from, id)]
    {
      if id !in seen {
        pending := pending + [(from, id)];
      }
    }

    method HearGraft(from: NodeId, id: MsgId) returns (events: seq<Event>)
      modifies this
      ensures (State(), multiset(events)) == OnGraft(old(State()), from, id)
      ensures eager == old(eager) + {from} && lazy == old(lazy) - {from}
      ensures events == if id in seen then [Eager(me, from, id)] else []
    {
      lazy := lazy - {from};
      eager := eager + {from};
      events := if id in seen then [Eager(me, from, id)] else [];
    }

    method HearPrune(from: NodeId)
      modifies this
      ensures State() == Demote(old(State()), from)
      ensures eager == old(eager) - {from} && lazy == old(lazy) + (old(eager) * {from})
    {
      if from in eager {
        eager, lazy := eager - {from}, lazy + {from};
      }
    }

    /** The timer: turn queued announcements into GRAFTs for what is still missing. */
    method DrainIHaves() returns (events: seq<Event>)
      modifies this
      ensures (State(), multiset(events)) == Tick(old(State()))
      ensures forall e :: e in events <==> e.Graft? && e.from == me && e.id !in seen && (e.to, e.id) in old(pending)
    {
      var items := pending;
      pending := [];
      events := [];
      for i := 0 to |items|
        invariant State() == old(State()).(pending := [])
        invariant multiset(events) == Grafts(me, seen, items[..i])
      {
        assert items[..i + 1][..i] == items[..i];
        var (from, id) := items[i];
        if id !in seen {
          events := events + [Graft(me, from, id)];
        }
      }
      assert items[..|items|] == items;
      forall e
        ensures e in events <==> e.Graft? && e.from == me && e.id !in seen && (e.to, e.id) in items
      {
        GraftsMember(me, seen, items, e);
        assert e in events <==> e in multiset(events);
      }
    }
  }
}
