/** The mesh endpoint object around one Plumtree peer. */
module EpidemicEndpoints {
  import opened Plumtree
  import E = Epidemic

  class EpidemicEndpoint {
    const tree: InMemoryPlumtree
    var known: set<NodeId>
    var counts: map<MsgId, nat>

    ghost function State(): (r: E.Endpoint)
      reads this, tree
    {
      E.Endpoint(tree.State(), known, counts)
    }

    constructor (me: NodeId)
      ensures fresh(tree) && State() == E.Endpoint(Peer(me, {}, {}, {}, []), {}, map[])
    {
      tree := new InMemoryPlumtree(me);
      known, counts := {}, map[];
    }

    method AddPeer(q: NodeId)
      modifies this, tree
      ensures q == tree.me ==> State() == old(State())
      ensures q != tree.me ==>
                State() == old(State()).(known := old(known) + {q},
                                         tree := old(tree.State()).(lazy := old(tree.lazy) - {q},
                                                                    eager := old(tree.eager) + {q}))
    {
      if q != tree.me {
        known := known + {q};
        tree.AddPeer(q);
      }
    }

    method PushApp(id: MsgId)
      modifies this
      ensures State() == E.PushApp(old(State()), id)
    {
      counts := counts[id := (if id in counts then counts[id] else 0) + 1];
    }

    /** Handle one arriving event: remember the hop, feed the peer, hand a new body to the application. */
    method Accept(e: Event) returns (out: seq<Event>)
      modifies this, tree
      ensures (State(), multiset(out)) == E.Accept(old(State()), e)
    {
      match e
      case Eager(from, _, id) =>
        known := known + {from};
        var already := id in tree.seen;
        out := tree.Receive(from, id);
        if !already {
          PushApp(id);
        }
      case IHave(from, _, id) =>
        known := known + {from};
        tree.HearIHave(from, id);
        out := [];
      case Graft(from, _, id) =>
        known := known + {from};
        out := tree.HearGraft(from, id);
      case Prune(from, _) =>
        tree.HearPrune(from);
        out := [];
    }

    method Launch(id: MsgId) returns (out: seq<Event>)
      modifies this, tree
      ensures (State(), multiset(out)) == E.Launch(old(State()), id)
    {
      var already := id in tree.seen;
      out := tree.Originate(id);
      if !already {
        PushApp(id);
      }
    }

    method Tick() returns (out: seq<Event>)
      modifies tree
      ensures (State(), multiset(out)) == (old(State()).(tree := Plumtree.Tick(old(tree.State())).0),
                                           Plumtree.Tick(old(tree.State())).1)
    {
      out := tree.DrainIHaves();
    }

    /** Send events in order until one names a peer this endpoint cannot resolve. */
    method Dispatch(events: seq<Event>) returns (sent: seq<Event>, ok: bool)
      ensures ok <==> forall e :: e in events ==> e.to in known
      ensures sent <= events && (ok ==> sent == events)
      ensures forall e :: e in sent ==> e.to in known
      ensures !ok ==> |sent| < |events| && events[|sent|].to !in known
    {
      sent := [];
      for i := 0 to |events|
        invariant sent == events[..i]
        invariant forall e :: e in events[..i] ==> e.to in known
      {
        if events[i].to !in known {
          assert events[i] in events;
          return sent, false;
        }
        sent := sent + [events[i]];
        assert events[..i + 1] == events[..i] + [events[i]];
      }
      assert events[..|events|] == events;
      ok := true;
    }
  }
}
