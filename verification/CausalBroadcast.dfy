/** Reliable causal broadcast over vector clocks: the clock, the delivery test, and the broadcaster
    object with its buffer of early messages. */
module CausalBroadcast {

  type ReplicaId = string

  /** Version vector: the highest counter per replica; absent means zero. */
  type Clock = map<ReplicaId, nat>

  datatype Msg = Msg(sender: ReplicaId, counter: nat, context: Clock, payload: string)

  function Get(c: Clock, r: ReplicaId): (res: nat) {
    if r in c then c[r] else 0
  }

  function Ticked(c: Clock, r: ReplicaId): (res: Clock) {
    c[r := Get(c, r) + 1]
  }

  predicate Dominates(a: Clock, b: Clock) {
    forall r :: r in b ==> Get(a, r) >= b[r]
  }

  /** Tick one entry until it reaches `n`; an entry already there stays. */
  function Raised(c: Clock, r: ReplicaId, n: nat): (res: Clock) {
    if Get(c, r) < n then c[r := n] else c
  }

  /** The delivery test as written: next in sender order, and either of two dominance checks against
      the clock as it would be after delivery. */
  predicate CanDeliver(delivered: Clock, m: Msg) {
    && Get(delivered, m.sender) + 1 == m.counter
    && var hypothetical := Raised(delivered, m.sender, m.counter);
       Dominates(hypothetical, m.context) || Dominates(hypothetical, Ticked(m.context, m.sender))
  }

  /** What the test comes to: the message is the sender's next one and everything else its context
      mentions has been delivered. The second dominance check never adds anything. */
  lemma CanDeliverMeans(d: Clock, m: Msg)
    ensures CanDeliver(d, m) <==>
              && m.counter == Get(d, m.sender) + 1
              && Get(m.context, m.sender) <= m.counter
              && forall r :: r != m.sender ==> Get(m.context, r) <= Get(d, r)
  {
    var h := Raised(d, m.sender, m.counter);
    var t := Ticked(m.context, m.sender);
    if m.counter == Get(d, m.sender) + 1 {
      assert forall r :: Get(h, r) == if r == m.sender then m.counter else Get(d, r);
      DominatesMeans(h, m.context);
      DominatesMeans(h, t);
      assert Get(t, m.sender) == Get(m.context, m.sender) + 1;
      assert forall r :: r != m.sender ==> Get(t, r) == Get(m.context, r);
    }
  }

  lemma DominatesMeans(a: Clock, b: Clock)
    ensures Dominates(a, b) <==> forall r :: Get(b, r) <= Get(a, r)
  {
  }

  /** The clock after delivering a sequence of messages. */
  function After(d: Clock, out: seq<Msg>): (r: Clock) {
    if out == [] then d
    else
      var m := out[|out| - 1];
      Raised(After(d, out[..|out| - 1]), m.sender, m.counter)
  }

  /** Each message was deliverable at the moment it was delivered. */
  predicate Chain(d: Clock, out: seq<Msg>) {
    out == [] || (Chain(d, out[..|out| - 1]) && CanDeliver(After(d, out[..|out| - 1]), out[|out| - 1]))
  }

  /** What feeding `m` to a replica promises: a legal delivery order, nothing lost or invented, and
      nothing deliverable left waiting. */
  ghost predicate Received(d: Clock, pending: seq<Msg>, m: Msg, out: seq<Msg>, d': Clock, pending': seq<Msg>) {
    && Chain(d, out)
    && d' == After(d, out)
    && multiset(pending') + multiset(out) == multiset(pending) + multiset{m}
    && forall x :: x in pending' ==> !CanDeliver(d', x)
  }

  lemma ChainSnoc(d: Clock, out: seq<Msg>, m: Msg)
    requires Chain(d, out) && CanDeliver(After(d, out), m)
    ensures Chain(d, out + [m]) && After(d, out + [m]) == Raised(After(d, out), m.sender, m.counter)
  {
    assert (out + [m])[..|out|] == out;
  }

  class VectorClockBroadcaster {
    const me: ReplicaId
    var delivered: Clock
    var pending: seq<Msg>

    constructor (me: ReplicaId)
      ensures this.me == me && delivered == map[] && pending == []
    {
      this.me, delivered, pending := me, map[], [];
    }

    /** Tag a local message with the clock after counting it; it counts as delivered here. */
    method Submit(payload: string) returns (m: Msg)
      modifies this`delivered
      ensures delivered == Ticked(old(delivered), me)
      ensures m == Msg(me, Get(delivered, me), delivered, payload)
    {
      delivered := Ticked(delivered, me);
      m := Msg(me, Get(delivered, me), delivered, payload);
    }

    method Deliverable(m: Msg) returns (ok: bool)
      ensures ok == CanDeliver(delivered, m)
    {
      if Get(delivered, m.sender) + 1 != m.counter {
        return false;
      }
      var hypothetical := delivered;
      while Get(hypothetical, m.sender) < m.counter
        invariant || hypothetical == delivered
                  || (&& Get(hypothetical, m.sender) <= m.counter
                      && hypothetical == delivered[m.sender := Get(hypothetical, m.sender)])
        invariant Get(hypothetical, m.sender) <= m.counter
        decreases m.counter - Get(hypothetical, m.sender)
      {
        hypothetical := Ticked(hypothetical, m.sender);
      }
      assert hypothetical == Raised(delivered, m.sender, m.counter);
      ok := Dominates(hypothetical, m.context) || Dominates(hypothetical, Ticked(m.context, m.sender));
    }

    method DeliverNow(m: Msg)
      modifies this`delivered
      ensures delivered == Raised(old(delivered), m.sender, m.counter)
    {
      while Get(delivered, m.sender) < m.counter
        invariant || delivered == old(delivered)
                  || (&& Get(old(delivered), m.sender) < Get(delivered, m.sender) <= m.counter
                      && delivered == old(delivered)[m.sender := Get(delivered, m.sender)])
        decreases m.counter - Get(delivered, m.sender)
      {
        delivered := Ticked(delivered, m.sender);
      }
    }

    /** One pass over the buffer: deliver what has become deliverable, keep the rest in order. */
    method Scan(ghost d0: Clock, ghost sofar: seq<Msg>) returns (out: seq<Msg>)
      requires Chain(d0, sofar) && delivered == After(d0, sofar)
      modifies this
      ensures Chain(d0, sofar + out) && delivered == After(d0, sofar + out)
      ensures multiset(pending) + multiset(out) == multiset(old(pending))
      ensures |pending| + |out| == |old(pending)|
      ensures out == [] ==> forall x :: x in pending ==> !CanDeliver(delivered, x)
    {
      hide CanDeliver, Chain, After, Raised;
      var queue := pending;
      var remaining: seq<Msg> := [];
      out := [];
      assert sofar + [] == sofar;
      while queue != []
        invariant Chain(d0, sofar + out) && delivered == After(d0, sofar + out)
        invariant multiset(remaining) + multiset(queue) + multiset(out) == multiset(old(pending))
        invariant |remaining| + |queue| + |out| == |old(pending)|
        invariant out == [] ==> forall x :: x in remaining ==> !CanDeliver(delivered, x)
        decreases |queue|
      {
        var m := queue[0];
        assert queue == [m] + queue[1..];
        queue := queue[1..];
        var ok := Deliverable(m);
        if ok {
          ChainSnoc(d0, sofar + out, m);
          assert sofar + (out + [m]) == sofar + out + [m];
          DeliverNow(m);
          out := out + [m];
        } else {
          remaining := remaining + [m];
        }
      }
      pending := remaining;
    }

    /** Buffer the message, then rescan until a whole pass delivers nothing. */
    method Receive(m: Msg) returns (out: seq<Msg>)
      modifies this
      ensures Received(old(delivered), old(pending), m, out, delivered, pending)
    {
      pending := pending + [m];
      out := [];
      var progress := true;
      while progress
        invariant Chain(old(delivered), out) && delivered == After(old(delivered), out)
        invariant multiset(pending) + multiset(out) == multiset(old(pending)) + multiset{m}
        invariant !progress ==> forall x :: x in pending ==> !CanDeliver(delivered, x)
        decreases progress, |pending|
      {
        var more := Scan(old(delivered), out);
        out := out + more;
        progress := more != [];
      }
    }
  }
}
