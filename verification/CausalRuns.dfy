/** A network of causal broadcasters: every message ever submitted may reach every replica any number
    of times and in any order. */
module CausalRuns {
  import opened CausalBroadcast

  /** `log` is everything the replica has delivered, its own submissions included, in order;
      `got` is everything that was ever fed to it. */
  datatype Replica = Replica(clock: Clock, pending: seq<Msg>, log: seq<Msg>, got: set<Msg>)

  /** `sent` lists all messages in the order they were submitted. */
  datatype Sys = Sys(replicas: map<ReplicaId, Replica>, sent: seq<Msg>)

  datatype Label = Submit(at: ReplicaId, payload: string) | Feed(at: ReplicaId, msg: Msg, out: seq<Msg>,
          pending: seq<Msg>)

  ghost predicate Enabled(s: Sys, l: Label) {
    && l.at in s.replicas
    && (l.Feed? ==>
          var r := s.replicas[l.at];
          l.msg in s.sent && Received(r.clock, r.pending, l.msg, l.out, After(r.clock, l.out), l.pending))
  }

  /** The message replica `at` would submit now. */
  function Tagged(s: Sys, at: ReplicaId, payload: string): (r: Msg)
    requires at in s.replicas
  {
    var clock := Ticked(s.replicas[at].clock, at);
    Msg(at, Get(clock, at), clock, payload)
  }

  function Next(s: Sys, l: Label): (r: Sys)
    requires l.at in s.replicas
  {
    var r := s.replicas[l.at];
    match l
    case Submit(at, payload) =>
      var m := Tagged(s, at, payload);
      Sys(s.replicas[at := r.(clock := m.context, log := r.log + [m])], s.sent + [m])
    case Feed(at, m, out, pending) =>
      s.(replicas := s.replicas[at := Replica(After(r.clock, out), pending, r.log + out, r.got + {m})])
  }

  ghost predicate Initial(s: Sys) {
    s.sent == [] && forall i :: i in s.replicas ==> s.replicas[i] == Replica(map[], [], [], {})
  }

  ghost predicate Run(states: seq<Sys>, labels: seq<Label>) {
    && |states| == |labels| + 1
    && Initial(states[0])
    && forall i :: 0 <= i < |labels| ==> Linked(states, labels, i)
  }

  ghost predicate Linked(states: seq<Sys>, labels: seq<Label>, i: nat)
    requires |states| == |labels| + 1 && i < |labels|
  {
    Enabled(states[i], labels[i]) && states[i + 1] == Next(states[i], labels[i])
  }

  // ---- Dots ----

  ghost predicate HasDot(s: seq<Msg>, r: ReplicaId, c: nat) {
    exists t :: 0 <= t < |s| && s[t].sender == r && s[t].counter == c
  }

  ghost predicate DistinctDots(s: seq<Msg>) {
    forall t, u :: 0 <= t < u < |s| ==> s[t].sender != s[u].sender || s[t].counter != s[u].counter
  }

  /** `n` is in the causal past of `m`: `m`'s context counts it. */
  predicate Before(n: Msg, m: Msg) {
    n.counter <= Get(m.context, n.sender) && (n.sender != m.sender || n.counter != m.counter)
  }

  lemma HasDotSnoc(s: seq<Msg>, m: Msg, r: ReplicaId, c: nat)
    ensures HasDot(s + [m], r, c) <==> HasDot(s, r, c) || (m.sender == r && m.counter == c)
  {
    var all := s + [m];
    if HasDot(s, r, c) {
      var t :| 0 <= t < |s| && s[t].sender == r && s[t].counter == c;
      assert all[t] == s[t];
    }
    if m.sender == r && m.counter == c {
      assert all[|s|] == m;
    }
  }

  lemma DistinctSnoc(s: seq<Msg>, m: Msg)
    requires DistinctDots(s) && !HasDot(s, m.sender, m.counter)
    ensures DistinctDots(s + [m])
  {
  }

  // ---- Invariant ----

  /** Every dot in the message's context other than its own is in `s`. */
  ghost predicate PastIn(m: Msg, s: seq<Msg>) {
    forall r, c :: 1 <= c <= Get(m.context, r) && (r != m.sender || c != m.counter) ==> HasDot(s, r, c)
  }

  ghost predicate MsgOk(m: Msg) {
    m.counter >= 1 && Get(m.context, m.sender) == m.counter
  }

  ghost predicate SentOk(s: Sys) {
    && DistinctDots(s.sent)
    && (forall k :: 0 <= k < |s.sent| ==> MsgOk(s.sent[k]) && PastIn(s.sent[k], s.sent[..k]))
    && (forall i, c :: i in s.replicas && c >= 1 ==> (HasDot(s.sent, i, c) <==> c <= Get(s.replicas[i].clock, i)))
  }

  /** The clock counts exactly the dots in the log, the log has no repeats, and it is causally ordered. */
  ghost predicate LogOk(clock: Clock, log: seq<Msg>) {
    && (forall r, c: nat :: c >= 1 ==> (HasDot(log, r, c) <==> c <= Get(clock, r)))
    && DistinctDots(log)
    && (forall t :: 0 <= t < |log| ==> PastIn(log[t], log[..t]))
    && (forall m, r :: m in log ==> Get(m.context, r) <= Get(clock, r))
  }

  ghost predicate ReplicaOk(r: Replica, sent: seq<Msg>) {
    && LogOk(r.clock, r.log)
    && (forall m :: m in r.log ==> m in sent)
    && (forall m :: m in r.pending ==> m in sent && !CanDeliver(r.clock, m))
    && (forall m :: m in r.got ==> m in r.pending || m in r.log)
  }

  ghost predicate Inv(s: Sys) {
    SentOk(s) && forall i :: i in s.replicas ==> ReplicaOk(s.replicas[i], s.sent)
  }

  // ---- Delivery keeps the log in causal order ----

  lemma DeliverOne(clock: Clock, log: seq<Msg>, m: Msg)
    requires LogOk(clock, log) && MsgOk(m) && CanDeliver(clock, m)
    ensures LogOk(Raised(clock, m.sender, m.counter), log + [m])
  {
    CanDeliverMeans(clock, m);
    var clock', log' := Raised(clock, m.sender, m.counter), log + [m];
    forall r, c: nat | c >= 1
      ensures HasDot(log', r, c) <==> c <= Get(clock', r)
    {
      HasDotSnoc(log, m, r, c);
    }
    DistinctSnoc(log, m);
    forall x, r | x in log'
      ensures Get(x.context, r) <= Get(clock', r)
    {
      assert Get(clock', r) == if r == m.sender then m.counter else Get(clock, r);
      assert x == m || x in log;
      assert x in log ==> Get(x.context, r) <= Get(clock, r);
    }
    forall t | 0 <= t < |log'|
      ensures PastIn(log'[t], log'[..t])
    {
      if t < |log| {
        assert log'[..t] == log[..t];
      } else {
        assert log'[..t] == log;
      }
    }
  }

  lemma {:induction false} DeliverChain(clock: Clock, log: seq<Msg>, out: seq<Msg>)
    requires LogOk(clock, log) && Chain(clock, out) && forall m :: m in out ==> MsgOk(m)
    ensures LogOk(After(clock, out), log + out)
    decreases |out|
  {
    if out == [] {
      assert log + out == log;
    } else {
      var init, last := out[..|out| - 1], out[|out| - 1];
      DeliverChain(clock, log, init);
      DeliverOne(After(clock, init), log + init, last);
      assert log + out == log + init + [last];
    }
  }

  lemma SubmitOne(clock: Clock, log: seq<Msg>, m: Msg)
    requires LogOk(clock, log) && m.context == Ticked(clock, m.sender) && m.counter == Get(clock, m.sender) + 1
    ensures LogOk(m.context, log + [m])
  {
    CanDeliverMeans(clock, m);
    DeliverOne(clock, log, m);
  }

  lemma InSent(sent: seq<Msg>, m: Msg) returns (k: nat)
    requires m in sent
    ensures k < |sent| && sent[k] == m
  {
    k :| 0 <= k < |sent| && sent[k] == m;
  }

  /** A clock entry for oneself never runs ahead of what one has submitted, so a submission makes no
      buffered message deliverable. */
  lemma SubmitWakesNothing(s: Sys, i: ReplicaId, m: Msg)
    requires Inv(s) && i in s.replicas && m in s.replicas[i].pending
    ensures !CanDeliver(Ticked(s.replicas[i].clock, i), m)
  {
    var clock := s.replicas[i].clock;
    assert ReplicaOk(s.replicas[i], s.sent);
    var k := InSent(s.sent, m);
    CanDeliverMeans(clock, m);
    CanDeliverMeans(Ticked(clock, i), m);
    assert MsgOk(m) && PastIn(s.sent[k], s.sent[..k]);
    OwnCount(s, i, k);
  }

  /** No message mentions more of `i`'s submissions than there are. */
  lemma OwnCount(s: Sys, i: ReplicaId, k: nat)
    requires Inv(s) && i in s.replicas && k < |s.sent|
    ensures Get(s.sent[k].context, i) <= Get(s.replicas[i].clock, i)
  {
    var m, c := s.sent[k], Get(s.sent[k].context, i);
    assert MsgOk(m) && PastIn(m, s.sent[..k]);
    if c >= 1 {
      if i == m.sender && c == m.counter {
        assert s.sent[k].sender == i && s.sent[k].counter == c;
      } else {
        assert HasDot(s.sent[..k], i, c);
        var t :| 0 <= t < k && s.sent[..k][t].sender == i && s.sent[..k][t].counter == c;
        assert s.sent[t].sender == i;
      }
      assert HasDot(s.sent, i, c);
    }
  }

  lemma SubmitKeepsSent(s: Sys, i: ReplicaId, payload: string)
    requires Inv(s) && i in s.replicas
    ensures SentOk(Next(s, Submit(i, payload)))
  {
    var s' := Next(s, Submit(i, payload));
    var clock := s.replicas[i].clock;
    var m := s'.sent[|s.sent|];
    assert ReplicaOk(s.replicas[i], s.sent);
    assert s'.sent == s.sent + [m];
    forall j, c: nat | j in s'.replicas && c >= 1
      ensures HasDot(s'.sent, j, c) <==> c <= Get(s'.replicas[j].clock, j)
    {
      HasDotSnoc(s.sent, m, j, c);
      assert HasDot(s.sent, j, c) <==> c <= Get(s.replicas[j].clock, j);
    }
    DistinctSnoc(s.sent, m);
    forall k | 0 <= k < |s'.sent|
      ensures MsgOk(s'.sent[k]) && PastIn(s'.sent[k], s'.sent[..k])
    {
      if k < |s.sent| {
        assert s'.sent[..k] == s.sent[..k];
      } else {
        assert s'.sent[..k] == s.sent;
        forall r, c: nat | 1 <= c <= Get(m.context, r) && (r != i || c != m.counter)
          ensures HasDot(s.sent, r, c)
        {
          assert HasDot(s.replicas[i].log, r, c);
          LogIsSent(s, i, r, c);
        }
      }
    }
  }

  lemma LogIsSent(s: Sys, i: ReplicaId, r: ReplicaId, c: nat)
    requires Inv(s) && i in s.replicas && HasDot(s.replicas[i].log, r, c)
    ensures HasDot(s.sent, r, c)
  {
    var log := s.replicas[i].log;
    var t :| 0 <= t < |log| && log[t].sender == r && log[t].counter == c;
    assert log[t] in log && ReplicaOk(s.replicas[i], s.sent);
    var k := InSent(s.sent, log[t]);
  }

  lemma SubmitKeepsInv(s: Sys, i: ReplicaId, payload: string)
    requires Inv(s) && i in s.replicas
    ensures Inv(Next(s, Submit(i, payload)))
  {
    var s' := Next(s, Submit(i, payload));
    var r, m := s.replicas[i], s'.sent[|s.sent|];
    SubmitKeepsSent(s, i, payload);
    forall j | j in s'.replicas
      ensures ReplicaOk(s'.replicas[j], s'.sent)
    {
      assert ReplicaOk(s.replicas[j], s.sent);
      assert forall x :: x in s.sent ==> x in s'.sent;
      if j == i {
        SubmitOne(r.clock, r.log, m);
        forall x | x in r.pending ensures !CanDeliver(Ticked(r.clock, i), x) {
          SubmitWakesNothing(s, i, x);
        }
      }
    }
  }

  /** Delivering never delivers a dot of one's own: those are in the log since submission. */
  lemma OwnClockFixed(s: Sys, i: ReplicaId, out: seq<Msg>)
    requires Inv(s) && i in s.replicas && Chain(s.replicas[i].clock, out) && forall m :: m in out ==> m in s.sent
    ensures Get(After(s.replicas[i].clock, out), i) == Get(s.replicas[i].clock, i)
    decreases |out|
  {
    if out != [] {
      var init, last := out[..|out| - 1], out[|out| - 1];
      assert forall m :: m in init ==> m in out;
      OwnClockFixed(s, i, init);
      CanDeliverMeans(After(s.replicas[i].clock, init), last);
      assert last in out;
      var k := InSent(s.sent, last);
      assert MsgOk(s.sent[k]);
      if last.sender == i {
        assert HasDot(s.sent, i, last.counter);
      }
    }
  }

  lemma FeedConserves(r: Replica, l: Label)
    requires l.Feed? && Received(r.clock, r.pending, l.msg, l.out, After(r.clock, l.out), l.pending)
    ensures forall x :: x in l.pending || x in l.out <==> x in r.pending || x == l.msg
  {
    forall x
      ensures x in l.pending || x in l.out <==> x in r.pending || x == l.msg
    {
      assert x in l.pending || x in l.out <==> x in multiset(l.pending) + multiset(l.out);
      assert x in r.pending || x == l.msg <==> x in multiset(r.pending) + multiset{l.msg};
    }
  }

  lemma FeedKeepsInv(s: Sys, l: Label)
    requires Inv(s) && l.Feed? && Enabled(s, l)
    ensures Inv(Next(s, l))
  {
    var s', i := Next(s, l), l.at;
    var r := s.replicas[i];
    assert ReplicaOk(r, s.sent);
    FeedConserves(r, l);
    forall m | m in l.out
      ensures m in s.sent && MsgOk(m)
    {
      var k := InSent(s.sent, m);
    }
    DeliverChain(r.clock, r.log, l.out);
    OwnClockFixed(s, i, l.out);
    assert SentOk(s');
    forall j | j in s'.replicas
      ensures ReplicaOk(s'.replicas[j], s'.sent)
    {
      assert ReplicaOk(s.replicas[j], s.sent);
    }
  }

  lemma {:induction false} RunKeepsInv(states: seq<Sys>, labels: seq<Label>, k: nat)
    requires Run(states, labels) && k < |states|
    ensures Inv(states[k])
  {
    if k > 0 {
      RunKeepsInv(states, labels, k - 1);
      assert Linked(states, labels, k - 1);
      var l := labels[k - 1];
      if l.Feed? {
        FeedKeepsInv(states[k - 1], l);
      } else {
        SubmitKeepsInv(states[k - 1], l.at, l.payload);
      }
    }
  }

  // ---- Causality of the run ----

  /** Step `i` of the run submits `m`. */
  ghost predicate SubmittedAt(states: seq<Sys>, labels: seq<Label>, i: nat, m: Msg)
    requires |states| == |labels| + 1
  {
    && i < |labels| && labels[i].Submit? && labels[i].at in states[i].replicas
    && m == Tagged(states[i], labels[i].at, labels[i].payload)
  }

  /** When `m` was submitted its sender had submitted or delivered `n`. */
  ghost predicate Knew(states: seq<Sys>, labels: seq<Label>, n: Msg, m: Msg)
    requires |states| == |labels| + 1
  {
    exists i: nat :: SubmittedAt(states, labels, i, m) && n in states[i].replicas[labels[i].at].log
  }

  ghost predicate KnewNext(states: seq<Sys>, labels: seq<Label>, chain: seq<Msg>, t: nat)
    requires |states| == |labels| + 1
  {
    t + 1 < |chain| && Knew(states, labels, chain[t], chain[t + 1])
  }

  ghost predicate Leads(states: seq<Sys>, labels: seq<Label>, chain: seq<Msg>, n: Msg, m: Msg)
    requires |states| == |labels| + 1
  {
    && |chain| >= 2 && chain[0] == n && chain[|chain| - 1] == m
    && forall t :: 0 <= t < |chain| - 1 ==> KnewNext(states, labels, chain, t)
  }

  /** Happened-before: some chain of messages, each known to the sender of the next, leads from `n` to `m`.
      Clocks play no part in it. */
  ghost predicate HappenedBefore(states: seq<Sys>, labels: seq<Label>, n: Msg, m: Msg)
    requires |states| == |labels| + 1
  {
    exists chain :: Leads(states, labels, chain, n, m)
  }

  lemma {:induction false} SentGrows(states: seq<Sys>, labels: seq<Label>, i: nat, k: nat)
    requires Run(states, labels) && i <= k < |states|
    ensures states[i].sent <= states[k].sent
    decreases k
  {
    if i < k {
      SentGrows(states, labels, i, k - 1);
      assert Linked(states, labels, k - 1);
    }
  }

  /** Every message was submitted at some step. */
  lemma {:induction false} WasSubmitted(states: seq<Sys>, labels: seq<Label>, k: nat, m: Msg) returns (i: nat)
    requires Run(states, labels) && k < |states| && m in states[k].sent
    ensures i < k && SubmittedAt(states, labels, i, m)
    decreases k
  {
    assert k > 0;
    assert Linked(states, labels, k - 1);
    if m in states[k - 1].sent {
      i := WasSubmitted(states, labels, k - 1, m);
    } else {
      i := k - 1;
    }
  }

  /** Knowing a message means counting it and everything it counts, and the new message is a new dot. */
  lemma KnownIsCounted(states: seq<Sys>, labels: seq<Label>, n: Msg, m: Msg)
    requires Run(states, labels) && Knew(states, labels, n, m)
    ensures forall r :: Get(n.context, r) <= Get(m.context, r)
    ensures Get(n.context, m.sender) < m.counter
    ensures MsgOk(n)
  {
    var i: nat :| SubmittedAt(states, labels, i, m) && n in states[i].replicas[labels[i].at].log;
    RunKeepsInv(states, labels, i);
    var replica := states[i].replicas[labels[i].at];
    assert ReplicaOk(replica, states[i].sent);
    var a := InSent(states[i].sent, n);
    assert forall r :: Get(n.context, r) <= Get(replica.clock, r);
  }

  lemma {:induction false} ChainIsCounted(states: seq<Sys>, labels: seq<Label>, chain: seq<Msg>, t: nat)
    requires Run(states, labels) && 1 <= t < |chain|
    requires forall u :: 0 <= u < |chain| - 1 ==> KnewNext(states, labels, chain, u)
    ensures MsgOk(chain[0])
    ensures forall r :: Get(chain[0].context, r) <= Get(chain[t].context, r)
    ensures Get(chain[0].context, chain[t].sender) < chain[t].counter
    decreases t
  {
    assert KnewNext(states, labels, chain, t - 1);
    KnownIsCounted(states, labels, chain[t - 1], chain[t]);
    if t > 1 {
      ChainIsCounted(states, labels, chain, t - 1);
    }
  }

  /** Whatever a message's clock counts was known to its sender. */
  lemma CountedIsKnown(states: seq<Sys>, labels: seq<Label>, k: nat, n: Msg, m: Msg)
    requires Run(states, labels) && k < |states| && n in states[k].sent && m in states[k].sent && Before(n, m)
    ensures Knew(states, labels, n, m)
  {
    var i := WasSubmitted(states, labels, k, m);
    RunKeepsInv(states, labels, i);
    RunKeepsInv(states, labels, k);
    var s, replica := states[i], states[i].replicas[labels[i].at];
    assert ReplicaOk(replica, s.sent);
    var a := InSent(states[k].sent, n);
    assert MsgOk(n) && n.counter <= Get(replica.clock, n.sender);
    assert HasDot(replica.log, n.sender, n.counter);
    var t :| 0 <= t < |replica.log| && replica.log[t].sender == n.sender && replica.log[t].counter == n.counter;
    assert replica.log[t] in replica.log;
    var b := InSent(s.sent, replica.log[t]);
    SentGrows(states, labels, i, k);
    assert states[k].sent[b] == replica.log[t];
    assert a == b;
  }

  /** Vector clocks are causality: for messages of a run, the clock test holds exactly for the pairs related by
      happened-before. */
  lemma ClocksAreCausality(states: seq<Sys>, labels: seq<Label>, k: nat, n: Msg, m: Msg)
    requires Run(states, labels) && k < |states| && n in states[k].sent && m in states[k].sent
    ensures Before(n, m) <==> HappenedBefore(states, labels, n, m)
  {
    if Before(n, m) {
      CountedIsKnown(states, labels, k, n, m);
      var chain := [n, m];
      assert KnewNext(states, labels, chain, 0);
      assert Leads(states, labels, chain, n, m);
    }
    if HappenedBefore(states, labels, n, m) {
      var chain :| Leads(states, labels, chain, n, m);
      ChainIsCounted(states, labels, chain, |chain| - 1);
    }
  }

  // ---- Theorems ----

  /** Causal delivery: in every run, whatever happened before a delivered message was delivered at that
      replica earlier. */
  lemma DeliveryIsCausal(states: seq<Sys>, labels: seq<Label>, k: nat, i: ReplicaId, n: Msg, t: nat)
    requires Run(states, labels) && k < |states| && i in states[k].replicas
    requires t < |states[k].replicas[i].log|
    requires n in states[k].sent && HappenedBefore(states, labels, n, states[k].replicas[i].log[t])
    ensures n in states[k].replicas[i].log[..t]
  {
    hide HappenedBefore;
    var s := states[k];
    RunKeepsInv(states, labels, k);
    var log := s.replicas[i].log;
    assert ReplicaOk(s.replicas[i], s.sent) && PastIn(log[t], log[..t]) && log[t] in log;
    ClocksAreCausality(states, labels, k, n, log[t]);
    var a := InSent(s.sent, n);
    assert MsgOk(n) && HasDot(log[..t], n.sender, n.counter);
    var u :| 0 <= u < t && log[..t][u].sender == n.sender && log[..t][u].counter == n.counter;
    assert log[u] in log;
    var b := InSent(s.sent, log[u]);
    assert a == b;
  }

  /** At most once: in every run, no replica delivers two messages with the same sender and counter,
      however often they were received, and what it delivers was submitted by someone. */
  lemma DeliveredOnce(states: seq<Sys>, labels: seq<Label>, k: nat, i: ReplicaId, t: nat, u: nat)
    requires Run(states, labels) && k < |states| && i in states[k].replicas
    requires t < u < |states[k].replicas[i].log|
    ensures var log := states[k].replicas[i].log;
            log[t] != log[u] && (log[t].sender, log[t].counter) != (log[u].sender, log[u].counter)
    ensures states[k].replicas[i].log[u] in states[k].sent
  {
    RunKeepsInv(states, labels, k);
    assert ReplicaOk(states[k].replicas[i], states[k].sent);
  }

  /** A set of messages that contains, for each member, every other replica's message before it; by
      `ClocksAreCausality` that is happened-before. */
  ghost predicate CausallyClosed(msgs: set<Msg>, i: ReplicaId, sent: seq<Msg>) {
    forall m, n :: m in msgs && n in sent && Before(n, m) && n.sender != i ==> n in msgs
  }

  /** The first submitted message of `msgs` that the replica has not delivered could be delivered. */
  lemma FirstMissingIsDeliverable(s: Sys, i: ReplicaId, msgs: set<Msg>, k: nat)
    requires Inv(s) && i in s.replicas && CausallyClosed(msgs, i, s.sent)
    requires k < |s.sent| && s.sent[k] in msgs && s.sent[k] !in s.replicas[i].log
    requires forall j :: 0 <= j < k && s.sent[j] in msgs ==> s.sent[j] in s.replicas[i].log
    ensures CanDeliver(s.replicas[i].clock, s.sent[k])
  {
    var m, r := s.sent[k], s.replicas[i];
    assert ReplicaOk(r, s.sent) && MsgOk(m) && PastIn(m, s.sent[..k]);
    CanDeliverMeans(r.clock, m);
    forall q | q != m.sender
      ensures Get(m.context, q) <= Get(r.clock, q)
    {
      if Get(m.context, q) >= 1 {
        PastCounted(s, i, msgs, k, q, Get(m.context, q));
      }
    }
    if m.counter >= 2 {
      PastCounted(s, i, msgs, k, m.sender, m.counter - 1);
    }
    if m.counter <= Get(r.clock, m.sender) {
      CountedIsDelivered(s, i, k);
    }
  }

  /** Every dot in the causal past of that message is counted by the replica's clock. */
  lemma PastCounted(s: Sys, i: ReplicaId, msgs: set<Msg>, k: nat, q: ReplicaId, c: nat)
    requires Inv(s) && i in s.replicas && CausallyClosed(msgs, i, s.sent) && k < |s.sent| && s.sent[k] in msgs
    requires forall j :: 0 <= j < k && s.sent[j] in msgs ==> s.sent[j] in s.replicas[i].log
    requires 1 <= c <= Get(s.sent[k].context, q) && (q != s.sent[k].sender || c != s.sent[k].counter)
    ensures c <= Get(s.replicas[i].clock, q)
  {
    var m, r := s.sent[k], s.replicas[i];
    assert ReplicaOk(r, s.sent) && PastIn(m, s.sent[..k]);
    assert HasDot(s.sent[..k], q, c);
    var t :| 0 <= t < k && s.sent[..k][t].sender == q && s.sent[..k][t].counter == c;
    var n := s.sent[t];
    assert n in s.sent && n.sender == q && n.counter == c && Before(n, m);
    if q == i {
      assert HasDot(s.sent, i, c);
    } else {
      var u :| 0 <= u < |r.log| && r.log[u] == n;
      assert HasDot(r.log, q, c);
    }
  }

  /** A submitted message that the clock counts has been delivered. */
  lemma CountedIsDelivered(s: Sys, i: ReplicaId, k: nat)
    requires Inv(s) && i in s.replicas && k < |s.sent|
    requires s.sent[k].counter <= Get(s.replicas[i].clock, s.sent[k].sender)
    ensures s.sent[k] in s.replicas[i].log
  {
    var m, r := s.sent[k], s.replicas[i];
    assert ReplicaOk(r, s.sent) && MsgOk(m);
    assert HasDot(r.log, m.sender, m.counter);
    var t :| 0 <= t < |r.log| && r.log[t].sender == m.sender && r.log[t].counter == m.counter;
    assert r.log[t] in r.log;
    var j := InSent(s.sent, r.log[t]);
    assert j == k;
  }

  /** Completeness: a replica that has received a causally closed set of messages, in any order and
      with any duplicates, has delivered all of it. */
  lemma ClosedSetsAreDelivered(states: seq<Sys>, labels: seq<Label>, k: nat, i: ReplicaId, msgs: set<Msg>)
    requires Run(states, labels) && k < |states| && i in states[k].replicas
    requires msgs <= states[k].replicas[i].got && CausallyClosed(msgs, i, states[k].sent)
    ensures forall m :: m in msgs ==> m in states[k].replicas[i].log
  {
    RunKeepsInv(states, labels, k);
    var s, r := states[k], states[k].replicas[i];
    assert ReplicaOk(r, s.sent);
    forall m | m in msgs
      ensures m in r.log
    {
      assert m in r.got;
      var a := InSent(s.sent, m);
      PrefixDelivered(s, i, msgs, a);
    }
  }

  lemma {:induction false} PrefixDelivered(s: Sys, i: ReplicaId, msgs: set<Msg>, k: nat)
    requires Inv(s) && i in s.replicas && CausallyClosed(msgs, i, s.sent) && msgs <= s.replicas[i].got
    requires k < |s.sent| && s.sent[k] in msgs
    ensures s.sent[k] in s.replicas[i].log
    decreases k
  {
    forall j | 0 <= j < k && s.sent[j] in msgs
      ensures s.sent[j] in s.replicas[i].log
    {
      PrefixDelivered(s, i, msgs, j);
    }
    assert ReplicaOk(s.replicas[i], s.sent) && s.sent[k] in s.replicas[i].got;
    if s.sent[k] !in s.replicas[i].log {
      FirstMissingIsDeliverable(s, i, msgs, k);
    }
  }
}
