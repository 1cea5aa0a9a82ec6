/** What stands behind everything an authority holds and signs, over whole runs: owners' signatures behind orders,
    presented certificates behind confirmations, and the authority's own signature on what it lets out. */
module EvidenceRuns {
  import opened Basics
  import opened Ledgers
  import opened Orders
  import opened Authorities
  import opened AuthorityRuns
  import opened AuthorityContracts

  /** The order for which this event presents the authority with a certificate of its own committee. */
  ghost function Presented(s: Authority, e: Event): (orders: set<Order>) {
    if e.OnConfirm? && Presentable(s, e.verified, e.committee, e.member) then {e.verified.order} else {}
  }

  /** All orders held are their owners', and those confirmed are among `proven`, each under its own sequence. */
  ghost predicate OrdersIn(s: Authority, proven: set<Order>) {
    && (forall k :: k in s.locked ==> OwnerSigned(s.policy, s.locked[k]))
    && (forall k :: k in s.confirmed ==>
          && s.confirmed[k] in proven && OwnerSigned(s.policy, s.confirmed[k])
          && k == (s.confirmed[k].transfer.from, s.confirmed[k].transfer.fromSeq))
  }

  /** The vote is for an order that its owner signed, and says exactly that under the authority's key. */
  ghost predicate VoteProper(o: Origin, e: VoteEvent) {
    var v := e.vote;
    && OwnerSigned(o.policy, e.order)
    && v.authority == o.id && v.policy == o.policy && v.network == e.order.network
    && v.transfer == e.order.transfer && v.round == e.order.round
    && v.signature.signer == o.key
    && v.signature.payload == AuthorityVote(o.id, v.committeeId, v.policy, v.network, v.transfer, v.round)
  }

  ghost predicate AttestationProper(o: Origin, a: Attestation, proven: set<Order>) {
    && a.order in proven && a.authority == o.id
    && (a.account, a.seqNo) == (a.order.transfer.from, a.order.transfer.fromSeq)
    && a.signature.signer == o.key && a.signature.payload == Effect(a.committeeId, a.account, a.seqNo, a.order)
  }

  ghost predicate EpochVoteProper(o: Origin, v: EpochVote) {
    && v.authority == o.id && v.frontierDigest == multiset(v.frontier)
    && v.signature.signer == o.key
    && v.signature.payload == EpochAssent(o.id, v.committeeId, v.epoch, v.nextCommitteeId, v.frontierDigest)
  }

  ghost predicate LetOutProper(n: Node, proven: set<Order>) {
    && (forall i :: 0 <= i < |n.votes| ==> VoteProper(n.origin, n.votes[i]))
    && (forall a :: a in n.attested ==> AttestationProper(n.origin, a, proven))
    && (forall v :: v in n.epochVotes ==> EpochVoteProper(n.origin, v))
  }

  ghost predicate Proper(n: Node, proven: set<Order>) {
    && OrdersIn(n.auth, proven)
    && (Replay(n.origin, n.auth.journal).Ok? ==> OrdersIn(Replay(n.origin, n.auth.journal).value, proven))
    && LetOutProper(n, proven)
  }

  // ---- What one step does to the orders held ----

  /** Orders held after a step were held before or are new in `added` and owned. */
  lemma HandleOrders(s: Authority, o: Order, io: Io, proven: set<Order>)
    requires OrdersIn(s, proven)
    ensures OrdersIn(Handle(s, o, io).0, proven) && Handle(s, o, io).0.policy == s.policy
    ensures var j := Handle(s, o, io).0.journal;
            j == s.journal || (j == s.journal + [Locked(o)] && OwnerSigned(s.policy, o))
    ensures Handle(s, o, io).1.Ok? ==> OwnerSigned(s.policy, o)
  {
    SignsExactly(s, o, io);
    VotingChanges(s, o, io);
    if GateOpen(s) && !Held(s, o) && Handle(s, o, io).1 == Err(JournalFailed) {
      LockFailure(s, o, io);
    }
    hide Handle, OwnerSigned;
  }

  lemma LockFailure(s: Authority, o: Order, io: Io)
    requires Handle(s, o, io).1 == Err(JournalFailed)
    ensures OwnerSigned(s.policy, o)
  {
    OwnerCheckExactly(s.policy, o);
    hide VerifyOrder, OwnerSigned, Preflight;
  }

  lemma ConfirmOrders(s: Authority, v: Verified, c: Committee, member: bool, io: Io, proven: set<Order>)
    requires OrdersIn(s, proven)
    ensures var added := Presented(s, OnConfirm(v, c, member, io));
            var s' := Confirm(s, v, c, member, io).0;
            && OrdersIn(s', proven + added) && s'.policy == s.policy
            && (s'.journal == s.journal
                || (s'.journal == s.journal + [Confirmed(v.order)] && v.order in added
                    && OwnerSigned(s.policy, v.order)))
  {
    ConfirmsExactly(s, v, c, member, io);
    ConfirmingChanges(s, v, c, member, io);
    ConfirmJournals(s, v, c, member, io);
    hide Confirm, OwnerSigned;
  }

  lemma ConfirmJournals(s: Authority, v: Verified, c: Committee, member: bool, io: Io)
    ensures var (s', r) := Confirm(s, v, c, member, io);
            && s'.policy == s.policy
            && (r != Ok(Applied) && r != Err(ConfirmJournal) ==> s'.journal == s.journal)
            && (s'.journal == s.journal || s'.journal == s.journal + [Confirmed(v.order)])
  {
    hide VerifyOrder, Apply, Unlock;
  }

  /** Replaying one more record of an owned and proven order keeps what is held owned and proven. */
  lemma ReplayOrders(r: Authority, rec: Record, proven: set<Order>)
    requires OrdersIn(r, proven) && ReplayRecord(r, rec).Ok? && !rec.Snapshot?
    requires rec.Locked? ==> OwnerSigned(r.policy, rec.order)
    requires rec.Confirmed? ==> OwnerSigned(r.policy, rec.order) && rec.order in proven
    ensures OrdersIn(ReplayRecord(r, rec).value, proven)
  {
    hide OwnerSigned, Apply, BuildCommittee;
  }

  lemma EpochOrders(s: Authority, e: Event, proven: set<Order>)
    requires OrdersIn(s, proven) && (e.OnFence? || e.OnInstall?)
    ensures var s' := if e.OnFence? then Fence(s, e.proposal, e.io).0 else Install(s, e.cert, e.prior, e.io).0;
            && OrdersIn(s', proven)
            && (s'.journal == s.journal
                || (e.OnFence? && s'.journal == s.journal + [EpochFence(e.proposal)])
                || (e.OnInstall? && s'.journal == s.journal + [EpochInstalled(e.cert)]))
  {
    hide OwnerSigned, BuildCommittee, EpochCertified;
  }

  lemma MoreProven(s: Authority, proven: set<Order>, more: set<Order>)
    requires OrdersIn(s, proven)
    ensures OrdersIn(s, proven + more)
  {
  }

  /** The log stays, or grows by a record of an owned and proven order, or becomes a snapshot. */
  lemma LogOrders(n: Node, n': Node, rec: Record, proven: set<Order>)
    requires Inv(n) && Inv(n') && n'.origin == n.origin
    requires Replay(n.origin, n.auth.journal).Ok? ==> OrdersIn(Replay(n.origin, n.auth.journal).value, proven)
    requires n'.auth.journal == n.auth.journal
             || (n'.auth.journal == n.auth.journal + [rec] && !rec.Snapshot?
                 && (rec.Locked? ==> OwnerSigned(n.origin.policy, rec.order))
                 && (rec.Confirmed? ==> OwnerSigned(n.origin.policy, rec.order) && rec.order in proven))
    ensures Replay(n.origin, n'.auth.journal).Ok? ==> OrdersIn(Replay(n.origin, n'.auth.journal).value, proven)
  {
    Replays(n);
    Replays(n');
    if n'.auth.journal != n.auth.journal {
      ReplaySnoc(n.origin, n.auth.journal, rec);
      ReplayOrders(Replay(n.origin, n.auth.journal).value, rec, proven);
    }
    hide Inv, OrdersIn, Replay, OwnerSigned;
  }

  lemma Replays(n: Node)
    requires Inv(n)
    ensures Replay(n.origin, n.auth.journal).Ok? && Replay(n.origin, n.auth.journal).value.policy == n.origin.policy
    ensures n.auth.policy == n.origin.policy && n.auth.id == n.origin.id && n.auth.key == n.origin.key
  {
  }

  // ---- What one step lets out ----

  lemma LetOutStays(n: Node, n': Node, proven: set<Order>, more: set<Order>)
    requires LetOutProper(n, proven) && n'.origin == n.origin
    requires n'.votes == n.votes && n'.attested == n.attested && n'.epochVotes == n.epochVotes
    ensures LetOutProper(n', proven + more)
  {
    hide VoteProper, EpochVoteProper;
  }

  lemma HandleLetsOut(n: Node, o: Order, io: Io, proven: set<Order>)
    requires LetOutProper(n, proven) && Inv(n)
    ensures LetOutProper(Next(n, OnHandle(o, io)), proven)
  {
    Replays(n);
    SignsExactly(n.auth, o, io);
    hide Inv, Handle, EpochVoteProper, AttestationProper, OwnerSigned;
    var n' := Next(n, OnHandle(o, io));
    if Handle(n.auth, o, io).1.Ok? {
      assert n'.votes == n.votes + [n'.votes[|n.votes|]];
      assert o.policy == n.origin.policy by {
        assert OwnerSigned(n.auth.policy, o);
        OwnedPolicy(n.auth.policy, o);
      }
      assert VoteProper(n.origin, n'.votes[|n.votes|]);
    } else {
      assert n'.votes == n.votes;
    }
    hide VoteProper;
  }

  lemma OwnedPolicy(policy: Policy, o: Order)
    requires OwnerSigned(policy, o)
    ensures o.policy == policy
  {
  }

  lemma AttestLetsOut(n: Node, account: AccountId, seqNo: U64, proven: set<Order>)
    requires LetOutProper(n, proven) && Inv(n) && OrdersIn(n.auth, proven)
    ensures LetOutProper(Next(n, OnAttest(account, seqNo)), proven)
  {
    Replays(n);
    hide Inv, EpochVoteProper, VoteProper, OwnerSigned;
  }

  lemma EpochVoteLetsOut(n: Node, f: Frontier, proven: set<Order>)
    requires LetOutProper(n, proven) && Inv(n)
    ensures LetOutProper(Next(n, OnEpochVote(f)), proven)
  {
    Replays(n);
    hide Inv, AttestationProper, VoteProper, BuildCommittee;
  }

  // ---- Steps ----

  lemma OperationKeepsProper(n: Node, e: Event, proven: set<Order>)
    requires Inv(n) && Proper(n, proven) && Enabled(n, e) && (e.OnHandle? || e.OnConfirm? || e.OnFence? || e.OnInstall?)
    ensures Proper(Next(n, e), proven + Presented(n.auth, e))
  {
    var n', added := Next(n, e), Presented(n.auth, e);
    StepKeepsInv(n, e);
    OriginStays(n, e);
    Replays(n);
    if Replay(n.origin, n.auth.journal).Ok? {
      MoreProven(Replay(n.origin, n.auth.journal).value, proven, added);
    }
    assert proven + {} == proven;
    match e
    case OnHandle(o, io) =>
      HandleOrders(n.auth, o, io, proven);
      HandleLetsOut(n, o, io, proven);
      hide Inv, OrdersIn, LetOutProper, Replay, OwnerSigned, Handle, Presentable;
      LogOrders(n, n', Locked(o), proven);
    case OnConfirm(v, c, member, io) =>
      ConfirmOrders(n.auth, v, c, member, io, proven);
      LetOutStays(n, n', proven, added);
      hide Inv, OrdersIn, LetOutProper, Replay, OwnerSigned, Confirm, Presentable;
      LogOrders(n, n', Confirmed(v.order), proven + added);
    case OnFence(p, io) =>
      EpochOrders(n.auth, e, proven);
      LetOutStays(n, n', proven, {});
      hide Inv, OrdersIn, LetOutProper, Replay, OwnerSigned, Fence, Presentable;
      LogOrders(n, n', EpochFence(p), proven);
    case OnInstall(cert, prior, io) =>
      EpochOrders(n.auth, e, proven);
      LetOutStays(n, n', proven, {});
      hide Inv, OrdersIn, LetOutProper, Replay, OwnerSigned, Install, Presentable;
      LogOrders(n, n', EpochInstalled(cert), proven);
  }

  lemma OriginStays(n: Node, e: Event)
    ensures Next(n, e).origin == n.origin
  {
  }

  lemma OtherKeepsProper(n: Node, e: Event, proven: set<Order>)
    requires Inv(n) && Proper(n, proven) && Enabled(n, e)
    requires e.OnAttest? || e.OnEpochVote? || e.OnCompact? || e.OnCrash?
    ensures Proper(Next(n, e), proven)
  {
    Replays(n);
    match e
    case OnAttest(account, seqNo) =>
      AttestLetsOut(n, account, seqNo, proven);
      hide Inv, OrdersIn, LetOutProper, Replay;
    case OnEpochVote(f) =>
      EpochVoteLetsOut(n, f, proven);
      hide Inv, OrdersIn, LetOutProper, Replay, SignEpochVote;
    case OnCompact(sn, io) => CompactKeepsProper(n, sn, io, proven);
    case OnCrash => CrashKeepsProper(n, proven);
  }

  lemma CompactKeepsProper(n: Node, sn: SnapshotData, io: Io, proven: set<Order>)
    requires Inv(n) && Proper(n, proven) && Captures(sn, n.auth)
    ensures Proper(Next(n, OnCompact(sn, io)), proven)
  {
    SnapshotOrders(n, sn, proven);
    CompactShape(n, sn, io);
    var n' := Next(n, OnCompact(sn, io));
    LetOutStays(n, n', proven, {});
    assert proven + {} == proven;
    hide Inv, Replay, OrdersIn, LetOutProper, Captures, Next;
    SameOrders(n.auth, n'.auth, proven);
  }

  lemma SnapshotOrders(n: Node, sn: SnapshotData, proven: set<Order>)
    requires Inv(n) && OrdersIn(n.auth, proven) && Captures(sn, n.auth)
    ensures Replay(n.origin, [Snapshot(sn)]).Ok? && OrdersIn(Replay(n.origin, [Snapshot(sn)]).value, proven)
  {
    SnapshotReplays(n.origin, n.auth, sn);
    Replays(n);
    SameOrders(n.auth, Replay(n.origin, [Snapshot(sn)]).value, proven);
    hide Inv, Replay, OrdersIn, Captures;
  }

  lemma SameOrders(s: Authority, t: Authority, proven: set<Order>)
    requires OrdersIn(s, proven) && t.locked == s.locked && t.confirmed == s.confirmed && t.policy == s.policy
    ensures OrdersIn(t, proven)
  {
    hide OwnerSigned;
  }

  lemma CompactShape(n: Node, sn: SnapshotData, io: Io)
    ensures var n' := Next(n, OnCompact(sn, io));
            && n'.origin == n.origin && n'.votes == n.votes && n'.attested == n.attested
            && n'.epochVotes == n.epochVotes
            && n'.auth.locked == n.auth.locked && n'.auth.confirmed == n.auth.confirmed
            && n'.auth.policy == n.auth.policy
            && (n'.auth.journal == n.auth.journal || n'.auth.journal == [Snapshot(sn)])
  {
  }

  lemma CrashKeepsProper(n: Node, proven: set<Order>)
    requires Inv(n) && Proper(n, proven)
    ensures Proper(Next(n, OnCrash), proven)
  {
    JournalStays(n);
    hide OrdersIn, VoteProper, AttestationProper, EpochVoteProper;
  }

  lemma JournalStays(n: Node)
    requires Inv(n)
    ensures Replay(n.origin, n.auth.journal).Ok? && Replay(n.origin, n.auth.journal).value.journal == n.auth.journal
  {
  }

  // ---- Runs ----

  /** The orders for which the run has presented certificates before its k-th state. */
  ghost function ProvenBy(nodes: seq<Node>, events: seq<Event>, k: nat): (orders: set<Order>)
    requires k < |nodes| && |nodes| == |events| + 1
  {
    if k == 0 then {} else ProvenBy(nodes, events, k - 1) + Presented(nodes[k - 1].auth, events[k - 1])
  }

  lemma {:induction false} ProvenWhen(nodes: seq<Node>, events: seq<Event>, k: nat, o: Order) returns (j: nat)
    requires k < |nodes| && |nodes| == |events| + 1 && o in ProvenBy(nodes, events, k)
    ensures j < k && events[j].OnConfirm? && events[j].verified.order == o
    ensures Presentable(nodes[j].auth, events[j].verified, events[j].committee, events[j].member)
  {
    if o in Presented(nodes[k - 1].auth, events[k - 1]) {
      j := k - 1;
    } else {
      j := ProvenWhen(nodes, events, k - 1, o);
    }
  }

  lemma InitialProper(n: Node)
    requires Initial(n)
    ensures Proper(n, {})
  {
  }

  lemma {:induction false} RunKeepsProper(nodes: seq<Node>, events: seq<Event>, k: nat)
    requires Run(nodes, events) && k < |nodes|
    ensures Proper(nodes[k], ProvenBy(nodes, events, k))
  {
    hide Inv, Proper, Next, Presentable;
    if k == 0 {
      InitialProper(nodes[0]);
    } else {
      RunKeepsProper(nodes, events, k - 1);
      RunKeepsInv(nodes, events, k - 1);
      assert Linked(nodes, events, k - 1);
      var n, e, proven := nodes[k - 1], events[k - 1], ProvenBy(nodes, events, k - 1);
      if e.OnHandle? || e.OnConfirm? || e.OnFence? || e.OnInstall? {
        OperationKeepsProper(n, e, proven);
      } else {
        OtherKeepsProper(n, e, proven);
        assert proven + {} == proven;
      }
    }
  }

  /** In every run, crashes, failed writes and compaction included, every vote is for an order that the registered
      owner of its sender signed, over exactly this network, policy, transfer and round, and it says that under the
      authority's own key. */
  lemma VotesAreOwned(nodes: seq<Node>, events: seq<Event>, k: nat, i: nat)
    requires Run(nodes, events) && k < |nodes| && i < |nodes[k].votes|
    ensures var policy, o, v := nodes[k].origin.policy, nodes[k].votes[i].order, nodes[k].votes[i].vote;
            && o.transfer.from in policy.owners && o.transfer.to in policy.owners
            && o.ownerSig.signer == policy.owners[o.transfer.from]
            && o.ownerSig.payload == OwnerIntent(policy, policy.network, v.transfer, v.round)
            && v.authority == nodes[k].origin.id && v.signature.signer == nodes[k].origin.key
            && v.signature.payload
               == AuthorityVote(v.authority, v.committeeId, policy, policy.network, v.transfer, v.round)
  {
    RunKeepsProper(nodes, events, k);
    assert VoteProper(nodes[k].origin, nodes[k].votes[i]);
    hide Run, OrdersIn, LetOutProper, Replay;
  }

  /** In every run each confirmed order sits under its own sequence, carries its owner's signature, and was proven:
      some event before presented the authority, running, with a certificate for it of the committee it then had. */
  lemma ConfirmedAreProven(nodes: seq<Node>, events: seq<Event>, k: nat, key: (AccountId, U64)) returns (j: nat)
    requires Run(nodes, events) && k < |nodes| && key in nodes[k].auth.confirmed
    ensures var policy, o := nodes[k].origin.policy, nodes[k].auth.confirmed[key];
            && key == (o.transfer.from, o.transfer.fromSeq) && o.network == policy.network && o.policy == policy
            && o.transfer.from in policy.owners && o.transfer.to in policy.owners
            && o.ownerSig.signer == policy.owners[o.transfer.from]
            && o.ownerSig.payload == OwnerIntent(policy, policy.network, o.transfer, o.round)
            && j < k && events[j].OnConfirm? && events[j].verified.order == o && !nodes[j].auth.poisoned
            && events[j].verified.committeeId == nodes[j].auth.committeeId == events[j].committee.Id()
  {
    RunKeepsProper(nodes, events, k);
    RunKeepsInv(nodes, events, k);
    Replays(nodes[k]);
    j := ProvenWhen(nodes, events, k, nodes[k].auth.confirmed[key]);
    hide Inv, Run, LetOutProper, Replay;
  }

  /** In every run each attestation is signed by the authority over an order proven before, under that order's own
      account and sequence. */
  lemma AttestedAreProven(nodes: seq<Node>, events: seq<Event>, k: nat, a: Attestation) returns (j: nat)
    requires Run(nodes, events) && k < |nodes| && a in nodes[k].attested
    ensures a.account == a.order.transfer.from && a.seqNo == a.order.transfer.fromSeq
    ensures a.authority == nodes[k].origin.id && a.signature.signer == nodes[k].origin.key
    ensures a.signature.payload == Effect(a.committeeId, a.account, a.seqNo, a.order)
    ensures j < k && events[j].OnConfirm? && events[j].verified.order == a.order
    ensures events[j].verified.committeeId == nodes[j].auth.committeeId == events[j].committee.Id()
  {
    RunKeepsProper(nodes, events, k);
    assert AttestationProper(nodes[k].origin, a, ProvenBy(nodes, events, k));
    j := ProvenWhen(nodes, events, k, a.order);
    hide Run, OrdersIn, LetOutProper, Replay;
  }
}
