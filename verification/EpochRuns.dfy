/** The fence / install / catch-up discipline of an epoch change, over whole runs. */
module EpochRuns {
  import opened Basics
  import opened Ledgers
  import opened Orders
  import opened Authorities
  import opened AuthorityRuns

  ghost predicate CrashFree(events: seq<Event>) {
    forall i :: 0 <= i < |events| ==> !events[i].OnCrash?
  }

  /** Every frontier committed so far is covered by the ledger. */
  ghost predicate CoversAll(l: Ledger, frontiers: seq<Frontier>) {
    forall k :: 0 <= k < |frontiers| ==> Covers(l, frontiers[k])
  }

  ghost predicate EpochInv(n: Node) {
    && n.auth.epoch == |n.frontiers|
    && InstallTracked(n.auth)
    && CoversAll(n.auth.ledger, n.frontiers)
    && (forall i :: 0 <= i < |n.votes| ==> n.votes[i].epoch <= |n.frontiers|
                                           && CoversAll(n.votes[i].ledger, n.frontiers[..n.votes[i].epoch]))
  }

  /** How one operation may move the epoch dimension: stay, or complete the install of frontier `done`. */
  ghost predicate EpochShape(s: Authority, s': Authority, done: Option<Frontier>) {
    && (forall id :: NextSeq(s'.ledger, id) >= NextSeq(s.ledger, id))
    && InstallTracked(s')
    && (match done
        case None => s'.epoch == s.epoch && (s'.epochState.Active? ==> s.epochState.Active?)
        case Some(f) => s'.epoch == s.epoch + 1 && s'.epochState.Active? && Covers(s'.ledger, f))
  }

  ghost predicate InstallTracked(s: Authority) {
    s.epochState.Installing? ==> s.epochState.cert.epoch == s.epoch + 1
  }

  lemma AdmitEpoch(s: Authority, o: Order, io: Io)
    requires s.epochState.Active?
    ensures var s' := Admit(s, o, io).0;
            s'.ledger == s.ledger && s'.epoch == s.epoch && s'.epochState == s.epochState
  {
  }

  lemma HandleEpoch(s: Authority, o: Order, io: Io)
    requires InstallTracked(s)
    ensures EpochShape(s, Handle(s, o, io).0, Completed(s, OnHandle(o, io)))
    ensures Handle(s, o, io).0.ledger == s.ledger
    ensures Handle(s, o, io).1.Ok? ==> s.epochState.Active? || Handle(s, o, io).0.epoch == s.epoch + 1
  {
    if !s.poisoned && !s.epochState.Fencing? && (s.epochState.Installing? ==> InstallCovered(s)) {
      AdmitEpoch(CompleteInstall(s), o, io);
    }
  }

  lemma ConfirmEpoch(s: Authority, v: Verified, c: Committee, member: bool, io: Io)
    requires InstallTracked(s)
    ensures EpochShape(s, Confirm(s, v, c, member, io).0, Completed(s, OnConfirm(v, c, member, io)))
  {
    if Apply(s.ledger, v.order.transfer).Ok? {
      ApplyConserves(s.ledger, v.order.transfer);
    }
  }

  lemma FenceEpoch(s: Authority, p: EpochProposal, io: Io)
    requires InstallTracked(s)
    ensures EpochShape(s, Fence(s, p, io).0, None)
  {
  }

  lemma EnterEpochEpoch(s: Authority, cert: EpochCert, next: Committee, io: Io)
    requires InstallTracked(s) && cert.epoch == s.epoch + 1 && !s.epochState.Installing?
    ensures var (s', r) := EnterEpoch(s, cert, next, io);
            EpochShape(s, s', if r == Ok(Installed) then Some(cert.frontier) else None)
  {
  }

  lemma InstallEpoch(s: Authority, cert: EpochCert, prior: Committee, io: Io)
    requires InstallTracked(s)
    ensures EpochShape(s, Install(s, cert, prior, io).0, Completed(s, OnInstall(cert, prior, io)))
  {
    if InstallGuard(s, cert, prior).None? && !s.epochState.Installing? {
      EnterEpochEpoch(s, cert, BuildCommittee(cert.nextRoster, s.policy, cert.epoch).value, io);
    }
  }

  /** One crash-free step: the epoch moves by one exactly when an install completes, gates open only so, and a
      vote comes from an open gate. */
  ghost predicate EpochStep(n: Node, n': Node, done: Option<Frontier>) {
    && EpochShape(n.auth, n'.auth, done)
    && n'.frontiers == (if done.Some? then n.frontiers + [done.value] else n.frontiers)
    && (|| n'.votes == n.votes
        || (&& |n'.votes| == |n.votes| + 1 && n'.votes[..|n.votes|] == n.votes
            && n'.votes[|n.votes|].epoch == n'.auth.epoch && n'.votes[|n.votes|].ledger == n'.auth.ledger
            && (n.auth.epochState.Active? || n'.auth.epoch == n.auth.epoch + 1)))
  }

  lemma NextEpochStep(n: Node, e: Event)
    requires InstallTracked(n.auth) && !e.OnCrash?
    ensures EpochStep(n, Next(n, e), Completed(n.auth, e))
  {
    match e
    case OnHandle(o, io) => HandleEpoch(n.auth, o, io);
    case OnConfirm(v, c, member, io) => ConfirmEpoch(n.auth, v, c, member, io);
    case OnFence(p, io) => FenceEpoch(n.auth, p, io);
    case OnInstall(cert, prior, io) => InstallEpoch(n.auth, cert, prior, io);
    case OnCompact(sn, io) =>
    case OnAttest(account, seqNo) =>
    case OnEpochVote(f) =>
  }

  lemma CoversGrows(l: Ledger, l': Ledger, frontiers: seq<Frontier>)
    requires CoversAll(l, frontiers) && forall id :: NextSeq(l', id) >= NextSeq(l, id)
    ensures CoversAll(l', frontiers)
  {
    forall k | 0 <= k < |frontiers| ensures Covers(l', frontiers[k]) {
      assert Covers(l, frontiers[k]);
    }
  }

  lemma StepKeepsEpochInv(n: Node, n': Node, done: Option<Frontier>)
    requires EpochInv(n) && EpochStep(n, n', done)
    ensures EpochInv(n')
    ensures n.frontiers <= n'.frontiers
  {
    CoversGrows(n.auth.ledger, n'.auth.ledger, n.frontiers);
    forall i | 0 <= i < |n.votes|
      ensures n'.votes[i] == n.votes[i]
      ensures n.votes[i].epoch <= |n'.frontiers| && n'.frontiers[..n.votes[i].epoch] == n.frontiers[..n.votes[i].epoch]
    {
      assert n'.votes[..|n.votes|][i] == n.votes[i];
    }
    assert n'.frontiers[..n'.auth.epoch] == n'.frontiers;
  }

  lemma NextKeepsEpochInv(n: Node, e: Event)
    requires EpochInv(n) && !e.OnCrash?
    ensures EpochInv(Next(n, e))
  {
    NextEpochStep(n, e);
    StepKeepsEpochInv(n, Next(n, e), Completed(n.auth, e));
  }

  lemma InitialEpochInv(n: Node)
    requires Initial(n)
    ensures EpochInv(n)
  {
  }

  lemma {:induction false} RunKeepsEpochInv(nodes: seq<Node>, events: seq<Event>, i: nat)
    requires Run(nodes, events) && CrashFree(events) && i < |nodes|
    ensures EpochInv(nodes[i])
  {
    if i == 0 {
      InitialEpochInv(nodes[0]);
    } else {
      RunKeepsEpochInv(nodes, events, i - 1);
      assert Linked(nodes, events, i - 1);
      NextKeepsEpochInv(nodes[i - 1], events[i - 1]);
    }
  }

  /** How many of the first `i` events completed an install. */
  function Completions(nodes: seq<Node>, events: seq<Event>, i: nat): (r: nat)
    requires i <= |events| && |nodes| == |events| + 1
  {
    if i == 0 then 0
    else Completions(nodes, events, i - 1) + Step(nodes[i - 1].auth, events[i - 1])
  }

  function Step(s: Authority, e: Event): (r: nat) {
    if Completed(s, e).Some? then 1 else 0
  }

  /** The epoch is the number of installs completed so far, whether at once or by catching up, and rises by
      one exactly with each; an authority that was gated opens only so. */
  lemma {:induction false} EpochCountsInstalls(nodes: seq<Node>, events: seq<Event>, i: nat)
    requires Run(nodes, events) && CrashFree(events) && i <= |events|
    ensures nodes[i].auth.epoch == Completions(nodes, events, i) == |nodes[i].frontiers|
    ensures i < |events| ==>
              && nodes[i + 1].auth.epoch == nodes[i].auth.epoch + Step(nodes[i].auth, events[i])
              && (!nodes[i].auth.epochState.Active? && nodes[i + 1].auth.epochState.Active? ==>
                        Completed(nodes[i].auth, events[i]).Some?)
    decreases i
  {
    RunKeepsEpochInv(nodes, events, i);
    if i < |events| {
      RunEpochStep(nodes, events, i);
    }
    if i > 0 {
      EpochCountsInstalls(nodes, events, i - 1);
    }
  }

  /** Every vote of a later epoch was signed from a ledger covering the frontier of every epoch
      change that led there. */
  lemma LaterVotesAreCaughtUp(nodes: seq<Node>, events: seq<Event>, i: nat, v: nat, k: nat)
    requires Run(nodes, events) && CrashFree(events) && i < |nodes| && v < |nodes[i].votes|
    requires k < nodes[i].votes[v].epoch
    ensures k < |nodes[i].frontiers| && Covers(nodes[i].votes[v].ledger, nodes[i].frontiers[k])
  {
    RunKeepsEpochInv(nodes, events, i);
    var e := nodes[i].votes[v].epoch;
    assert nodes[i].frontiers[..e][k] == nodes[i].frontiers[k];
  }

  /** Between a fence and the next completed install the gate is shut. */
  ghost predicate Gated(n: Node, e0: nat) {
    n.auth.epoch > e0 || (n.auth.epoch == e0 && !n.auth.epochState.Active?)
  }

  lemma GateStep(n: Node, n': Node, done: Option<Frontier>, e0: nat, base: nat)
    requires EpochStep(n, n', done) && Gated(n, e0) && base <= |n.votes|
    requires forall v :: base <= v < |n.votes| ==> n.votes[v].epoch > e0
    ensures Gated(n', e0) && base <= |n'.votes|
    ensures forall v :: base <= v < |n'.votes| ==> n'.votes[v].epoch > e0
  {
    forall v | base <= v < |n'.votes|
      ensures n'.votes[v].epoch > e0
    {
      if v < |n.votes| {
        assert n'.votes[..|n.votes|][v] == n.votes[v];
      }
    }
  }

  lemma RunEpochStep(nodes: seq<Node>, events: seq<Event>, k: nat)
    requires Run(nodes, events) && CrashFree(events) && k < |events|
    ensures EpochStep(nodes[k], nodes[k + 1], Completed(nodes[k].auth, events[k]))
  {
    RunKeepsEpochInv(nodes, events, k);
    assert Linked(nodes, events, k);
    NextEpochStep(nodes[k], events[k]);
  }

  lemma {:induction false} GateHolds(nodes: seq<Node>, events: seq<Event>, i: nat, j: nat)
    requires Run(nodes, events) && CrashFree(events) && i <= j < |nodes|
    requires !nodes[i].auth.epochState.Active?
    ensures Gated(nodes[j], nodes[i].auth.epoch)
    ensures |nodes[i].votes| <= |nodes[j].votes|
    ensures forall v :: |nodes[i].votes| <= v < |nodes[j].votes| ==> nodes[j].votes[v].epoch > nodes[i].auth.epoch
    decreases j
  {
    if i < j {
      GateHolds(nodes, events, i, j - 1);
      RunEpochStep(nodes, events, j - 1);
      GateStep(nodes[j - 1], nodes[j], Completed(nodes[j - 1].auth, events[j - 1]), nodes[i].auth.epoch,
               |nodes[i].votes|);
    }
  }

  /** Epoch discipline: after a fence, every later vote comes after a completed install and from a
      ledger that covers the frontier that install committed. */
  lemma FencedVotesWait(nodes: seq<Node>, events: seq<Event>, i: nat, j: nat, v: nat)
    requires Run(nodes, events) && CrashFree(events) && i <= j < |nodes|
    requires nodes[i].auth.epochState.Fencing?
    requires |nodes[i].votes| <= v < |nodes[j].votes|
    ensures nodes[i].auth.epoch < nodes[j].auth.epoch == |nodes[j].frontiers|
    ensures Covers(nodes[j].votes[v].ledger, nodes[j].frontiers[nodes[i].auth.epoch])
  {
    GateHolds(nodes, events, i, j);
    RunKeepsEpochInv(nodes, events, j);
    LaterVotesAreCaughtUp(nodes, events, j, v, nodes[i].auth.epoch);
  }

  // ---- The fence across crashes ----

  /** The fence is up, in memory and in the log. */
  ghost predicate FenceDurable(n: Node, p: EpochProposal) {
    && n.auth.epochState == Fencing(p)
    && Replay(n.origin, n.auth.journal).Ok?
    && Replay(n.origin, n.auth.journal).value.epochState == Fencing(p)
  }

  lemma FenceConfirm(n: Node, v: Verified, c: Committee, member: bool, io: Io, p: EpochProposal)
    requires Inv(n) && FenceDurable(n, p)
    ensures FenceDurable(Next(n, OnConfirm(v, c, member, io)), p)
  {
    ReplaySnoc(n.origin, n.auth.journal, Confirmed(v.order));
    ConfirmShape(n.auth, v, c, member, io);
  }

  lemma FenceInstall(n: Node, cert: EpochCert, prior: Committee, io: Io, p: EpochProposal)
    requires FenceDurable(n, p)
    requires Next(n, OnInstall(cert, prior, io)).stretch == n.stretch
    ensures FenceDurable(Next(n, OnInstall(cert, prior, io)), p)
  {
    if InstallGuard(n.auth, cert, prior).None? {
      var next := BuildCommittee(cert.nextRoster, n.auth.policy, cert.epoch).value;
      assert Install(n.auth, cert, prior, io) == EnterEpoch(n.auth, cert, next, io);
      assert io != LostOnError ==> |EnterEpoch(n.auth, cert, next, io).0.journal| == |n.auth.journal| + 1;
    }
  }

  lemma FenceStep(n: Node, e: Event, p: EpochProposal)
    requires Inv(n) && FenceDurable(n, p) && Enabled(n, e)
    requires Next(n, e).stretch == n.stretch
    ensures FenceDurable(Next(n, e), p) && Next(n, e).votes == n.votes
  {
    match e
    case OnConfirm(v, c, member, io) => FenceConfirm(n, v, c, member, io, p);
    case OnInstall(cert, prior, io) => FenceInstall(n, cert, prior, io, p);
    case OnFence(q, io) =>
    case OnHandle(o, io) =>
    case OnCompact(sn, io) =>
    case OnAttest(account, seqNo) =>
    case OnEpochVote(f) =>
    case OnCrash =>
  }

  lemma FenceIsDurable(n: Node)
    requires Inv(n) && n.auth.epochState.Fencing? && !n.auth.poisoned
    ensures FenceDurable(n, n.auth.epochState.proposal)
  {
  }

  lemma FenceRunStep(nodes: seq<Node>, events: seq<Event>, k: nat, p: EpochProposal)
    requires Run(nodes, events) && k < |events| && FenceDurable(nodes[k], p)
    requires nodes[k + 1].stretch == nodes[k].stretch
    ensures FenceDurable(nodes[k + 1], p) && nodes[k + 1].votes == nodes[k].votes
  {
    RunKeepsInv(nodes, events, k);
    assert Linked(nodes, events, k);
    FenceStep(nodes[k], events[k], p);
  }

  /** A raised fence survives crashes, failed writes and compaction attempts: until an epoch
      certificate reaches the journal the authority stays fenced on the same proposal and signs
      nothing. */
  lemma {:induction false} FenceSurvivesCrashes(nodes: seq<Node>, events: seq<Event>, i: nat, j: nat)
    requires Run(nodes, events) && i <= j < |nodes|
    requires nodes[i].auth.epochState.Fencing? && !nodes[i].auth.poisoned
    requires forall k :: i <= k < j ==> nodes[k + 1].stretch == nodes[k].stretch
    ensures FenceDurable(nodes[j], nodes[i].auth.epochState.proposal)
    ensures nodes[j].votes == nodes[i].votes
    decreases j
  {
    if i == j {
      RunKeepsInv(nodes, events, i);
      FenceIsDurable(nodes[i]);
    } else {
      FenceSurvivesCrashes(nodes, events, i, j - 1);
      FenceRunStep(nodes, events, j - 1, nodes[i].auth.epochState.proposal);
    }
  }

  // ---- An accepted install across crashes ----

  /** The ledger covers the frontier, or the gate is shut waiting for exactly it. */
  ghost predicate Waits(s: Authority, f: Frontier) {
    Covers(s.ledger, f) || (s.epochState.Installing? && s.epochState.cert.frontier == f)
  }

  /** This holds of the live authority and of the one a recovery would rebuild. */
  ghost predicate Holding(n: Node, f: Frontier) {
    Waits(n.auth, f) && Replay(n.origin, n.auth.journal).Ok? && Waits(Replay(n.origin, n.auth.journal).value, f)
  }

  lemma CoversMore(l: Ledger, l': Ledger, f: Frontier)
    requires Covers(l, f) && forall id :: NextSeq(l', id) >= NextSeq(l, id)
    ensures Covers(l', f)
  {
  }

  /** A step that leaves the log alone, or adds one record whose replay keeps waiting. */
  lemma HoldWrite(n: Node, n': Node, rec: Record, f: Frontier)
    requires Holding(n, f) && Waits(n'.auth, f) && n'.origin == n.origin
    requires n'.auth.journal == n.auth.journal || n'.auth.journal == n.auth.journal + [rec]
    requires var r := Replay(n.origin, n.auth.journal).value;
             n'.auth.journal != n.auth.journal ==> ReplayRecord(r, rec).Ok? && Waits(ReplayRecord(r, rec).value, f)
    ensures Holding(n', f)
  {
    hide Waits, ReplayRecord;
    ReplaySnoc(n.origin, n.auth.journal, rec);
  }

  lemma HandleWaits(s: Authority, o: Order, io: Io, f: Frontier)
    requires Waits(s, f)
    ensures var (s', r) := Handle(s, o, io);
            Waits(s', f) && (r.Ok? ==> Covers(s'.ledger, f))
  {
    hide Covers;
    if !s.poisoned && !s.epochState.Fencing? && (s.epochState.Installing? ==> InstallCovered(s)) {
      AdmitEpoch(CompleteInstall(s), o, io);
    }
  }

  lemma HoldHandle(n: Node, o: Order, io: Io, f: Frontier)
    requires Holding(n, f)
    ensures var n' := Next(n, OnHandle(o, io));
            Holding(n', f) && (Handle(n.auth, o, io).1.Ok? ==> Covers(n'.auth.ledger, f))
  {
    HandleWaits(n.auth, o, io, f);
    HandleShape(n.auth, o, io);
    hide Handle, Covers, Replay, Waits, VoteFor;
    var r := Replay(n.origin, n.auth.journal).value;
    LockedWaits(r, o, f);
    HoldWrite(n, Next(n, OnHandle(o, io)), Locked(o), f);
  }

  lemma LockedWaits(r: Authority, o: Order, f: Frontier)
    requires Waits(r, f)
    ensures ReplayRecord(r, Locked(o)).Ok? && Waits(ReplayRecord(r, Locked(o)).value, f)
  {
  }

  lemma SpendWaits(s: Authority, s': Authority, t: Transfer, f: Frontier)
    requires Waits(s, f) && Apply(s.ledger, t).Ok? && s'.ledger == Apply(s.ledger, t).value
    requires s'.epochState == s.epochState
    ensures Waits(s', f)
  {
    ApplyConserves(s.ledger, t);
    if Covers(s.ledger, f) {
      CoversMore(s.ledger, s'.ledger, f);
    }
  }

  lemma ConfirmWaits(s: Authority, v: Verified, c: Committee, member: bool, io: Io, f: Frontier)
    requires Waits(s, f)
    ensures Waits(Confirm(s, v, c, member, io).0, f)
  {
    hide Covers, Apply, ConfirmGuard, Unlock;
    if Apply(s.ledger, v.order.transfer).Ok? {
      SpendWaits(s, s.(ledger := Apply(s.ledger, v.order.transfer).value), v.order.transfer, f);
    }
  }

  lemma HoldConfirm(n: Node, v: Verified, c: Committee, member: bool, io: Io, f: Frontier)
    requires Inv(n) && Holding(n, f)
    ensures Holding(Next(n, OnConfirm(v, c, member, io)), f)
  {
    ConfirmShape(n.auth, v, c, member, io);
    ConfirmWaits(n.auth, v, c, member, io, f);
    var r := Replay(n.origin, n.auth.journal).value;
    assert !n.auth.poisoned ==> r.ledger == n.auth.ledger;
    hide Inv, Confirm, Covers, Replay, Waits, Unlock, Apply;
    if !n.auth.poisoned && Apply(n.auth.ledger, v.order.transfer).Ok? {
      SpendWaits(r, ReplayRecord(r, Confirmed(v.order)).value, v.order.transfer, f);
    }
    HoldWrite(n, Next(n, OnConfirm(v, c, member, io)), Confirmed(v.order), f);
  }

  lemma HoldFence(n: Node, p: EpochProposal, io: Io, f: Frontier)
    requires Inv(n) && Holding(n, f)
    ensures Holding(Next(n, OnFence(p, io)), f)
  {
    var r := Replay(n.origin, n.auth.journal).value;
    assert !n.auth.poisoned ==> r.ledger == n.auth.ledger;
    hide Inv, Covers, BuildCommittee, Replay;
    HoldWrite(n, Next(n, OnFence(p, io)), EpochFence(p), f);
  }

  ghost predicate Accepts(s: Authority, e: Event) {
    e.OnInstall? && var r := Install(s, e.cert, e.prior, e.io).1; r == Ok(Installed) || r == Ok(StillInstalling)
  }

  lemma EnterWaits(s: Authority, cert: EpochCert, next: Committee, io: Io, f: Frontier)
    requires Covers(s.ledger, f) || (io == Durable && f == cert.frontier)
    ensures Waits(EnterEpoch(s, cert, next, io).0, f)
  {
    hide Covers;
  }

  /** The same for the state that a recovery reads back from the certificate's record. */
  lemma RecordWaits(r: Authority, cert: EpochCert, f: Frontier)
    requires Covers(r.ledger, f) || f == cert.frontier
    requires ReplayRecord(r, EpochInstalled(cert)).Ok?
    ensures Waits(ReplayRecord(r, EpochInstalled(cert)).value, f)
  {
    hide Covers;
  }

  lemma HoldEnter(n: Node, cert: EpochCert, next: Committee, io: Io, f: Frontier)
    requires Inv(n) && !n.auth.poisoned && !n.auth.epochState.Installing?
    requires BuildCommittee(cert.nextRoster, n.auth.policy, cert.epoch) == Some(next)
    requires Holding(n, f) || (io == Durable && f == cert.frontier)
    ensures var s' := EnterEpoch(n.auth, cert, next, io).0;
            && Waits(s', f) && Replay(n.origin, s'.journal).Ok? && Waits(Replay(n.origin, s'.journal).value, f)
  {
    var r := Replay(n.origin, n.auth.journal).value;
    assert r.ledger == n.auth.ledger && r.policy == n.auth.policy;
    EnterWaits(n.auth, cert, next, io, f);
    ReplaySnoc(n.origin, n.auth.journal, EpochInstalled(cert));
    hide Inv, Covers, CompleteIfCovered, Replay;
    if io != LostOnError {
      RecordWaits(r, cert, f);
    }
  }

  lemma HoldInstall(n: Node, cert: EpochCert, prior: Committee, io: Io, f: Frontier)
    requires Inv(n)
    requires Holding(n, f) || (Accepts(n.auth, OnInstall(cert, prior, io)) && f == cert.frontier)
    ensures Holding(Next(n, OnInstall(cert, prior, io)), f)
  {
    hide Inv, EnterEpoch, EpochCertified, BuildCommittee;
    if InstallGuard(n.auth, cert, prior).None? && !n.auth.epochState.Installing? {
      assert EnterEpoch(n.auth, cert, BuildCommittee(cert.nextRoster, n.auth.policy, cert.epoch).value, io).1.Ok? ==>
                io == Durable by {
        EnterAnswers(n.auth, cert, BuildCommittee(cert.nextRoster, n.auth.policy, cert.epoch).value, io);
      }
      HoldEnter(n, cert, BuildCommittee(cert.nextRoster, n.auth.policy, cert.epoch).value, io, f);
    }
  }

  lemma EnterAnswers(s: Authority, cert: EpochCert, next: Committee, io: Io)
    ensures EnterEpoch(s, cert, next, io).1.Ok? ==> io == Durable
  {
  }

  lemma HoldCompact(n: Node, sn: SnapshotData, io: Io, f: Frontier)
    requires Inv(n) && Holding(n, f) && Captures(sn, n.auth)
    ensures Holding(Next(n, OnCompact(sn, io)), f)
  {
    hide Covers, Captures, ReplayRecord, Keeps, VotesAgree;
    SnapshotReplays(n.origin, n.auth, sn);
  }

  lemma HoldStep(n: Node, e: Event, f: Frontier)
    requires Inv(n) && Enabled(n, e) && Holding(n, f)
    ensures Holding(Next(n, e), f)
    ensures n.votes <= Next(n, e).votes
    ensures forall v :: |n.votes| <= v < |Next(n, e).votes| ==> Covers(Next(n, e).votes[v].ledger, f)
  {
    match e
    case OnHandle(o, io) => HoldHandle(n, o, io, f);
    case OnConfirm(v, c, member, io) => HoldConfirm(n, v, c, member, io, f);
    case OnFence(p, io) => HoldFence(n, p, io, f);
    case OnInstall(cert, prior, io) => HoldInstall(n, cert, prior, io, f);
    case OnCompact(sn, io) => HoldCompact(n, sn, io, f);
    case OnAttest(account, seqNo) =>
    case OnEpochVote(g) =>
    case OnCrash =>
  }

  /** Once an epoch certificate has been accepted (answered Installed or StillInstalling), every later vote comes
      from a ledger covering its frontier: through crashes, failed writes, compactions and further epochs. */
  lemma {:induction false} AcceptedInstallHolds(nodes: seq<Node>, events: seq<Event>, i: nat, j: nat)
    requires Run(nodes, events) && i < j < |nodes| && Accepts(nodes[i].auth, events[i])
    ensures Holding(nodes[j], events[i].cert.frontier) && |nodes[i + 1].votes| <= |nodes[j].votes|
    ensures forall v :: |nodes[i + 1].votes| <= v < |nodes[j].votes| ==>
              Covers(nodes[j].votes[v].ledger, events[i].cert.frontier)
    decreases j
  {
    hide Inv, Next, Holding, Install;
    RunKeepsInv(nodes, events, j - 1);
    assert Linked(nodes, events, j - 1);
    if j == i + 1 {
      HoldInstall(nodes[i], events[i].cert, events[i].prior, events[i].io, events[i].cert.frontier);
    } else {
      AcceptedInstallHolds(nodes, events, i, j - 1);
      HoldStep(nodes[j - 1], events[j - 1], events[i].cert.frontier);
    }
  }
}
