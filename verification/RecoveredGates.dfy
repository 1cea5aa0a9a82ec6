/** What a restart rebuilds of the epoch: the gate and, once a covered install has been completed, the epoch; the
    committee exactly as long as compaction has not dropped the certificate that installed it. */
module RecoveredGates {
  import opened Basics
  import opened Ledgers
  import opened Orders
  import opened Authorities
  import opened AuthorityRuns
  import opened AuthorityContracts

  predicate HasInstall(journal: seq<Record>) {
    exists i :: 0 <= i < |journal| && journal[i].EpochInstalled?
  }

  /** How the gate that a replay rebuilds relates to the live one. */
  ghost predicate GateFits(live: Authority, r: Authority, installs: bool) {
    match live.epochState
    case Active =>
      var t := CompleteIfCovered(r);
      t.epochState.Active? && t.epoch == live.epoch && (installs ==> t.committeeId == live.committeeId)
    case _ => r.epochState == live.epochState
  }

  /** Without an installed certificate in the log a replay knows only the committee it was started with. */
  ghost predicate Rooted(r: Authority, origin: CommitteeId, installs: bool) {
    !installs ==> r.committeeId == origin && !r.epochState.Installing?
  }

  ghost function Rebuilt(n: Node): (r: Authority)
    requires Replay(n.origin, n.auth.journal).Ok?
  {
    Replay(n.origin, n.auth.journal).value
  }

  ghost predicate GateInv(n: Node) {
    && Replay(n.origin, n.auth.journal).Ok?
    && Rooted(Rebuilt(n), n.origin.committeeId, HasInstall(n.auth.journal))
    && (!n.auth.poisoned ==> GateFits(n.auth, Rebuilt(n), HasInstall(n.auth.journal)))
  }

  lemma HasInstallSnoc(journal: seq<Record>, rec: Record)
    ensures HasInstall(journal + [rec]) <==> HasInstall(journal) || rec.EpochInstalled?
  {
    var all := journal + [rec];
    if HasInstall(journal) {
      var i :| 0 <= i < |journal| && journal[i].EpochInstalled?;
      assert all[i].EpochInstalled?;
    }
    assert all[|journal|] == rec;
  }

  // ---- Facts about one node ----

  /** What the run invariant says about the live state and the rebuilt one. */
  lemma RebuiltMatches(n: Node)
    requires Inv(n)
    ensures Replay(n.origin, n.auth.journal).Ok?
    ensures Rebuilt(n).policy == n.auth.policy && Rebuilt(n).journal == n.auth.journal && !Rebuilt(n).poisoned
    ensures !n.auth.poisoned ==> Rebuilt(n).ledger == n.auth.ledger
  {
  }

  lemma RebuiltAfter(n: Node, n': Node, rec: Record)
    requires Replay(n.origin, n.auth.journal).Ok? && Replay(n'.origin, n'.auth.journal).Ok?
    requires n'.origin == n.origin && n'.auth.journal == n.auth.journal + [rec]
    ensures ReplayRecord(Rebuilt(n), rec) == Ok(Rebuilt(n'))
    ensures HasInstall(n'.auth.journal) <==> HasInstall(n.auth.journal) || rec.EpochInstalled?
  {
    ReplaySnoc(n.origin, n.auth.journal, rec);
    HasInstallSnoc(n.auth.journal, rec);
  }

  // ---- Steps ----

  lemma HandleKeepsGate(n: Node, o: Order, io: Io)
    requires Inv(n) && GateInv(n) && Inv(Next(n, OnHandle(o, io)))
    ensures GateInv(Next(n, OnHandle(o, io)))
  {
    var n' := Next(n, OnHandle(o, io));
    RebuiltMatches(n);
    RebuiltMatches(n');
    VotingChanges(n.auth, o, io);
    HandleNode(n, o, io);
    if n'.auth.journal != n.auth.journal {
      RebuiltAfter(n, n', Locked(o));
      LockKeepsGate(Rebuilt(n), o);
    }
    OpeningFits(n.auth, Rebuilt(n), HasInstall(n.auth.journal));
    hide Inv, Replay, Handle, Next, HasInstall, ReplayRecord, GateFits;
    if !n'.auth.poisoned && GateOpen(n.auth) {
      GateAlike(Opened(n.auth), n'.auth, Rebuilt(n), Rebuilt(n'), HasInstall(n.auth.journal));
    }
  }

  lemma HandleNode(n: Node, o: Order, io: Io)
    ensures var n' := Next(n, OnHandle(o, io)); n'.origin == n.origin && n'.auth == Handle(n.auth, o, io).0
  {
  }

  function Opened(s: Authority): (r: Authority) {
    if s.epochState.Installing? then
      s.(committeeId := s.epochState.next.Id(), epoch := s.epochState.cert.epoch, epochState := Active)
    else s
  }

  /** Completing a covered install keeps the gates in step. */
  lemma OpeningFits(live: Authority, r: Authority, installs: bool)
    requires !live.poisoned ==> GateFits(live, r, installs) && r.ledger == live.ledger
    ensures GateOpen(live) ==> GateFits(Opened(live), r, installs)
  {
  }

  /** The gate depends on the epoch state, the epoch, the committee and what the ledger covers. */
  lemma GateAlike(live: Authority, live': Authority, r: Authority, r': Authority, installs: bool)
    requires GateFits(live, r, installs)
    requires live'.epochState == live.epochState && live'.epoch == live.epoch && live'.committeeId == live.committeeId
    requires r'.epochState == r.epochState && r'.epoch == r.epoch && r'.committeeId == r.committeeId
    requires forall id :: NextSeq(r'.ledger, id) >= NextSeq(r.ledger, id)
    ensures GateFits(live', r', installs)
  {
  }

  lemma LockKeepsGate(r: Authority, o: Order)
    ensures ReplayRecord(r, Locked(o)).Ok?
    ensures var r' := ReplayRecord(r, Locked(o)).value;
            && r'.epochState == r.epochState && r'.epoch == r.epoch && r'.committeeId == r.committeeId
            && r'.ledger == r.ledger
  {
  }

  lemma ConfirmKeepsGate(n: Node, v: Verified, c: Committee, member: bool, io: Io)
    requires Inv(n) && GateInv(n) && Inv(Next(n, OnConfirm(v, c, member, io)))
    ensures GateInv(Next(n, OnConfirm(v, c, member, io)))
  {
    var n' := Next(n, OnConfirm(v, c, member, io));
    RebuiltMatches(n);
    RebuiltMatches(n');
    ConfirmNode(n, v, c, member, io);
    if n'.auth.journal != n.auth.journal {
      RebuiltAfter(n, n', Confirmed(v.order));
      SpendKeepsGate(Rebuilt(n), v.order);
    }
    ConfirmingFits(n.auth, v, c, member, io, Rebuilt(n), Rebuilt(n'), HasInstall(n.auth.journal));
    hide Inv, Replay, Confirm, Next, HasInstall, ReplayRecord, GateFits;
  }

  lemma ConfirmNode(n: Node, v: Verified, c: Committee, member: bool, io: Io)
    ensures var n' := Next(n, OnConfirm(v, c, member, io));
            && n'.origin == n.origin && n'.auth == Confirm(n.auth, v, c, member, io).0
            && (n'.auth.journal == n.auth.journal || n'.auth.journal == n.auth.journal + [Confirmed(v.order)])
            && (n'.auth.journal == n.auth.journal && !n'.auth.poisoned ==> n'.auth == n.auth)
            && (!n'.auth.poisoned ==> !n.auth.poisoned)
  {
    hide Apply, VerifyOrder, Unlock;
  }

  lemma SpendKeepsGate(r: Authority, o: Order)
    requires ReplayRecord(r, Confirmed(o)).Ok?
    ensures var r' := ReplayRecord(r, Confirmed(o)).value;
            && r'.epochState == r.epochState && r'.epoch == r.epoch && r'.committeeId == r.committeeId
            && forall id :: NextSeq(r'.ledger, id) >= NextSeq(r.ledger, id)
  {
    ApplyConserves(r.ledger, o.transfer);
    hide Apply, Supply, Unlock;
  }

  /** Confirming moves the live gate only by completing an install that the rebuilt ledger then covers too. */
  lemma ConfirmingFits(live: Authority, v: Verified, c: Committee, member: bool, io: Io, r: Authority, r': Authority,
                       installs: bool)
    requires !live.poisoned ==> GateFits(live, r, installs)
    requires r'.epochState == r.epochState && r'.epoch == r.epoch && r'.committeeId == r.committeeId
    requires forall id :: NextSeq(r'.ledger, id) >= NextSeq(r.ledger, id)
    requires var live' := Confirm(live, v, c, member, io).0;
             && (!live'.poisoned ==> !live.poisoned && r'.ledger == live'.ledger)
             && (live'.journal == live.journal && !live'.poisoned ==> live' == live)
    ensures var live' := Confirm(live, v, c, member, io).0;
            !live'.poisoned ==> GateFits(live', r', installs)
  {
    var (live', res) := Confirm(live, v, c, member, io);
    ConfirmsExactly(live, v, c, member, io);
    ConfirmingChanges(live, v, c, member, io);
    hide Confirm, Apply, OwnerSigned, Payable;
    if !live'.poisoned && !(res == Ok(Applied) && Reached(live.(ledger := live'.ledger))) {
      GateAlike(live, live', r, r', installs);
    }
  }

  lemma FenceKeepsGate(n: Node, p: EpochProposal, io: Io)
    requires Inv(n) && GateInv(n) && Inv(Next(n, OnFence(p, io)))
    ensures GateInv(Next(n, OnFence(p, io)))
  {
    var n' := Next(n, OnFence(p, io));
    RebuiltMatches(n);
    RebuiltMatches(n');
    FenceNode(n, p, io);
    hide Inv, Replay, HasInstall, BuildCommittee, Next, Fence;
    if n'.auth.journal != n.auth.journal {
      FenceJournals(n.auth, p, io);
      RebuiltAfter(n, n', EpochFence(p));
    }
  }

  lemma FenceNode(n: Node, p: EpochProposal, io: Io)
    ensures var n' := Next(n, OnFence(p, io));
            && n'.origin == n.origin && n'.auth == Fence(n.auth, p, io).0
            && (n'.auth.journal == n.auth.journal && !n'.auth.poisoned ==> n'.auth == n.auth)
            && (!n'.auth.poisoned ==> !n.auth.poisoned)
  {
    hide BuildCommittee;
  }

  lemma FenceJournals(s: Authority, p: EpochProposal, io: Io)
    requires Fence(s, p, io).0.journal != s.journal
    ensures Fence(s, p, io).0.journal == s.journal + [EpochFence(p)]
    ensures !Fence(s, p, io).0.poisoned ==> Fence(s, p, io).0.epochState == Fencing(p)
  {
    hide BuildCommittee;
  }

  lemma InstallKeepsGate(n: Node, cert: EpochCert, prior: Committee, io: Io)
    requires Inv(n) && GateInv(n) && Inv(Next(n, OnInstall(cert, prior, io)))
    ensures GateInv(Next(n, OnInstall(cert, prior, io)))
  {
    var n' := Next(n, OnInstall(cert, prior, io));
    RebuiltMatches(n);
    RebuiltMatches(n');
    InstallNode(n, cert, prior, io);
    if n'.auth.journal != n.auth.journal {
      RebuiltAfter(n, n', EpochInstalled(cert));
      EnteringFits(n.auth, cert, prior, io, Rebuilt(n));
    }
    hide Inv, Replay, HasInstall, Next, Install, ReplayRecord, GateFits;
  }

  lemma InstallNode(n: Node, cert: EpochCert, prior: Committee, io: Io)
    ensures var n' := Next(n, OnInstall(cert, prior, io));
            && n'.origin == n.origin && n'.auth == Install(n.auth, cert, prior, io).0
            && (n'.auth.journal == n.auth.journal || n'.auth.journal == n.auth.journal + [EpochInstalled(cert)])
            && (n'.auth.journal == n.auth.journal && !n'.auth.poisoned ==> n'.auth == n.auth)
            && (!n'.auth.poisoned ==> !n.auth.poisoned)
  {
    hide BuildCommittee, EpochCertified, Covers;
  }

  /** Taking in a certificate puts the live and the rebuilt authority in the same epoch state. */
  lemma EnteringFits(live: Authority, cert: EpochCert, prior: Committee, io: Io, r: Authority)
    requires Install(live, cert, prior, io).0.journal != live.journal
    requires r.policy == live.policy && (!live.poisoned ==> r.ledger == live.ledger)
    ensures var live' := Install(live, cert, prior, io).0;
            ReplayRecord(r, EpochInstalled(cert)).Ok? && !live'.poisoned ==>
              GateFits(live', ReplayRecord(r, EpochInstalled(cert)).value, true)
  {
    hide BuildCommittee, EpochCertified, Covers;
  }

  lemma CompactKeepsGate(n: Node, sn: SnapshotData, io: Io)
    requires Inv(n) && GateInv(n) && Captures(sn, n.auth)
    ensures GateInv(Next(n, OnCompact(sn, io)))
  {
    var n' := Next(n, OnCompact(sn, io));
    CompactNode(n, sn, io);
    if n'.auth.journal != n.auth.journal {
      SnapshotGate(n, sn);
    }
    hide Inv, Replay, HasInstall, Captures, Next;
  }

  lemma CompactNode(n: Node, sn: SnapshotData, io: Io)
    ensures var n' := Next(n, OnCompact(sn, io));
            && n'.origin == n.origin && n'.auth.epochState == n.auth.epochState && n'.auth.epoch == n.auth.epoch
            && n'.auth.committeeId == n.auth.committeeId && (!n'.auth.poisoned ==> !n.auth.poisoned)
            && (n'.auth.journal == n.auth.journal
                || (n'.auth.journal == [Snapshot(sn)] && n.auth.epochState.Active?))
  {
  }

  /** A snapshot rebuilds an open gate in its epoch, under the committee of the start. */
  lemma SnapshotGate(n: Node, sn: SnapshotData)
    requires Inv(n) && Captures(sn, n.auth)
    ensures Replay(n.origin, [Snapshot(sn)]).Ok? && !HasInstall([Snapshot(sn)])
    ensures var r := Replay(n.origin, [Snapshot(sn)]).value;
            r.epochState.Active? && r.epoch == n.auth.epoch && r.committeeId == n.origin.committeeId
  {
    SnapshotReplays(n.origin, n.auth, sn);
    hide Replay;
  }

  lemma QuietKeepsGate(n: Node, e: Event)
    requires Inv(n) && GateInv(n) && (e.OnAttest? || e.OnEpochVote? || e.OnCrash?)
    ensures GateInv(Next(n, e))
  {
    RebuiltMatches(n);
    QuietNode(n, e);
    hide Inv, Replay, HasInstall, Next;
  }

  /** Signing and attesting leave the authority alone; a crash puts the rebuilt one in its place. */
  lemma QuietNode(n: Node, e: Event)
    requires Replay(n.origin, n.auth.journal).Ok? && (e.OnAttest? || e.OnEpochVote? || e.OnCrash?)
    ensures Next(n, e).origin == n.origin && Next(n, e).auth == if e.OnCrash? then Rebuilt(n) else n.auth
  {
    hide Replay, SignEpochVote;
  }

  lemma NextKeepsGate(n: Node, e: Event)
    requires Inv(n) && GateInv(n) && Enabled(n, e)
    ensures GateInv(Next(n, e))
  {
    StepKeepsInv(n, e);
    hide Inv, GateInv, Next;
    match e
    case OnHandle(o, io) => HandleKeepsGate(n, o, io);
    case OnConfirm(v, c, member, io) => ConfirmKeepsGate(n, v, c, member, io);
    case OnFence(p, io) => FenceKeepsGate(n, p, io);
    case OnInstall(cert, prior, io) => InstallKeepsGate(n, cert, prior, io);
    case OnCompact(sn, io) => CompactKeepsGate(n, sn, io);
    case _ => QuietKeepsGate(n, e);
  }

  lemma StartGate(n: Node)
    requires Initial(n)
    ensures GateInv(n)
  {
  }

  lemma {:induction false} RunKeepsGate(nodes: seq<Node>, events: seq<Event>, k: nat)
    requires Run(nodes, events) && k < |nodes|
    ensures GateInv(nodes[k])
  {
    hide Inv, GateInv, Next;
    if k == 0 {
      StartGate(nodes[0]);
    } else {
      RunKeepsGate(nodes, events, k - 1);
      RunKeepsInv(nodes, events, k - 1);
      assert Linked(nodes, events, k - 1);
      NextKeepsGate(nodes[k - 1], events[k - 1]);
    }
  }

  // ---- What a restart rebuilds ----

  /** An install that completed at once is rebuilt complete: same epoch, same committee, gate open. */
  lemma InstalledIsRebuilt(nodes: seq<Node>, events: seq<Event>, k: nat)
    requires Run(nodes, events) && k < |events| && events[k].OnInstall?
    requires Install(nodes[k].auth, events[k].cert, events[k].prior, events[k].io).1 == Ok(Installed)
    ensures var live := nodes[k + 1].auth;
            var rebuilt := Replay(nodes[k + 1].origin, live.journal);
            && rebuilt.Ok? && rebuilt.value.epochState == Active == live.epochState
            && rebuilt.value.epoch == live.epoch && rebuilt.value.committeeId == live.committeeId
  {
    var n, e := nodes[k], events[k];
    RunKeepsInv(nodes, events, k);
    RunKeepsInv(nodes, events, k + 1);
    assert Linked(nodes, events, k);
    RebuiltMatches(n);
    RebuiltMatches(nodes[k + 1]);
    InstallNode(n, e.cert, e.prior, e.io);
    InstallsExactly(n.auth, e.cert, e.prior, e.io);
    InstallingChanges(n.auth, e.cert, e.prior, e.io);
    assert nodes[k + 1].auth.journal == n.auth.journal + [EpochInstalled(e.cert)];
    RebuiltAfter(n, nodes[k + 1], EpochInstalled(e.cert));
    ReplaysExactly(Rebuilt(n), EpochInstalled(e.cert));
    hide Run, Inv, Replay, HasInstall, Next, Install, ReplayRecord, Installable, BuildCommittee;
  }

  /** In every run a restart of an authority that has not stopped rebuilds a raised fence and a waiting install as
      they are; and from an open gate it rebuilds one that is open, or opens as soon as it looks at the frontier it
      waits for, in the same epoch. */
  lemma RestartResumesEpoch(nodes: seq<Node>, events: seq<Event>, k: nat)
    requires Run(nodes, events) && k < |nodes| && !nodes[k].auth.poisoned
    ensures var live := nodes[k].auth;
            var rebuilt := Replay(nodes[k].origin, live.journal);
            && rebuilt.Ok?
            && (!live.epochState.Active? ==> rebuilt.value.epochState == live.epochState)
            && (live.epochState.Active? ==> GateOpen(rebuilt.value) && Opened(rebuilt.value).epoch == live.epoch)
  {
    RunKeepsGate(nodes, events, k);
    RunKeepsInv(nodes, events, k);
    RebuiltMatches(nodes[k]);
    hide Run, Inv, Replay, HasInstall;
  }

  /** The source takes the epoch number to restore the whole epoch dimension. It does not restore the committee: from
      an open gate a restart finds the committee it left if and only if the log still holds an installed certificate
      or that committee is the one the authority was first started with. */
  lemma RestartKeepsCommitteeExactly(nodes: seq<Node>, events: seq<Event>, k: nat)
    requires Run(nodes, events) && k < |nodes| && !nodes[k].auth.poisoned && nodes[k].auth.epochState.Active?
    ensures var live := nodes[k].auth;
            var rebuilt := Replay(nodes[k].origin, live.journal);
            && rebuilt.Ok?
            && (Opened(rebuilt.value).committeeId == live.committeeId
                <==> HasInstall(live.journal) || live.committeeId == nodes[0].origin.committeeId)
  {
    RunKeepsGate(nodes, events, k);
    RunKeepsInv(nodes, events, k);
    RunKeepsOrigin(nodes, events, k);
    RebuiltMatches(nodes[k]);
    hide Run, Inv, Replay, HasInstall;
  }
}
