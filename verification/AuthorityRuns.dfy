/** Whole runs of one authority with a durable journal: operations in any order on any inputs,
    writes that may fail, and crashes followed by recovery at any point. */
module AuthorityRuns {
  import opened Basics
  import opened Ledgers
  import opened Orders
  import opened Authorities

  /** A vote this authority let out, with the state it was signed from. `stretch` counts the epoch
      certificates that had reached the journal by then. */
  datatype VoteEvent = VoteEvent(stretch: nat, order: Order, vote: Vote, ledger: Ledger, epoch: nat)

  /** The live authority plus the history an observer could write down. `frontiers[k]` is the
      frontier committed by the k-th completed install; `crashed` says whether it ever crashed, and
      `movedFenced` whether its ledger ever moved behind a fence. */
  datatype Node = Node(origin: Origin, auth: Authority, votes: seq<VoteEvent>,
                       attested: set<Attestation>, epochVotes: set<EpochVote>,
                       stretch: nat, frontiers: seq<Frontier>, crashed: bool, movedFenced: bool)

  datatype Event =
    | OnHandle(order: Order, io: Io)
    | OnConfirm(verified: Verified, committee: Committee, member: bool, io: Io)
    | OnFence(proposal: EpochProposal, io: Io)
    | OnEpochVote(frontier: Frontier)
    | OnInstall(cert: EpochCert, prior: Committee, io: Io)
    | OnCompact(snapshot: SnapshotData, io: Io)
    | OnAttest(account: AccountId, seqNo: U64)
    | OnCrash

  ghost predicate Enabled(n: Node, e: Event) {
    && (e.OnCompact? ==> Captures(e.snapshot, n.auth))
    && (e.OnEpochVote? ==> ListsFrontier(e.frontier, n.auth.ledger))
  }

  /** The frontier that the event commits by completing an install, if it does: the answer to an install is
      Installed, an order is handled with the waiting frontier covered, or an applied certificate covers
      it. The epoch number plays no part in it. */
  function Completed(s: Authority, e: Event): (r: Option<Frontier>) {
    match e
    case OnHandle(_, _) => if !s.poisoned && InstallCovered(s) then Some(s.epochState.cert.frontier) else None
    case OnConfirm(v, c, member, io) =>
      var (s', r) := Confirm(s, v, c, member, io);
      if r == Ok(Applied) && s.epochState.Installing? && Covers(s'.ledger, s.epochState.cert.frontier)
      then Some(s.epochState.cert.frontier) else None
    case OnInstall(cert, prior, io) =>
      if Install(s, cert, prior, io).1 == Ok(Installed) then Some(cert.frontier) else None
    case _ => None
  }

  function Advance(n: Node, e: Event, s: Authority): (r: Node) {
    var done := Completed(n.auth, e);
    n.(auth := s,
       frontiers := if done.Some? then n.frontiers + [done.value] else n.frontiers,
       movedFenced := n.movedFenced || (n.auth.epochState.Fencing? && s.ledger != n.auth.ledger))
  }

  function Next(n: Node, e: Event): (r: Node) {
    match e
    case OnHandle(o, io) =>
      var (s, r) := Handle(n.auth, o, io);
      var n1 := Advance(n, e, s);
      if r.Ok? then n1.(votes := n1.votes + [VoteEvent(n.stretch, o, r.value, s.ledger, s.epoch)]) else n1
    case OnConfirm(v, c, member, io) => Advance(n, e, Confirm(n.auth, v, c, member, io).0)
    case OnFence(p, io) => Advance(n, e, Fence(n.auth, p, io).0)
    case OnEpochVote(f) =>
      (match SignEpochVote(n.auth, f)
       case Ok(v) => n.(epochVotes := n.epochVotes + {v})
       case Err(_) => n)
    case OnInstall(cert, prior, io) =>
      var s := Install(n.auth, cert, prior, io).0;
      Advance(n, e, s).(stretch := if s.journal != n.auth.journal then n.stretch + 1 else n.stretch)
    case OnCompact(sn, io) => Advance(n, e, Compact(n.auth, sn, io).0)
    case OnAttest(account, seqNo) =>
      (match AttestationFor(n.auth, account, seqNo)
       case Some(a) => n.(attested := n.attested + {a})
       case None => n)
    case OnCrash =>
      (match Replay(n.origin, n.auth.journal)
       case Ok(s) => n.(auth := s, crashed := true)
       case Err(_) => n)
  }

  ghost predicate Initial(n: Node) {
    && Supply(n.origin.genesis) <= MAX_U128
    && n == Node(n.origin, Fresh(n.origin), [], {}, {}, 0, [], false, false)
  }

  ghost predicate Run(nodes: seq<Node>, events: seq<Event>) {
    && |nodes| == |events| + 1
    && Initial(nodes[0])
    && forall i :: 0 <= i < |events| ==> Linked(nodes, events, i)
  }

  ghost predicate Linked(nodes: seq<Node>, events: seq<Event>, i: nat)
    requires |nodes| == |events| + 1 && i < |events|
  {
    Enabled(nodes[i], events[i]) && nodes[i + 1] == Next(nodes[i], events[i])
  }

  // ---- The invariant ----

  /** The next sequence is spent, or the slot is held by exactly this order. */
  ghost predicate Protects(s: Authority, o: Order) {
    var k := SlotOf(o);
    if k in s.locked then s.locked[k] == o else k.seqNo < NextSeq(s.ledger, k.account)
  }

  ghost predicate Sound(s: Authority) {
    && Supply(s.ledger) <= MAX_U128
    && LocksKeyed(s)
    && (forall k :: k in s.confirmed ==> k.1 < NextSeq(s.ledger, k.0))
  }

  /** `s` keeps every promise made so far: votes of the current stretch and all attestations. */
  ghost predicate Keeps(s: Authority, n: Node) {
    && (forall i :: 0 <= i < |n.votes| && n.votes[i].stretch == n.stretch ==> Protects(s, n.votes[i].order))
    && (forall a :: a in n.attested ==>
              (a.account, a.seqNo) in s.confirmed && s.confirmed[(a.account, a.seqNo)] == a.order)
  }

  ghost predicate SameCore(s: Authority, r: Authority) {
    s.ledger == r.ledger && s.locked == r.locked && s.confirmed == r.confirmed
  }

  /** No two votes of one stretch for one slot differ. */
  ghost predicate VotesAgree(n: Node) {
    forall i, j :: 0 <= i < |n.votes| && 0 <= j < |n.votes| && n.votes[i].stretch == n.votes[j].stretch
                   && SlotOf(n.votes[i].order) == SlotOf(n.votes[j].order)
                   ==> n.votes[i].order == n.votes[j].order
  }

  ghost predicate VoteOf(n: Node, e: VoteEvent) {
    && e.stretch <= n.stretch
    && VoteFor(n.origin.id, e.order, e.vote)
  }

  /** `s` is the authority that `o` started, and no value was made or lost since. */
  ghost predicate Identity(s: Authority, o: Origin) {
    s.id == o.id && s.key == o.key && s.policy == o.policy && Supply(s.ledger) == Supply(o.genesis)
  }

  /** The log behind the node replays, to a state that keeps every promise. */
  ghost predicate Recoverable(n: Node) {
    && Replay(n.origin, n.auth.journal).Ok?
    && var r := Replay(n.origin, n.auth.journal).value;
    && Identity(r, n.origin) && Sound(r) && Keeps(r, n)
    && r.journal == n.auth.journal && !r.poisoned
    && (!n.auth.poisoned ==> SameCore(n.auth, r))
    && (forall k :: k in n.auth.confirmed ==> k in r.confirmed && r.confirmed[k] == n.auth.confirmed[k])
    && (!n.auth.poisoned && n.auth.epochState.Fencing? ==> r.epochState == n.auth.epochState)
  }

  ghost predicate Inv(n: Node) {
    && Identity(n.auth, n.origin) && Sound(n.auth) && Keeps(n.auth, n)
    && (forall i :: 0 <= i < |n.votes| ==> VoteOf(n, n.votes[i]))
    && (forall a :: a in n.attested ==> a.authority == n.origin.id)
    && VotesAgree(n)
    && Recoverable(n)
  }

  // ---- Preservation ----

  lemma ReplaySnoc(o: Origin, rs: seq<Record>, r: Record)
    ensures Replay(o, rs + [r]) == (match Replay(o, rs) case Ok(s) => ReplayRecord(s, r) case Err(e) => Err(e))
  {
    assert (rs + [r])[..|rs|] == rs;
  }

  lemma InitialInv(n: Node)
    requires Initial(n)
    ensures Inv(n)
  {
  }

  /** Spending a sequence keeps every promise about votes: its own slots become spent. */
  lemma SpendKeeps(s: Authority, n: Node, t: Transfer, s': Authority, o: Order)
    requires Sound(s) && Keeps(s, n)
    requires Apply(s.ledger, t).Ok? && s'.ledger == Apply(s.ledger, t).value
    requires o.transfer == t
    requires || (s'.locked == s.locked && s'.confirmed == s.confirmed)
             || (s'.locked == Unlock(s.locked, t.from, t.fromSeq)
                 && s'.confirmed == s.confirmed[(t.from, t.fromSeq) := o])
    ensures Sound(s') && Keeps(s', n) && Supply(s'.ledger) == Supply(s.ledger)
  {
    hide Supply;
    ApplyConserves(s.ledger, t);
    forall i | 0 <= i < |n.votes| && n.votes[i].stretch == n.stretch
      ensures Protects(s', n.votes[i].order)
    {
      assert Protects(s, n.votes[i].order);
    }
  }

  lemma SameCoreKeeps(s: Authority, n: Node, s': Authority, n': Node)
    requires Sound(s) && Keeps(s, n) && SameCore(s, s')
    requires n'.votes == n.votes && n'.attested == n.attested && n'.stretch == n.stretch
    ensures Sound(s') && Keeps(s', n')
  {
    forall i | 0 <= i < |n.votes| && n.votes[i].stretch == n.stretch
      ensures Protects(s', n.votes[i].order)
    {
      assert Protects(s, n.votes[i].order);
    }
  }

  /** A step that leaves ledger, locks, confirmations and journal alone, and raises no fence. */
  ghost predicate Still(s: Authority, s': Authority) {
    && SameCore(s, s') && s'.journal == s.journal
    && s'.id == s.id && s'.key == s.key && s'.policy == s.policy
    && (s.poisoned ==> s'.poisoned)
    && (s'.epochState.Fencing? ==> s'.epochState == s.epochState)
  }

  lemma StillKeeps(n: Node, n': Node)
    requires Inv(n) && Still(n.auth, n'.auth)
    requires n' == n.(auth := n'.auth, frontiers := n'.frontiers, movedFenced := n'.movedFenced)
    ensures Inv(n')
  {
    hide Supply;
  }

  /** The log and the fail-stop flag after an append by a running authority. */
  ghost predicate Wrote(s: Authority, s': Authority, rec: Record, io: Io) {
    && !s.poisoned
    && s'.id == s.id && s'.key == s.key && s'.policy == s.policy
    && s'.journal == (if io == LostOnError then s.journal else s.journal + [rec])
    && s'.poisoned == (io != Durable)
  }

  /** Appending a record whose replay keeps every promise keeps the invariant. */
  lemma WriteKeeps(n: Node, n': Node, rec: Record, io: Io)
    requires Inv(n) && Wrote(n.auth, n'.auth, rec, io) && n'.origin == n.origin
    requires Sound(n'.auth) && Keeps(n'.auth, n') && Supply(n'.auth.ledger) == Supply(n.origin.genesis)
    requires forall i :: 0 <= i < |n'.votes| ==> VoteOf(n', n'.votes[i])
    requires VotesAgree(n') && n'.attested == n.attested
    requires forall k :: k in n'.auth.confirmed && (io != Durable) ==>
              k in n.auth.confirmed && n'.auth.confirmed[k] == n.auth.confirmed[k]
    requires io == LostOnError ==> n'.votes == n.votes && n'.stretch == n.stretch
    requires io != LostOnError ==>
               var r := Replay(n.origin, n.auth.journal).value;
               var r' := ReplayRecord(r, rec);
               && r'.Ok? && Identity(r'.value, n.origin) && Sound(r'.value) && Keeps(r'.value, n')
               && r'.value.journal == n'.auth.journal && !r'.value.poisoned
               && (io == Durable ==> SameCore(n'.auth, r'.value))
               && (forall k :: k in n.auth.confirmed ==>
                         k in r'.value.confirmed && r'.value.confirmed[k] == n.auth.confirmed[k])
               && (io == Durable && n'.auth.epochState.Fencing? ==> r'.value.epochState == n'.auth.epochState)
    ensures Inv(n')
  {
    hide Supply, ReplayRecord, VotesAgree, Protects, Sound;
    ReplaySnoc(n.origin, n.auth.journal, rec);
  }

  /** What `Handle` can do to the promises: repeat a held vote, take a fresh lock, or neither. */
  ghost predicate VoteShape(s: Authority, o: Order, io: Io, s': Authority, voted: bool) {
    || (Still(s, s') && s'.poisoned == s.poisoned && (voted ==> SlotOf(o) in s.locked && s.locked[SlotOf(o)] == o))
    || (&& SlotOf(o) !in s.locked && SlotOf(o).seqNo == NextSeq(s.ledger, SlotOf(o).account)
        && Wrote(s, s', Locked(o), io) && s'.ledger == s.ledger && s'.confirmed == s.confirmed
        && s'.epochState.Active?
        && s'.locked == (if io == Durable then s.locked[SlotOf(o) := o] else s.locked)
        && voted == (io == Durable))
  }

  lemma AdmitShape(s: Authority, o: Order, io: Io)
    requires !s.poisoned && s.epochState.Active?
    ensures VoteShape(s, o, io, Admit(s, o, io).0, Admit(s, o, io).1.Ok?)
    ensures Admit(s, o, io).1.Ok? ==> VoteFor(s.id, o, Admit(s, o, io).1.value)
  {
    if VerifyOrder(s.policy, o).None? && SlotOf(o) !in s.locked && AdmissionProblem(s, o).None? {
      assert Preflight(s.ledger, o.transfer).None?;
      assert Wrote(s, Admit(s, o, io).0, Locked(o), io);
    }
  }

  ghost predicate VoteFor(id: AuthorityId, o: Order, v: Vote) {
    v.authority == id && v.transfer == o.transfer && v.round == o.round
  }

  lemma HandleShape(s: Authority, o: Order, io: Io)
    ensures VoteShape(s, o, io, Handle(s, o, io).0, Handle(s, o, io).1.Ok?)
    ensures Handle(s, o, io).1.Ok? ==> VoteFor(s.id, o, Handle(s, o, io).1.value)
  {
    if !s.poisoned && !s.epochState.Fencing? && (s.epochState.Installing? ==> InstallCovered(s)) {
      AdmitShape(CompleteInstall(s), o, io);
    }
  }

  /** A slot already promised in this stretch is never promised to a second order. */
  lemma VoteAgrees(n: Node, n': Node, o: Order, io: Io, e: VoteEvent)
    requires Inv(n) && VoteShape(n.auth, o, io, n'.auth, true)
    requires n' == n.(auth := n'.auth, frontiers := n'.frontiers, movedFenced := n'.movedFenced, votes := n.votes + [e])
    requires e.order == o && e.stretch == n.stretch
    ensures VotesAgree(n')
  {
    forall i | 0 <= i < |n.votes| && n.votes[i].stretch == n.stretch && SlotOf(n.votes[i].order) == SlotOf(o)
      ensures n.votes[i].order == o
    {
      assert Protects(n.auth, n.votes[i].order);
    }
  }

  /** A fresh lock for `o` keeps every promise, also with a vote for `o` added to them. */
  lemma FreshLockKeeps(s: Authority, n: Node, o: Order, s': Authority, n': Node, e: VoteEvent)
    requires Sound(s) && Keeps(s, n) && SlotOf(o) !in s.locked
    requires SlotOf(o).seqNo == NextSeq(s.ledger, SlotOf(o).account)
    requires s'.ledger == s.ledger && s'.confirmed == s.confirmed && s'.locked == s.locked[SlotOf(o) := o]
    requires n'.stretch == n.stretch && n'.attested == n.attested && e.order == o
    requires n'.votes == n.votes || n'.votes == n.votes + [e]
    ensures Sound(s') && Keeps(s', n')
  {
    hide Supply;
    forall i | 0 <= i < |n'.votes| && n'.votes[i].stretch == n.stretch
      ensures Protects(s', n'.votes[i].order)
    {
      if i < |n.votes| {
        assert Protects(s, n.votes[i].order);
      }
    }
  }

  /** Repeating a vote the lock table already holds. */
  lemma RevoteKeeps(n: Node, n': Node, o: Order, e: VoteEvent)
    requires Inv(n) && Still(n.auth, n'.auth) && n'.auth.poisoned == n.auth.poisoned == false
    requires SlotOf(o) in n.auth.locked && n.auth.locked[SlotOf(o)] == o
    requires n' == n.(auth := n'.auth, frontiers := n'.frontiers, movedFenced := n'.movedFenced, votes := n.votes + [e])
    requires e.order == o && e.stretch == n.stretch && VoteOf(n, e) && VotesAgree(n')
    ensures Inv(n')
  {
    StillKeeps(n, n.(auth := n'.auth, frontiers := n'.frontiers, movedFenced := n'.movedFenced));
  }

  lemma LockKeeps(n: Node, n': Node, o: Order, io: Io, e: VoteEvent)
    requires Inv(n) && VoteShape(n.auth, o, io, n'.auth, io == Durable) && !Still(n.auth, n'.auth)
    requires n' == n.(auth := n'.auth, frontiers := n'.frontiers, movedFenced := n'.movedFenced,
                      votes := if io == Durable then n.votes + [e] else n.votes)
    requires e.order == o && e.stretch == n.stretch && VoteOf(n, e) && VotesAgree(n')
    ensures Inv(n')
  {
    hide Supply, Sound, Keeps, VotesAgree, Protects, NextSeq;
    var r := Replay(n.origin, n.auth.journal).value;
    FreshLockKeeps(r, n, o, ReplayRecord(r, Locked(o)).value, n', e);
    if io == Durable {
      FreshLockKeeps(n.auth, n, o, n'.auth, n', e);
    } else {
      SameCoreKeeps(n.auth, n, n'.auth, n');
    }
    WriteKeeps(n, n', Locked(o), io);
  }

  lemma VoteShapeKeeps(n: Node, n': Node, o: Order, io: Io, voted: bool, e: VoteEvent)
    requires Inv(n) && VoteShape(n.auth, o, io, n'.auth, voted) && (voted ==> !n.auth.poisoned)
    requires n' == n.(auth := n'.auth, frontiers := n'.frontiers, movedFenced := n'.movedFenced,
                      votes := if voted then n.votes + [e] else n.votes)
    requires e.order == o && e.stretch == n.stretch && VoteOf(n, e)
    ensures Inv(n')
  {
    if voted {
      VoteAgrees(n, n', o, io, e);
    }
    if !Still(n.auth, n'.auth) {
      LockKeeps(n, n', o, io, e);
    } else if voted {
      RevoteKeeps(n, n', o, e);
    } else {
      StillKeeps(n, n');
    }
  }

  lemma HandleKeeps(n: Node, o: Order, io: Io)
    requires Inv(n)
    ensures Inv(Next(n, OnHandle(o, io)))
  {
    HandleShape(n.auth, o, io);
    var (s, r) := Handle(n.auth, o, io);
    var v := if r.Ok? then r.value else SignVote(n.auth, o);
    VoteShapeKeeps(n, Next(n, OnHandle(o, io)), o, io, r.Ok?, VoteEvent(n.stretch, o, v, s.ledger, s.epoch));
  }

  /** What `Confirm` can do: nothing, or spend one sequence and journal it. */
  ghost predicate SpendShape(s: Authority, o: Order, io: Io, s': Authority) {
    var t := o.transfer;
    || (Still(s, s') && s'.poisoned == s.poisoned)
    || (&& (t.from, t.fromSeq) !in s.confirmed
        && Apply(s.ledger, t).Ok? && s'.ledger == Apply(s.ledger, t).value
        && Wrote(s, s', Confirmed(o), io)
        && s'.confirmed == (if io == Durable then s.confirmed[(t.from, t.fromSeq) := o] else s.confirmed)
        && s'.locked == (if io == Durable then Unlock(s.locked, t.from, t.fromSeq) else s.locked)
        && (s'.epochState.Fencing? ==> s'.epochState == s.epochState))
  }

  lemma ConfirmShape(s: Authority, v: Verified, c: Committee, member: bool, io: Io)
    ensures SpendShape(s, v.order, io, Confirm(s, v, c, member, io).0)
  {
  }

  lemma SpendShapeKeeps(n: Node, n': Node, o: Order, io: Io)
    requires Inv(n) && SpendShape(n.auth, o, io, n'.auth)
    requires n' == n.(auth := n'.auth, frontiers := n'.frontiers, movedFenced := n'.movedFenced)
    ensures Inv(n')
  {
    hide Supply;
    if Still(n.auth, n'.auth) {
      StillKeeps(n, n');
    } else {
      var r := Replay(n.origin, n.auth.journal).value;
      SpendKeeps(n.auth, n, o.transfer, n'.auth, o);
      SpendKeeps(r, n, o.transfer, ReplayRecord(r, Confirmed(o)).value, o);
      WriteKeeps(n, n', Confirmed(o), io);
    }
  }

  /** What `Fence` can do: nothing, or journal the proposal and withhold votes. */
  ghost predicate FenceShape(s: Authority, p: EpochProposal, io: Io, s': Authority) {
    || s' == s
    || (Wrote(s, s', EpochFence(p), io) && SameCore(s, s')
        && s'.epochState == if io == Durable then Fencing(p) else s.epochState)
  }

  lemma FenceHasShape(s: Authority, p: EpochProposal, io: Io)
    ensures FenceShape(s, p, io, Fence(s, p, io).0)
  {
  }

  lemma FenceShapeKeeps(n: Node, n': Node, p: EpochProposal, io: Io)
    requires Inv(n) && FenceShape(n.auth, p, io, n'.auth)
    requires n' == n.(auth := n'.auth, frontiers := n'.frontiers, movedFenced := n'.movedFenced)
    ensures Inv(n')
  {
    hide Supply;
    if n'.auth == n.auth {
      StillKeeps(n, n');
    } else {
      var r := Replay(n.origin, n.auth.journal).value;
      SameCoreKeeps(n.auth, n, n'.auth, n');
      SameCoreKeeps(r, n, ReplayRecord(r, EpochFence(p)).value, n');
      WriteKeeps(n, n', EpochFence(p), io);
    }
  }

  /** What `Install` can do: at most fail-stop, or journal the certificate and release all locks. */
  ghost predicate InstallShape(s: Authority, cert: EpochCert, io: Io, s': Authority) {
    || Still(s, s')
    || (&& Wrote(s, s', EpochInstalled(cert), io)
        && BuildCommittee(cert.nextRoster, s.policy, cert.epoch).Some?
        && s'.ledger == s.ledger && s'.confirmed == s.confirmed
        && s'.locked == (if io == Durable then map[] else s.locked)
        && (io == Durable ==> !s'.epochState.Fencing?))
  }

  lemma EnterEpochHasShape(s: Authority, cert: EpochCert, next: Committee, io: Io)
    requires !s.poisoned && BuildCommittee(cert.nextRoster, s.policy, cert.epoch) == Some(next)
    ensures InstallShape(s, cert, io, EnterEpoch(s, cert, next, io).0)
  {
    assert Wrote(s, EnterEpoch(s, cert, next, io).0, EpochInstalled(cert), io);
  }

  lemma InstallHasShape(s: Authority, cert: EpochCert, prior: Committee, io: Io)
    ensures InstallShape(s, cert, io, Install(s, cert, prior, io).0)
  {
    if InstallGuard(s, cert, prior).None? && !s.epochState.Installing? {
      EnterEpochHasShape(s, cert, BuildCommittee(cert.nextRoster, s.policy, cert.epoch).value, io);
    }
  }

  /** A journalled certificate opens a new stretch, in which no vote has been signed yet. */
  lemma NewStretchKeeps(s: Authority, n: Node, s': Authority, n': Node)
    requires Sound(s) && Keeps(s, n) && (forall i :: 0 <= i < |n.votes| ==> n.votes[i].stretch <= n.stretch)
    requires s'.ledger == s.ledger && s'.confirmed == s.confirmed && (s'.locked == s.locked || s'.locked == map[])
    requires n'.votes == n.votes && n'.attested == n.attested && n'.stretch == n.stretch + 1
    ensures Sound(s') && Keeps(s', n')
  {
  }

  lemma InstallShapeKeeps(n: Node, n': Node, cert: EpochCert, io: Io)
    requires Inv(n) && InstallShape(n.auth, cert, io, n'.auth)
    requires n' == n.(auth := n'.auth, frontiers := n'.frontiers, movedFenced := n'.movedFenced,
                      stretch := if n'.auth.journal != n.auth.journal then n.stretch + 1 else n.stretch)
    ensures Inv(n')
  {
    hide Supply;
    if Still(n.auth, n'.auth) {
      StillKeeps(n, n');
    } else if io == LostOnError {
      SameCoreKeeps(n.auth, n, n'.auth, n');
      WriteKeeps(n, n', EpochInstalled(cert), io);
    } else {
      var r := Replay(n.origin, n.auth.journal).value;
      NewStretchKeeps(n.auth, n, n'.auth, n');
      NewStretchKeeps(r, n, ReplayRecord(r, EpochInstalled(cert)).value, n');
      WriteKeeps(n, n', EpochInstalled(cert), io);
    }
  }

  /** Replaying a snapshot alone restores the captured ledger, lock table and confirmed map. */
  lemma SnapshotReplays(o: Origin, s: Authority, sn: SnapshotData)
    requires Sound(s) && Captures(sn, s)
    ensures Replay(o, [Snapshot(sn)]) ==
            Ok(Fresh(o).(ledger := s.ledger, locked := s.locked, confirmed := s.confirmed, epoch := s.epoch,
                         journal := [Snapshot(sn)]))
  {
    RestoreEnumeration(sn.accounts, s.ledger);
    CollectEnumeration(LockPairs(sn.locked), s.locked);
    CollectEnumeration(sn.confirmed, s.confirmed);
    ReplaySnoc(o, [], Snapshot(sn));
    assert [] + [Snapshot(sn)] == [Snapshot(sn)];
  }

  /** The log is now one snapshot of the live state. */
  lemma SwapKeeps(n: Node, n': Node, sn: SnapshotData)
    requires Inv(n) && Captures(sn, n.auth) && n.auth.epochState.Active?
    requires n' == n.(auth := n.auth.(journal := [Snapshot(sn)], poisoned := n'.auth.poisoned))
    ensures Inv(n')
  {
    SnapshotReplays(n.origin, n.auth, sn);
    var r := Replay(n.origin, n'.auth.journal).value;
    assert SameCore(n.auth, r);
    forall i | 0 <= i < |n.votes| && n.votes[i].stretch == n.stretch
      ensures Protects(r, n.votes[i].order)
    {
      assert Protects(n.auth, n.votes[i].order);
    }
    assert Keeps(r, n');
    assert Keeps(n'.auth, n');
  }

  lemma CompactKeeps(n: Node, sn: SnapshotData, io: Io)
    requires Inv(n) && Captures(sn, n.auth)
    ensures Inv(Next(n, OnCompact(sn, io)))
  {
    var n' := Next(n, OnCompact(sn, io));
    if n.auth.epochState.Active? && io != LostOnError {
      SwapKeeps(n, n', sn);
    } else {
      StillKeeps(n, n');
    }
  }

  lemma AttestKeeps(n: Node, account: AccountId, seqNo: U64)
    requires Inv(n)
    ensures Inv(Next(n, OnAttest(account, seqNo)))
  {
    hide Supply;
  }

  lemma EpochVoteKeeps(n: Node, f: Frontier)
    requires Inv(n)
    ensures Inv(Next(n, OnEpochVote(f)))
  {
  }

  lemma CrashKeeps(n: Node)
    requires Inv(n)
    ensures Inv(Next(n, OnCrash))
  {
  }

  lemma StepKeepsInv(n: Node, e: Event)
    requires Inv(n) && Enabled(n, e)
    ensures Inv(Next(n, e))
  {
    match e
    case OnHandle(o, io) => HandleKeeps(n, o, io);
    case OnConfirm(v, c, member, io) =>
      ConfirmShape(n.auth, v, c, member, io);
      SpendShapeKeeps(n, Next(n, e), v.order, io);
    case OnFence(p, io) =>
      FenceHasShape(n.auth, p, io);
      FenceShapeKeeps(n, Next(n, e), p, io);
    case OnInstall(cert, prior, io) =>
      InstallHasShape(n.auth, cert, prior, io);
      InstallShapeKeeps(n, Next(n, e), cert, io);
    case OnCompact(sn, io) => CompactKeeps(n, sn, io);
    case OnAttest(account, seqNo) => AttestKeeps(n, account, seqNo);
    case OnEpochVote(f) => EpochVoteKeeps(n, f);
    case OnCrash => CrashKeeps(n);
  }

  lemma {:induction false} RunKeepsInv(nodes: seq<Node>, events: seq<Event>, i: nat)
    requires Run(nodes, events) && i < |nodes|
    ensures Inv(nodes[i])
  {
    if i == 0 {
      InitialInv(nodes[0]);
    } else {
      RunKeepsInv(nodes, events, i - 1);
      assert Linked(nodes, events, i - 1);
      StepKeepsInv(nodes[i - 1], events[i - 1]);
    }
  }

  // ---- Theorems ----

  /** Crash-safe voting: in any run, two votes for one (account, sequence, round) slot signed with
      no epoch certificate journalled in between are votes for the same order. */
  lemma CrashSafeVoting(nodes: seq<Node>, events: seq<Event>, k: nat, i: nat, j: nat)
    requires Run(nodes, events) && k < |nodes|
    requires i < |nodes[k].votes| && j < |nodes[k].votes|
    requires nodes[k].votes[i].stretch == nodes[k].votes[j].stretch
    requires SlotOf(nodes[k].votes[i].order) == SlotOf(nodes[k].votes[j].order)
    ensures nodes[k].votes[i].order == nodes[k].votes[j].order
  {
    RunKeepsInv(nodes, events, k);
  }

  /** Recovery is total and exact: whatever log a run leaves, failed writes included, it replays
      without a corruption error; and while the authority has not fail-stopped it rebuilds exactly
      the live ledger, lock table and confirmed map, and a raised fence. */
  lemma RecoveryIsExact(nodes: seq<Node>, events: seq<Event>, k: nat)
    requires Run(nodes, events) && k < |nodes|
    ensures var live := nodes[k].auth;
            var rebuilt := Replay(nodes[k].origin, live.journal);
            && rebuilt.Ok?
            && (!live.poisoned ==>
                  && rebuilt.value.ledger == live.ledger
                  && rebuilt.value.locked == live.locked
                  && rebuilt.value.confirmed == live.confirmed
                  && (live.epochState.Fencing? ==> rebuilt.value.epochState == live.epochState))
  {
    RunKeepsInv(nodes, events, k);
  }

  /** Conservation over whole runs: whatever was confirmed, lost, compacted, crashed and recovered, the
      supply of the live ledger and of the ledger a recovery would rebuild is that of genesis. */
  lemma SupplyIsGenesis(nodes: seq<Node>, events: seq<Event>, k: nat)
    requires Run(nodes, events) && k < |nodes|
    ensures Supply(nodes[k].auth.ledger) == Supply(nodes[0].origin.genesis)
    ensures Replay(nodes[k].origin, nodes[k].auth.journal).Ok?
    ensures Supply(Replay(nodes[k].origin, nodes[k].auth.journal).value.ledger) == Supply(nodes[0].origin.genesis)
  {
    RunKeepsInv(nodes, events, k);
    RunKeepsOrigin(nodes, events, k);
  }

  lemma {:induction false} RunKeepsOrigin(nodes: seq<Node>, events: seq<Event>, k: nat)
    requires Run(nodes, events) && k < |nodes|
    ensures nodes[k].origin == nodes[0].origin
  {
    if k > 0 {
      RunKeepsOrigin(nodes, events, k - 1);
      assert Linked(nodes, events, k - 1);
    }
  }

  /** Attest-once: over a whole run, crashes included, an authority never attests two orders for
      one (account, sequence). */
  lemma AttestsOnce(nodes: seq<Node>, events: seq<Event>, k: nat, a: Attestation, b: Attestation)
    requires Run(nodes, events) && k < |nodes|
    requires a in nodes[k].attested && b in nodes[k].attested
    requires a.account == b.account && a.seqNo == b.seqNo
    ensures a.order == b.order
  {
    RunKeepsInv(nodes, events, k);
  }
}
