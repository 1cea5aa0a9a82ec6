/** When two epoch certificates agree: as long as no honest member crashes and none moves its ledger behind a
    fence, one epoch has one certified roster over one frontier. */
module EpochAgreement {
  import opened Basics
  import opened Ledgers
  import opened Orders
  import opened Authorities
  import opened AuthorityRuns
  import opened EpochRuns
  import opened Committees
  import opened Realizations

  // ---- A frontier has one digest ----

  lemma {:induction false} DistinctMultiset(f: Frontier)
    requires forall i, j :: 0 <= i < j < |f| ==> f[i].0 != f[j].0
    ensures multiset(f) == multiset(set x | x in f)
  {
    if f != [] {
      var init, last := f[..|f| - 1], f[|f| - 1];
      DistinctMultiset(init);
      assert f == init + [last];
      assert (set x | x in f) == (set x | x in init) + {last};
      assert last !in init;
    }
  }

  lemma ListingsAgree(f: Frontier, g: Frontier, l: Ledger)
    requires ListsFrontier(f, l) && ListsFrontier(g, l)
    ensures FrontierDigest(f) == FrontierDigest(g)
  {
    DistinctMultiset(f);
    DistinctMultiset(g);
    ListedAlike(f, g, l);
    ListedAlike(g, f, l);
    assert (set x | x in f) == (set x | x in g);
  }

  lemma ListedAlike(f: Frontier, g: Frontier, l: Ledger)
    requires ListsFrontier(f, l) && ListsFrontier(g, l)
    ensures forall x :: x in f ==> x in g
  {
    var m := map id | id in l :: l[id].nextSeq;
    forall x | x in f
      ensures x in g
    {
      var i :| 0 <= i < |f| && f[i] == x;
      assert x.0 in m && m[x.0] == x.1;
      var j :| 0 <= j < |g| && g[j].0 == x.0;
    }
  }

  // ---- One member's assents ----

  /** The assent fits the proposal the member is fenced on and its present ledger. */
  ghost predicate Fits(v: EpochVote, s: Authority)
    requires s.epochState.Fencing?
  {
    var p := s.epochState.proposal;
    && BuildCommittee(p.nextRoster, s.policy, p.epoch).Some?
    && v.nextCommitteeId == BuildCommittee(p.nextRoster, s.policy, p.epoch).value.Id()
    && forall f :: ListsFrontier(f, s.ledger) ==> FrontierDigest(f) == v.frontierDigest
  }

  ghost predicate StateTracked(s: Authority) {
    InstallTracked(s) && (s.epochState.Fencing? ==> s.epochState.proposal.epoch == s.epoch + 1)
  }

  /** Assents for one epoch agree, and those for the next epoch fit the fence the member is behind. */
  ghost predicate AssentsAgree(n: Node) {
    && StateTracked(n.auth)
    && (forall v :: v in n.epochVotes ==> v.epoch <= n.auth.epoch + 1)
    && (forall v, w :: v in n.epochVotes && w in n.epochVotes && v.epoch == w.epoch
                       ==> v.nextCommitteeId == w.nextCommitteeId && v.frontierDigest == w.frontierDigest)
    && (forall v :: v in n.epochVotes && v.epoch == n.auth.epoch + 1 ==>
          !n.auth.epochState.Active? && (n.auth.epochState.Fencing? ==> Fits(v, n.auth)))
  }

  /** How an operation may move the state without moving the ledger behind a fence. */
  ghost predicate Moves(s: Authority, s': Authority) {
    && StateTracked(s') && s'.policy == s.policy
    && (|| (s'.epoch == s.epoch && s'.epochState == s.epochState && (s.epochState.Fencing? ==> s'.ledger == s.ledger))
        || (s'.epoch == s.epoch && s'.epochState.Installing?)
        || (s'.epoch == s.epoch && s.epochState.Active? && s'.epochState.Fencing?)
        || (s'.epoch == s.epoch + 1 && s'.epochState.Active?))
  }

  lemma HandleMoves(s: Authority, o: Order, io: Io)
    requires StateTracked(s)
    ensures Moves(s, Handle(s, o, io).0)
  {
    if !s.poisoned && !s.epochState.Fencing? && (s.epochState.Installing? ==> InstallCovered(s)) {
      AdmitEpoch(CompleteInstall(s), o, io);
      AdmitPolicy(CompleteInstall(s), o, io);
    }
  }

  lemma AdmitPolicy(s: Authority, o: Order, io: Io)
    ensures Admit(s, o, io).0.policy == s.policy
  {
  }

  lemma ConfirmMoves(s: Authority, v: Verified, c: Committee, member: bool, io: Io)
    requires StateTracked(s)
    requires s.epochState.Fencing? ==> Confirm(s, v, c, member, io).0.ledger == s.ledger
    ensures Moves(s, Confirm(s, v, c, member, io).0)
  {
    hide Apply, ConfirmGuard, Unlock;
  }

  lemma FenceMoves(s: Authority, p: EpochProposal, io: Io)
    requires StateTracked(s)
    ensures Moves(s, Fence(s, p, io).0)
  {
    hide BuildCommittee;
  }

  lemma InstallMoves(s: Authority, cert: EpochCert, prior: Committee, io: Io)
    requires StateTracked(s)
    ensures Moves(s, Install(s, cert, prior, io).0)
  {
    hide BuildCommittee, EpochCertified, Covers;
  }

  lemma MoveKeeps(n: Node, n': Node)
    requires AssentsAgree(n) && Moves(n.auth, n'.auth) && n'.epochVotes == n.epochVotes
    ensures AssentsAgree(n')
  {
  }

  lemma AssentKeeps(n: Node, f: Frontier)
    requires AssentsAgree(n) && ListsFrontier(f, n.auth.ledger)
    ensures AssentsAgree(Next(n, OnEpochVote(f)))
  {
    hide ListsFrontier, FrontierDigest;
    var r := SignEpochVote(n.auth, f);
    if r.Ok? {
      forall g | ListsFrontier(g, n.auth.ledger)
        ensures FrontierDigest(g) == r.value.frontierDigest
      {
        ListingsAgree(f, g, n.auth.ledger);
      }
    }
  }

  /** The node has neither crashed nor moved its ledger behind a fence. */
  predicate Calm(n: Node) {
    !n.crashed && !n.movedFenced
  }

  lemma NextKeepsAssents(n: Node, e: Event)
    requires (Calm(n) ==> AssentsAgree(n)) && Enabled(n, e) && Replay(n.origin, n.auth.journal).Ok?
    ensures Calm(Next(n, e)) ==> AssentsAgree(Next(n, e))
  {
    hide AssentsAgree, Moves, StateTracked, Replay;
    if Calm(Next(n, e)) {
      TrackedFrom(n);
      match e
      case OnHandle(o, io) =>
        HandleMoves(n.auth, o, io);
        MoveKeeps(n, Next(n, e));
      case OnConfirm(v, c, member, io) =>
        ConfirmMoves(n.auth, v, c, member, io);
        MoveKeeps(n, Next(n, e));
      case OnFence(p, io) =>
        FenceMoves(n.auth, p, io);
        MoveKeeps(n, Next(n, e));
      case OnEpochVote(f) => AssentKeeps(n, f);
      case OnInstall(cert, prior, io) =>
        InstallMoves(n.auth, cert, prior, io);
        MoveKeeps(n, Next(n, e));
      case OnCompact(sn, io) =>
        CompactMoves(n.auth, sn, io);
        MoveKeeps(n, Next(n, e));
      case OnAttest(account, seqNo) =>
        StayMoves(n.auth);
        MoveKeeps(n, Next(n, e));
      case OnCrash =>
    }
  }

  lemma TrackedFrom(n: Node)
    ensures AssentsAgree(n) ==> StateTracked(n.auth)
  {
  }

  lemma CompactMoves(s: Authority, sn: SnapshotData, io: Io)
    requires StateTracked(s)
    ensures Moves(s, Compact(s, sn, io).0)
  {
  }

  lemma StayMoves(s: Authority)
    requires StateTracked(s)
    ensures Moves(s, s)
  {
  }

  lemma {:induction false} RunKeepsAssents(states: seq<System>, moves: seq<Move>, k: nat)
    requires SystemRun(states, moves) && k < |states|
    ensures forall id :: id in states[k] && Calm(states[k][id]) ==> AssentsAgree(states[k][id])
  {
    hide AssentsAgree, Next, Calm, Inv;
    if k == 0 {
      forall id | id in states[0]
        ensures AssentsAgree(states[0][id])
      {
        InitialAssents(states[0][id]);
      }
    } else {
      RunKeepsAssents(states, moves, k - 1);
      SystemRunKeepsInv(states, moves, k - 1);
      assert SystemLinked(states, moves, k - 1);
      var id, e := moves[k - 1].id, moves[k - 1].event;
      InvRecovers(states[k - 1][id]);
      NextKeepsAssents(states[k - 1][id], e);
    }
  }

  lemma InvRecovers(n: Node)
    requires Inv(n)
    ensures Replay(n.origin, n.auth.journal).Ok?
  {
  }

  lemma InitialAssents(n: Node)
    requires Initial(n)
    ensures AssentsAgree(n)
  {
  }

  // ---- Certificates ----

  /** Two certificates for one epoch of a prior committee, each with the next committee it names. */
  datatype Certs = Certs(prior: Committee, x: EpochCert, nextX: CommitteeId, y: EpochCert, nextY: CommitteeId)

  /** Both are valid, and consist of issued epoch votes, in a run without forged evidence of a committee within
      budget. */
  ghost predicate Setting(sys: System, cs: Certs) {
    && Realizable(sys) && WithinBudget(sys, cs.prior) && cs.x.epoch == cs.y.epoch
    && EpochCertified(cs.x, cs.nextX, cs.prior) && EpochCertified(cs.y, cs.nextY, cs.prior)
    && forall v :: v in cs.x.votes || v in cs.y.votes ==> IssuedEpochVote(sys, v)
  }

  /** Honest members crash, or move their ledgers behind a fence, only if that is admitted. */
  ghost predicate Admitted(sys: System, crashes: bool, moves: bool) {
    && (!crashes ==> forall id :: id in sys ==> !sys[id].crashed)
    && (!moves ==> forall id :: id in sys ==> !sys[id].movedFenced)
  }

  /** The certificates name one next committee and one frontier. */
  predicate Agree(cs: Certs) {
    cs.nextX == cs.nextY && FrontierDigest(cs.x.frontier) == FrontierDigest(cs.y.frontier)
  }

  lemma {:induction false} VotesValid(cert: EpochCert, nextId: CommitteeId, prior: Committee, n: nat, i: nat)
    requires n <= |cert.votes| && EpochVotesGood(cert, nextId, prior, n) && i < n
    ensures EpochVoteValid(cert.votes[i], cert, nextId, prior)
    decreases n
  {
    if i < n - 1 {
      VotesValid(cert, nextId, prior, n - 1, i);
    }
  }

  lemma VoterBehind(cert: EpochCert, nextId: CommitteeId, prior: Committee, h: AuthorityId) returns (v: EpochVote)
    requires EpochCertified(cert, nextId, prior) && h in EpochVoters(cert.votes)
    ensures v in cert.votes && v.authority == h && h in prior.members
    ensures v.epoch == cert.epoch && v.nextCommitteeId == nextId && v.frontierDigest == FrontierDigest(cert.frontier)
  {
    var i :| 0 <= i < |cert.votes| && cert.votes[i].authority == h;
    VotesValid(cert, nextId, prior, |cert.votes|, i);
    v := cert.votes[i];
  }

  lemma VotersInside(cert: EpochCert, nextId: CommitteeId, prior: Committee)
    requires EpochCertified(cert, nextId, prior)
    ensures EpochVoters(cert.votes) <= prior.members.Keys
    ensures |EpochVoters(cert.votes)| >= Quorums.Quorum(|prior.members.Keys|)
  {
    forall h | h in EpochVoters(cert.votes)
      ensures h in prior.members
    {
      var v := VoterBehind(cert, nextId, prior, h);
    }
    assert |prior.members.Keys| == |prior.members|;
  }

  /** Epoch certificates agree: without crashes and without ledgers moving behind a fence, two valid certificates of
      issued votes for one epoch name the same next committee and the same frontier. */
  lemma EpochCertificatesAgree(sys: System, cs: Certs)
    requires Setting(sys, cs) && Admitted(sys, false, false)
    ensures Agree(cs)
  {
    VotersInside(cs.x, cs.nextX, cs.prior);
    VotersInside(cs.y, cs.nextY, cs.prior);
    assert |cs.prior.members.Keys| == |cs.prior.members|;
    var keys := cs.prior.members.Keys;
    var h := Quorums.QuorumsShareHonest(keys, keys - sys.Keys, EpochVoters(cs.x.votes), EpochVoters(cs.y.votes));
    var v := VoterBehind(cs.x, cs.nextX, cs.prior, h);
    var w := VoterBehind(cs.y, cs.nextY, cs.prior, h);
    assert IssuedEpochVote(sys, v) && IssuedEpochVote(sys, w);
    CalmMember(sys, h);
  }

  lemma CalmMember(sys: System, id: AuthorityId)
    requires Realizable(sys) && id in sys && Calm(sys[id])
    ensures AssentsAgree(sys[id])
  {
    hide AssentsAgree, Calm;
    var states, moves :| SystemRun(states, moves) && AllGrounded(states, moves) && states[|moves|] == sys;
    RunKeepsAssents(states, moves, |moves|);
  }
}
