/** The authority object: each operation updates its fields in place and is proved to make exactly
    the transition that the run theorems reason about. `io` stands for what stable storage did. */
module AuthorityNodes {
  import opened Basics
  import opened Ledgers
  import opened Orders
  import A = Authorities

  /** List a hash map's entries in whatever order they come. */
  method ListEntries<K(==), V>(m: map<K, V>) returns (pairs: seq<(K, V)>)
    ensures Enumerates(pairs, m)
  {
    pairs := [];
    var rest := m;
    while rest != map[]
      invariant rest.Keys <= m.Keys
      invariant forall k :: k in rest ==> rest[k] == m[k]
      invariant forall i :: 0 <= i < |pairs| ==> pairs[i].0 in m && pairs[i].0 !in rest && m[pairs[i].0] == pairs[i].1
      invariant forall i, j :: 0 <= i < j < |pairs| ==> pairs[i].0 != pairs[j].0
      invariant forall k :: k in m && k !in rest ==> exists i :: 0 <= i < |pairs| && pairs[i].0 == k
      decreases rest.Keys
    {
      var k :| k in rest;
      ghost var before := pairs;
      pairs := pairs + [(k, rest[k])];
      rest := rest - {k};
      forall x | x in m && x !in rest
        ensures exists i :: 0 <= i < |pairs| && pairs[i].0 == x
      {
        if x == k {
          assert pairs[|before|].0 == x;
        } else {
          var i :| 0 <= i < |before| && before[i].0 == x;
          assert pairs[i].0 == x;
        }
      }
    }
  }

  class Authority {
    const id: AuthorityId
    const key: Key
    const policy: Policy
    var committeeId: CommitteeId
    var ledger: Ledger
    var locked: map<Slot, Order>
    var confirmed: map<(AccountId, U64), Order>
    var epoch: nat
    var epochState: A.EpochState
    var lastCert: Option<A.EpochCert>
    var poisoned: bool
    var journal: seq<A.Record>

    ghost function State(): (r: A.Authority)
      reads this
    {
      A.Authority(id, key, policy, committeeId, ledger, locked, confirmed, epoch, epochState, lastCert, poisoned,
                  journal)
    }

    constructor (o: A.Origin)
      ensures State() == A.Fresh(o)
    {
      id, key, policy, committeeId, ledger := o.id, o.key, o.policy, o.committeeId, o.genesis;
      locked, confirmed := map[], map[];
      epoch, epochState, lastCert := 0, A.Active, None;
      poisoned, journal := false, [];
    }

    method Append(record: A.Record, io: A.Io) returns (ok: bool)
      modifies this
      ensures State() == A.Append(old(State()), record, io)
      ensures ok == (io == A.Durable)
    {
      if io != A.LostOnError {
        journal := journal + [record];
      }
      ok := io == A.Durable;
      if !ok {
        poisoned := true;
      }
    }

    method CompleteInstall()
      modifies this
      ensures State() == A.CompleteInstall(old(State()))
    {
      match epochState
      case Installing(cert, next) =>
        committeeId := next.Id();
        epoch := cert.epoch;
        epochState := A.Active;
      case _ =>
    }

    method InstallCovered() returns (covered: bool)
      ensures covered == A.InstallCovered(State())
    {
      match epochState
      case Installing(cert, _) =>
        var i := 0;
        while i < |cert.frontier|
          invariant 0 <= i <= |cert.frontier|
          invariant forall k :: 0 <= k < i ==> NextSeq(ledger, cert.frontier[k].0) >= cert.frontier[k].1
        {
          if NextSeq(ledger, cert.frontier[i].0) < cert.frontier[i].1 {
            return false;
          }
          i := i + 1;
        }
        return true;
      case _ =>
        return false;
    }

    /** Vote on an order: gate, owner proof, held slot, admission, durable lock, signature. */
    method Handle(o: Order, io: A.Io) returns (r: Result<Vote, A.AuthorityError>)
      modifies this
      ensures (State(), r) == A.Handle(old(State()), o, io)
    {
      if poisoned {
        return Err(A.Poisoned);
      }
      if epochState.Fencing? {
        return Err(A.EpochFencing(epoch));
      }
      if epochState.Installing? {
        var covered := InstallCovered();
        if !covered {
          return Err(A.EpochCatchingUp(epoch));
        }
      }
      CompleteInstall();
      r := Admit(o, io);
    }

    method Admit(o: Order, io: A.Io) returns (r: Result<Vote, A.AuthorityError>)
      modifies this
      ensures (State(), r) == A.Admit(old(State()), o, io)
    {
      var owner := VerifyOrder(policy, o);
      if owner.Some? {
        return Err(A.OwnerRefused(owner.value));
      }
      var slot := SlotOf(o);
      if slot in locked {
        return if locked[slot] == o then Ok(Signed(o)) else Err(A.Equivocation(slot.account, slot.seqNo));
      }
      var t := o.transfer;
      if t.from !in ledger {
        return Err(A.NoSuchSender(t.from));
      }
      if t.amount == 0 {
        return Err(A.ZeroAmount);
      }
      var reject := Preflight(ledger, t);
      if reject.Some? {
        return Err(A.FromReject(t.from, reject.value));
      }
      var ok := Append(A.Locked(o), io);
      if !ok {
        return Err(A.JournalFailed);
      }
      locked := locked[slot := o];
      r := Ok(Signed(o));
    }

    function Signed(o: Order): (r: Vote)
      reads this
      ensures Signed(o) == A.SignVote(State(), o)
    {
      var payload := AuthorityVote(id, committeeId, o.policy, o.network, o.transfer, o.round);
      Vote(id, committeeId, o.policy, o.network, o.transfer, o.round, Sign(key, payload))
    }

    function Guard(v: A.Verified, c: Committee, member: bool): (r: Option<A.ConfirmError>)
      reads this
      ensures r == A.ConfirmGuard(State(), v, c, member)
    {
      if poisoned then Some(A.ConfirmPoisoned)
      else if v.committeeId != committeeId || c.Id() != committeeId then Some(A.ConfirmWrongCommittee)
      else if c.policy != policy || v.order.policy != policy then Some(A.ConfirmWrongPolicy)
      else match VerifyOrder(policy, v.order)
        case Some(e) => Some(A.ConfirmOwner(e))
        case None => if member && !(id in c.members && c.members[id] == key) then Some(A.ConfirmWrongCommittee)
        else None
    }

    /** Apply a verified certificate: ledger first, then the journal, then the confirmed map. */
    method Confirm(v: A.Verified, c: Committee, member: bool, io: A.Io)
      returns (r: Result<A.ConfirmOutcome, A.ConfirmError>)
      modifies this
      ensures (State(), r) == A.Confirm(old(State()), v, c, member, io)
    {
      var guard := Guard(v, c, member);
      if guard.Some? {
        return Err(guard.value);
      }
      var t := v.order.transfer;
      var spent := (t.from, t.fromSeq);
      if spent in confirmed {
        return if confirmed[spent] == v.order then Ok(A.AlreadyApplied)
               else Err(A.State(StaleSequence(NextSeq(ledger, t.from), t.fromSeq)));
      }
      var applied := Apply(ledger, t);
      if applied.Err? {
        return Err(A.State(applied.error));
      }
      ledger := applied.value;
      var ok := Append(A.Confirmed(v.order), io);
      if !ok {
        return Err(A.ConfirmJournal);
      }
      confirmed := confirmed[spent := v.order];
      locked := map k | k in locked && !(k.account == t.from && k.seqNo == t.fromSeq) :: locked[k];
      assert locked == A.Unlock(old(locked), t.from, t.fromSeq);
      var covered := InstallCovered();
      if covered {
        CompleteInstall();
      }
      r := Ok(A.Applied);
    }

    method Fence(p: A.EpochProposal, io: A.Io) returns (r: Result<A.FenceOutcome, A.EpochError>)
      modifies this
      ensures (State(), r) == A.Fence(old(State()), p, io)
    {
      if poisoned {
        return Err(A.EpochPoisoned);
      }
      if epochState.Installing? {
        return Ok(A.IgnoredInstalling);
      }
      if p.epoch != epoch + 1 {
        return Ok(A.FenceStaleEpoch(epoch + 1, p.epoch));
      }
      if p.policy != policy {
        return Err(A.Invalid);
      }
      var next := BuildCommittee(p.nextRoster, policy, p.epoch);
      if next.None? {
        return Err(A.Invalid);
      }
      if epochState.Fencing? {
        return Ok(if epochState.proposal == p then A.AlreadyFenced else A.IgnoredConflictingProposal);
      }
      var ok := Append(A.EpochFence(p), io);
      if !ok {
        return Err(A.JournalError);
      }
      epochState := A.Fencing(p);
      r := Ok(A.Fenced(next.value.Id()));
    }

    /** The next sequence number of every account, in some order. */
    method Frontier() returns (f: Frontier)
      ensures A.ListsFrontier(f, ledger)
    {
      f := ListEntries(map id | id in ledger :: ledger[id].nextSeq);
    }

    /** Assent to the fenced change over the present frontier. */
    method SignEpochVote() returns (f: Frontier, r: Result<A.EpochVote, A.EpochError>)
      ensures A.ListsFrontier(f, State().ledger) && r == A.SignEpochVote(State(), f)
    {
      f := Frontier();
      if !epochState.Fencing? {
        return f, Err(A.NotFencing);
      }
      var p := epochState.proposal;
      var next := BuildCommittee(p.nextRoster, policy, p.epoch);
      if next.None? {
        return f, Err(A.Invalid);
      }
      var digest := A.FrontierDigest(f);
      var payload := EpochAssent(id, committeeId, p.epoch, next.value.Id(), digest);
      r := Ok(A.EpochVote(id, committeeId, p.epoch, next.value.Id(), f, digest, Sign(key, payload)));
    }

    method Install(cert: A.EpochCert, prior: Committee, io: A.Io) returns (r: Result<A.InstallOutcome, A.EpochError>)
      modifies this
      ensures (State(), r) == A.Install(old(State()), cert, prior, io)
    {
      if poisoned {
        return Err(A.EpochPoisoned);
      }
      if prior.Id() != committeeId {
        return Err(A.Invalid);
      }
      if cert.epoch != epoch + 1 {
        return Ok(A.InstallStaleEpoch(epoch + 1, cert.epoch));
      }
      var next := BuildCommittee(cert.nextRoster, policy, cert.epoch);
      if next.None? {
        return Err(A.Invalid);
      }
      var certified := CheckEpochVotes(cert, next.value.Id(), prior);
      if !certified {
        return Err(A.Invalid);
      }
      if epochState.Installing? {
        if epochState.next.Id() != next.value.Id()
           || A.FrontierDigest(epochState.cert.frontier) != A.FrontierDigest(cert.frontier)
           || epochState.cert.epoch != cert.epoch
        {
          poisoned := true;
          return Err(A.ConflictingCert);
        }
        return Ok(A.AlreadyInstalled);
      }
      r := EnterEpoch(cert, next.value, io);
    }

    method EnterEpoch(cert: A.EpochCert, next: Committee, io: A.Io) returns (r: Result<A.InstallOutcome, A.EpochError>)
      modifies this
      ensures (State(), r) == A.EnterEpoch(old(State()), cert, next, io)
    {
      var ok := Append(A.EpochInstalled(cert), io);
      if !ok {
        return Err(A.JournalError);
      }
      locked := map[];
      lastCert := Some(cert);
      epochState := A.Installing(cert, next);
      var covered := InstallCovered();
      if covered {
        CompleteInstall();
        return Ok(A.Installed);
      }
      r := Ok(A.StillInstalling);
    }

    /** Snapshot the live state in map-iteration order and swap the log for it. */
    method Compact(io: A.Io) returns (sn: A.SnapshotData, r: Result<(), A.AuthorityError>)
      requires A.LocksKeyed(State())
      modifies this
      ensures A.Captures(sn, old(State()))
      ensures (State(), r) == A.Compact(old(State()), sn, io)
    {
      var accounts := ListEntries(ledger);
      var locks := ListEntries(locked);
      var spent := ListEntries(confirmed);
      var orders := seq(|locks|, i requires 0 <= i < |locks| => locks[i].1);
      assert A.LockPairs(orders) == locks by {
        forall i | 0 <= i < |locks| ensures A.LockPairs(orders)[i] == locks[i] {
          assert locks[i].0 in locked;
        }
      }
      sn := A.SnapshotData(accounts, orders, spent, epoch);
      if !epochState.Active? {
        return sn, Err(A.EpochFencing(epoch));
      }
      if io != A.LostOnError {
        journal := [A.Snapshot(sn)];
      }
      if io != A.Durable {
        poisoned := true;
        return sn, Err(A.JournalFailed);
      }
      r := Ok(());
    }

    method AttestationFor(account: AccountId, seqNo: U64) returns (a: Option<Attestation>)
      ensures a == A.AttestationFor(State(), account, seqNo)
    {
      if (account, seqNo) !in confirmed {
        return None;
      }
      var o := confirmed[(account, seqNo)];
      a := Some(Attestation(id, committeeId, account, seqNo, o, Sign(key, Effect(committeeId, account, seqNo, o))));
    }

    /** Fold one replayed record into this object; reports whether the record was sound. */
    method Replayed(rec: A.Record) returns (problem: Option<A.Corrupt>)
      modifies this
      ensures problem.None? ==> A.ReplayRecord(old(State()), rec) == Ok(State())
      ensures problem.Some? ==> A.ReplayRecord(old(State()), rec) == Err(problem.value)
    {
      journal := journal + [rec];
      match rec
      case Snapshot(sn) =>
        var restored := Restore(sn.accounts);
        if restored.Err? {
          return Some(A.SnapshotInvalid(restored.error));
        }
        ledger := restored.value;
        locked := Collect(A.LockPairs(sn.locked));
        confirmed := Collect(sn.confirmed);
        epoch, epochState := sn.epoch, A.Active;
        return None;
      case Locked(o) =>
        locked := locked[SlotOf(o) := o];
        return None;
      case Confirmed(o) =>
        var t := o.transfer;
        var applied := Apply(ledger, t);
        if applied.Err? {
          return Some(A.DoesNotApply(applied.error));
        }
        ledger := applied.value;
        confirmed := confirmed[(t.from, t.fromSeq) := o];
        locked := A.Unlock(locked, t.from, t.fromSeq);
        return None;
      case EpochFence(p) =>
        epochState := A.Fencing(p);
        return None;
      case EpochInstalled(cert) =>
        var next := BuildCommittee(cert.nextRoster, policy, cert.epoch);
        if next.None? {
          return Some(A.BadRoster);
        }
        locked := map[];
        lastCert := Some(cert);
        epochState := A.Installing(cert, next.value);
        var covered := InstallCovered();
        if covered {
          CompleteInstall();
        }
        return None;
    }
  }

  /** The vote loop of an epoch certificate decides exactly `EpochCertified`. */
  method CheckEpochVotes(cert: A.EpochCert, nextId: CommitteeId, prior: Committee) returns (ok: bool)
    ensures ok == A.EpochCertified(cert, nextId, prior)
  {
    var seen: set<AuthorityId> := {};
    var i := 0;
    while i < |cert.votes|
      invariant 0 <= i <= |cert.votes|
      invariant A.EpochVotesGood(cert, nextId, prior, i)
      invariant seen == A.EpochVoters(cert.votes[..i])
    {
      var v := cert.votes[i];
      if !A.EpochVoteValid(v, cert, nextId, prior) || v.authority in seen {
        if A.EpochCertified(cert, nextId, prior) {
          EpochVotesPrefix(cert, nextId, prior, i + 1, |cert.votes|);
        }
        return false;
      }
      EpochVotersSnoc(cert.votes[..i], v);
      assert cert.votes[..i + 1] == cert.votes[..i] + [v];
      seen := seen + {v.authority};
      i := i + 1;
    }
    assert cert.votes[..|cert.votes|] == cert.votes;
    ok := |seen| >= prior.QuorumSize();
  }

  lemma {:induction false} EpochVotesPrefix(cert: A.EpochCert, nextId: CommitteeId, prior: Committee, i: nat, n: nat)
    requires i <= n <= |cert.votes| && A.EpochVotesGood(cert, nextId, prior, n)
    ensures A.EpochVotesGood(cert, nextId, prior, i)
    decreases n
  {
    if i < n {
      EpochVotesPrefix(cert, nextId, prior, i, n - 1);
    }
  }

  lemma EpochVotersSnoc(votes: seq<A.EpochVote>, v: A.EpochVote)
    ensures A.EpochVoters(votes + [v]) == A.EpochVoters(votes) + {v.authority}
  {
    var all := votes + [v];
    forall a | a in A.EpochVoters(votes) + {v.authority}
      ensures a in A.EpochVoters(all)
    {
      if a == v.authority {
        assert all[|votes|].authority == a;
      } else {
        var i :| 0 <= i < |votes| && votes[i].authority == a;
        assert all[i].authority == a;
      }
    }
  }

  /** Restart: fold the journal, in append order, over a fresh authority. */
  method Recover(o: A.Origin, records: seq<A.Record>) returns (me: Authority, problem: Option<A.Corrupt>)
    ensures fresh(me)
    ensures problem.None? ==> A.Replay(o, records) == Ok(me.State())
    ensures problem.Some? ==> A.Replay(o, records) == Err(problem.value)
  {
    me := new Authority(o);
    for i := 0 to |records|
      invariant fresh(me)
      invariant A.Replay(o, records[..i]) == Ok(me.State())
    {
      assert records[..i + 1][..i] == records[..i];
      problem := me.Replayed(records[i]);
      if problem.Some? {
        ReplayFails(o, records, i + 1);
        return;
      }
    }
    assert records[..|records|] == records;
    problem := None;
  }

  /** Once a prefix of the log is corrupt, so is the log. */
  lemma {:induction false} ReplayFails(o: A.Origin, records: seq<A.Record>, i: nat)
    requires i <= |records| && A.Replay(o, records[..i]).Err?
    ensures A.Replay(o, records) == A.Replay(o, records[..i])
    decreases |records|
  {
    if i < |records| {
      var init := records[..|records| - 1];
      assert init[..i] == records[..i];
      ReplayFails(o, init, i);
    } else {
      assert records[..i] == records;
    }
  }
}
