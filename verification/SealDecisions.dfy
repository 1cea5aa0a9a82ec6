/** What the agreement node does with a whole script of messages, and how sharp the void test is. */
module SealDecisions {
  import opened Basics
  import opened Ledgers
  import opened Orders
  import opened SlotSeals
  import FinalityLimits

  // ---- Scripts ----

  ghost predicate ValidAt(c: Committee, own: seq<Vote>, msgs: seq<Msg>, i: nat)
    requires i < |msgs|
  {
    msgs[i].Propose? && ExternallyValid(msgs[i].proposal, c, own)
  }

  /** The first proposal of the script that the node finds valid. */
  ghost predicate FirstValid(c: Committee, own: seq<Vote>, msgs: seq<Msg>, i: nat) {
    i < |msgs| && ValidAt(c, own, msgs, i) && forall j :: 0 <= j < i ==> !ValidAt(c, own, msgs, j)
  }

  /** The node itself, and whoever voted for the digest after it did. */
  function Heard(id: string, msgs: seq<Msg>, i: nat, d: Digest): (names: set<string>) {
    {id} + set j | i < j < |msgs| && msgs[j].SealVote? && msgs[j].digest == d :: msgs[j].from
  }

  /** The node's state after the script, told from the script alone. */
  ghost predicate Tells(x: Site, c: Committee, msgs: seq<Msg>, s: NodeState) {
    && s.id == x.id && s.committee == c && s.own == x.own
    && ((forall i :: 0 <= i < |msgs| ==> !ValidAt(c, x.own, msgs, i)) ==> s == FreshNode(x.id, c, x.own))
    && (forall i: nat :: FirstValid(c, x.own, msgs, i) ==> FollowsProposal(x, c, msgs, i, s))
  }

  ghost predicate FollowsProposal(x: Site, c: Committee, msgs: seq<Msg>, i: nat, s: NodeState)
    requires FirstValid(c, x.own, msgs, i)
  {
    var seal := msgs[i].proposal.seal;
    var names := Heard(x.id, msgs, i, SealDigest(seal));
    && s.votedFor == Some(SealDigest(seal)) && s.proposalSeal == Some(seal)
    && s.votes == map[SealDigest(seal) := names]
    && s.decided == if |names| >= c.QuorumSize() then Some(seal) else None
  }

  lemma FirstIsUnique(c: Committee, own: seq<Vote>, msgs: seq<Msg>, i: nat, j: nat)
    requires FirstValid(c, own, msgs, i) && FirstValid(c, own, msgs, j)
    ensures i == j
  {
    hide ValidAt;
  }

  lemma {:induction false} SomeFirst(c: Committee, own: seq<Vote>, msgs: seq<Msg>, k: nat) returns (i: nat)
    requires k < |msgs| && ValidAt(c, own, msgs, k)
    ensures FirstValid(c, own, msgs, i)
  {
    hide ValidAt;
    if j: nat :| j < k && ValidAt(c, own, msgs, j) {
      i := SomeFirst(c, own, msgs, j);
    } else {
      i := k;
    }
  }

  lemma ValidSnoc(c: Committee, own: seq<Vote>, msgs: seq<Msg>, m: Msg, i: nat)
    requires i < |msgs|
    ensures ValidAt(c, own, msgs + [m], i) <==> ValidAt(c, own, msgs, i)
    ensures FirstValid(c, own, msgs + [m], i) <==> FirstValid(c, own, msgs, i)
  {
    var all := msgs + [m];
    forall j | 0 <= j <= i
      ensures ValidAt(c, own, all, j) <==> ValidAt(c, own, msgs, j)
    {
      assert all[j] == msgs[j];
    }
    hide ValidAt;
  }

  lemma HeardSnoc(id: string, msgs: seq<Msg>, m: Msg, i: nat, d: Digest)
    requires i < |msgs|
    ensures Heard(id, msgs + [m], i, d)
         == Heard(id, msgs, i, d) + (if m.SealVote? && m.digest == d then {m.from} else {})
  {
    var all := msgs + [m];
    forall x | x in Heard(id, msgs, i, d)
      ensures x in Heard(id, all, i, d)
    {
      if x != id {
        var j :| i < j < |msgs| && msgs[j].SealVote? && msgs[j].digest == d && msgs[j].from == x;
        assert all[j] == msgs[j];
      }
    }
    if m.SealVote? && m.digest == d {
      assert all[|msgs|] == m;
    }
  }

  /** One more message for a node that already follows a proposal. */
  lemma FollowNext(x: Site, c: Committee, msgs: seq<Msg>, s: NodeState, m: Msg, i: nat)
    requires Tells(x, c, msgs, s) && FirstValid(c, x.own, msgs, i)
    ensures FirstValid(c, x.own, msgs + [m], i) && FollowsProposal(x, c, msgs + [m], i, Process(s, m))
    ensures Process(s, m).id == x.id && Process(s, m).committee == c && Process(s, m).own == x.own
  {
    ValidSnoc(c, x.own, msgs, m, i);
    assert FollowsProposal(x, c, msgs, i, s);
    var d := SealDigest(msgs[i].proposal.seal);
    HeardSnoc(x.id, msgs, m, i, d);
    assert (msgs + [m])[i] == msgs[i];
    SubsetSize(Heard(x.id, msgs, i, d), Heard(x.id, msgs + [m], i, d));
    ProcessFollowing(s, m, msgs[i].proposal.seal, Heard(x.id, msgs, i, d));
    hide ExternallyValid, Heard, FirstValid, Process, Tells;
  }

  /** A node that follows a seal only ever adds names, and decides once they make a quorum. */
  lemma ProcessFollowing(s: NodeState, m: Msg, seal: SlotSeal, names: set<string>)
    requires s.votedFor == Some(SealDigest(seal)) && s.proposalSeal == Some(seal)
    requires s.votes == map[SealDigest(seal) := names]
    requires s.decided == if |names| >= s.committee.QuorumSize() then Some(seal) else None
    ensures var d := SealDigest(seal);
            var names' := names + (if m.SealVote? && m.digest == d then {m.from} else {});
            Process(s, m) == s.(votes := map[d := names'],
                                decided := if |names'| >= s.committee.QuorumSize() then Some(seal) else None)
  {
    var d := SealDigest(seal);
    if m.SealVote? && m.digest == d {
      SubsetSize(names, names + {m.from});
      assert s.votes[d := names + {m.from}] == map[d := names + {m.from}];
    } else {
      assert names + {} == names;
    }
    hide ExternallyValid;
  }

  /** The first valid proposal. */
  lemma FollowFirst(x: Site, c: Committee, msgs: seq<Msg>, s: NodeState, m: Msg)
    requires s == FreshNode(x.id, c, x.own) && FirstValid(c, x.own, msgs + [m], |msgs|)
    ensures FollowsProposal(x, c, msgs + [m], |msgs|, Process(s, m))
  {
    var all := msgs + [m];
    assert all[|msgs|] == m;
    assert Heard(x.id, all, |msgs|, SealDigest(m.proposal.seal)) == {x.id};
    hide ExternallyValid, Heard;
  }

  lemma {:induction false} ScriptTells(x: Site, c: Committee, msgs: seq<Msg>)
    ensures Tells(x, c, msgs, ProcessAll(FreshNode(x.id, c, x.own), msgs))
    decreases |msgs|
  {
    hide Process, Tells;
    if msgs == [] {
      NothingTold(x, c);
    } else {
      var init, m := msgs[..|msgs| - 1], msgs[|msgs| - 1];
      ScriptTells(x, c, init);
      assert msgs == init + [m];
      OneMoreMessage(x, c, init, ProcessAll(FreshNode(x.id, c, x.own), init), m);
    }
  }

  lemma NothingTold(x: Site, c: Committee)
    ensures Tells(x, c, [], FreshNode(x.id, c, x.own))
  {
    hide ExternallyValid, FollowsProposal;
  }

  lemma OneMoreMessage(x: Site, c: Committee, msgs: seq<Msg>, s: NodeState, m: Msg)
    requires Tells(x, c, msgs, s)
    ensures Tells(x, c, msgs + [m], Process(s, m))
  {
    hide Process, FollowsProposal, ValidAt;
    if i: nat :| FirstValid(c, x.own, msgs, i) {
      FollowNext(x, c, msgs, s, m, i);
      OnlyFirst(c, x.own, msgs + [m], i);
    } else {
      NoneValid(c, x.own, msgs);
      StepFresh(x, c, msgs, s, m);
    }
  }

  lemma OnlyFirst(c: Committee, own: seq<Vote>, msgs: seq<Msg>, i: nat)
    requires FirstValid(c, own, msgs, i)
    ensures forall j: nat :: FirstValid(c, own, msgs, j) ==> j == i
    ensures exists j :: 0 <= j < |msgs| && ValidAt(c, own, msgs, j)
  {
    forall j: nat | FirstValid(c, own, msgs, j)
      ensures j == i
    {
      FirstIsUnique(c, own, msgs, i, j);
    }
    hide ValidAt;
  }

  lemma NoneValid(c: Committee, own: seq<Vote>, msgs: seq<Msg>)
    requires forall i: nat :: !FirstValid(c, own, msgs, i)
    ensures forall i :: 0 <= i < |msgs| ==> !ValidAt(c, own, msgs, i)
  {
    forall i | 0 <= i < |msgs|
      ensures !ValidAt(c, own, msgs, i)
    {
      if ValidAt(c, own, msgs, i) {
        var j := SomeFirst(c, own, msgs, i);
      }
    }
  }

  /** A node that follows nothing yet either takes up this message or ignores it. */
  lemma StepFresh(x: Site, c: Committee, msgs: seq<Msg>, s: NodeState, m: Msg)
    requires s == FreshNode(x.id, c, x.own) && forall i :: 0 <= i < |msgs| ==> !ValidAt(c, x.own, msgs, i)
    ensures Tells(x, c, msgs + [m], Process(s, m))
  {
    var all := msgs + [m];
    forall i: nat | i < |msgs|
      ensures !ValidAt(c, x.own, all, i)
    {
      ValidSnoc(c, x.own, msgs, m, i);
    }
    assert all[|msgs|] == m;
    if ValidAt(c, x.own, all, |msgs|) {
      assert FirstValid(c, x.own, all, |msgs|);
      FollowFirst(x, c, msgs, s, m);
      OnlyFirst(c, x.own, all, |msgs|);
      KeepsSite(s, m);
      hide Process, FollowsProposal, ExternallyValid;
    } else {
      assert Process(s, m) == s by {
        hide ExternallyValid;
      }
      hide Process, FollowsProposal, ExternallyValid;
    }
  }

  lemma KeepsSite(s: NodeState, m: Msg)
    ensures Process(s, m).id == s.id && Process(s, m).committee == s.committee && Process(s, m).own == s.own
  {
    hide ExternallyValid;
  }

  /** A node decides a seal exactly if the first proposal that it finds valid is for this seal, and a quorum of names
      is made up by the node itself and those that vote for the seal's digest after that proposal. */
  lemma DecidesExactly(x: Site, c: Committee, msgs: seq<Msg>, seal: SlotSeal)
    ensures Outcome(c, x, msgs) == Some(seal) <==>
              exists i: nat :: FirstValid(c, x.own, msgs, i) && msgs[i].proposal.seal == seal
                          && |Heard(x.id, msgs, i, SealDigest(seal))| >= c.QuorumSize()
  {
    ScriptTells(x, c, msgs);
    var s := ProcessAll(FreshNode(x.id, c, x.own), msgs);
    hide ProcessAll, ExternallyValid, Heard;
    if i: nat :| FirstValid(c, x.own, msgs, i) {
      assert FollowsProposal(x, c, msgs, i, s);
      OnlyFirst(c, x.own, msgs, i);
      assert Outcome(c, x, msgs) == Some(seal) <==>
               msgs[i].proposal.seal == seal && |Heard(x.id, msgs, i, SealDigest(seal))| >= c.QuorumSize();
    } else {
      NoneValid(c, x.own, msgs);
    }
  }

  /** A node votes exactly once in a script, if at all: on the first proposal that it finds valid, for that seal's
      digest and under its own name. */
  lemma RepliesExactly(x: Site, c: Committee, msgs: seq<Msg>, k: nat)
    requires k < |msgs|
    ensures Reply(ProcessAll(FreshNode(x.id, c, x.own), msgs[..k]), msgs[k])
         == if FirstValid(c, x.own, msgs, k) then Some(SealVote(SealDigest(msgs[k].proposal.seal), x.id)) else None
  {
    var past := msgs[..k];
    ScriptTells(x, c, past);
    var s := ProcessAll(FreshNode(x.id, c, x.own), past);
    forall j | 0 <= j < k
      ensures ValidAt(c, x.own, past, j) <==> ValidAt(c, x.own, msgs, j)
    {
      assert past[j] == msgs[j];
    }
    hide ProcessAll, ExternallyValid;
    if i: nat :| FirstValid(c, x.own, past, i) {
      assert FollowsProposal(x, c, past, i, s);
      assert ValidAt(c, x.own, msgs, i);
    } else {
      NoneValid(c, x.own, past);
    }
  }

  // ---- What is externally valid ----

  /** A proposal is valid exactly if it finalizes an order of its slot whose owner and a quorum of distinct members
      signed it, or voids the slot with evidence for a committee of this size, in which together with the node's own
      votes every choice has at least 2f + 1 voters against it. */
  lemma ValidExactly(p: SealProposal, c: Committee, own: seq<Vote>)
    requires c.members != map[]
    ensures ExternallyValid(p, c, own) <==>
              match p.seal.outcome
              case Finalize(o) =>
                && p.evidence.CertFor? && p.evidence.cert.order == o
                && o.transfer.from == p.seal.account && o.transfer.fromSeq == p.seal.seqNo
                && SignedByQuorum(p.evidence.cert, c)
              case VoidSlot =>
                && p.evidence.NoCertProof? && p.evidence.committeeSize == |c.members|
                && forall k :: |Against(p.evidence.votes + own, c, p.seal.account, p.seal.seqNo, k)|
                               >= 2 * Quorums.MaxFaulty(|c.members|) + 1
  {
    match (p.seal.outcome, p.evidence)
    case (Finalize(_), CertFor(cert)) => CertifiedExactly(cert, c);
    case (VoidSlot, NoCertProof(votes, _)) => PassesExactly(votes + own, c, p.seal.account, p.seal.seqNo);
    case _ =>
  }

  ghost predicate SignedByQuorum(cert: Certificate, c: Committee) {
    && OwnerSigned(c.policy, cert.order) && cert.votes != []
    && (forall k :: 0 <= k < |cert.votes| ==> SupportsOrder(cert.votes[k], cert.order, c))
    && (forall j, k :: 0 <= j < k < |cert.votes| ==> cert.votes[j].authority != cert.votes[k].authority)
    && |cert.votes| >= Quorums.Quorum(|c.members|)
  }

  /** The vote is for the slot and signed by the member that it names. */
  predicate SignedForSlot(v: Vote, c: Committee, account: AccountId, seqNo: U64) {
    && v.transfer.from == account && v.transfer.fromSeq == seqNo
    && v.authority in c.members && v.signature.signer == c.members[v.authority]
    && v.signature.payload == AuthorityVote(v.authority, v.committeeId, v.policy, v.network, v.transfer, v.round)
  }

  /** The members that voted for the slot but never for this recipient and amount. */
  function Against(votes: seq<Vote>, c: Committee, account: AccountId, seqNo: U64, k: Choice): (s: set<AuthorityId>) {
    (set i | 0 <= i < |votes| && SignedForSlot(votes[i], c, account, seqNo) :: votes[i].authority)
    - set i | 0 <= i < |votes| && SignedForSlot(votes[i], c, account, seqNo)
              && votes[i].transfer.to == k.to && votes[i].transfer.amount == k.amount :: votes[i].authority
  }

  lemma AgainstIs(votes: seq<Vote>, c: Committee, account: AccountId, seqNo: U64, k: Choice)
    ensures Against(votes, c, account, seqNo, k)
         == Observed(votes, c, account, seqNo) - Supporters(votes, c, account, seqNo, k)
  {
    forall v | v in votes
      ensures SignedForSlot(v, c, account, seqNo) == Counts(v, c, account, seqNo)
    {
    }
    hide SignedForSlot, Counts;
  }

  /** The void test passes exactly if every choice has at least 2f + 1 voters against it. */
  lemma PassesExactly(votes: seq<Vote>, c: Committee, account: AccountId, seqNo: U64)
    requires c.members != map[]
    ensures NoCertCanForm(votes, c, account, seqNo)
            <==> forall k :: |Against(votes, c, account, seqNo, k)| >= 2 * Quorums.MaxFaulty(|c.members|) + 1
  {
    forall k
      ensures Blocked(votes, c, account, seqNo, k)
              <==> |Against(votes, c, account, seqNo, k)| >= 2 * Quorums.MaxFaulty(|c.members|) + 1
    {
      AgainstIs(votes, c, account, seqNo, k);
      BlockedMeansOutvoted(votes, c, account, seqNo, k);
    }
    if NoCertCanForm(votes, c, account, seqNo) {
      forall k
        ensures Blocked(votes, c, account, seqNo, k)
      {
        BlockedOrAbsent(votes, c, account, seqNo, k);
      }
    }
    if forall k :: Blocked(votes, c, account, seqNo, k) {
      assert Blocked(votes, c, account, seqNo, Choice("", 0));
    }
    hide Against;
  }

  // ---- The void test is sharp ----

  /** Some later votes, of members that had not voted yet and of at most f that vote twice, give a choice a quorum. */
  ghost predicate CanStillCertify(observed: seq<Vote>, c: Committee, account: AccountId, seqNo: U64) {
    exists later, honest: set<AuthorityId>, k :: Overturns(observed, later, honest, c, account, seqNo, k)
  }

  ghost predicate Overturns(observed: seq<Vote>, later: seq<Vote>, honest: set<AuthorityId>, c: Committee,
                            account: AccountId, seqNo: U64, k: Choice) {
    && OneChoiceEach(observed + later, honest, c, account, seqNo)
    && |c.members.Keys - honest| <= Quorums.MaxFaulty(|c.members|)
    && |Supporters(observed + later, c, account, seqNo, k)| >= c.QuorumSize()
  }

  function VoteFor(id: AuthorityId, c: Committee, account: AccountId, seqNo: U64, k: Choice): (v: Vote)
    requires id in c.members
  {
    var t := Transfer(account, seqNo, k.to, k.amount);
    Vote(id, c.Id(), c.policy, c.policy.network, t, 0,
         Sign(c.members[id], AuthorityVote(id, c.Id(), c.policy, c.policy.network, t, 0)))
  }

  function VotesFor(ids: seq<AuthorityId>, c: Committee, account: AccountId, seqNo: U64, k: Choice): (votes: seq<Vote>)
    requires forall id :: id in ids ==> id in c.members
  {
    seq(|ids|, i requires 0 <= i < |ids| => VoteFor(ids[i], c, account, seqNo, k))
  }

  lemma TakeSome<T>(s: set<T>, n: nat) returns (r: set<T>)
    ensures r <= s && |r| == if n < |s| then n else |s|
  {
    r := {};
    var rest := s;
    while |r| < n && rest != {}
      invariant r <= s && rest == s - r && |r| <= n && |r| + |rest| == |s|
      decreases rest
    {
      var x :| x in rest;
      r := r + {x};
      rest := rest - {x};
    }
    assert rest == {} ==> r == s;
  }

  /** Whoever votes later for the choice supports it then, as do its earlier supporters. */
  lemma LaterSupport(observed: seq<Vote>, ids: seq<AuthorityId>, c: Committee, account: AccountId, seqNo: U64,
                     k: Choice)
    requires forall id :: id in ids ==> id in c.members
    ensures var all := observed + VotesFor(ids, c, account, seqNo, k);
            && Supporters(observed, c, account, seqNo, k) <= Supporters(all, c, account, seqNo, k)
            && (forall id :: id in ids ==> id in Supporters(all, c, account, seqNo, k))
  {
    var later := VotesFor(ids, c, account, seqNo, k);
    var all := observed + later;
    forall id | id in ids
      ensures id in Supporters(all, c, account, seqNo, k)
    {
      var i :| 0 <= i < |ids| && ids[i] == id;
      assert all[|observed| + i] == VoteFor(id, c, account, seqNo, k);
      assert Counts(all[|observed| + i], c, account, seqNo);
    }
    forall a | a in Supporters(observed, c, account, seqNo, k)
      ensures a in Supporters(all, c, account, seqNo, k)
    {
      var i :| 0 <= i < |observed| && Counts(observed[i], c, account, seqNo) && ChoiceOf(observed[i]) == k
               && observed[i].authority == a;
      assert all[i] == observed[i];
    }
  }

  /** Members outside `faulty` still keep one choice if the later voters had not voted or supported the choice. */
  lemma LaterKeepsOneChoice(observed: seq<Vote>, ids: seq<AuthorityId>, faulty: set<AuthorityId>, c: Committee,
                            account: AccountId, seqNo: U64, k: Choice)
    requires (forall id :: id in ids ==> id in c.members)
    requires OneChoiceEach(observed, c.members.Keys, c, account, seqNo)
    requires forall id :: id in ids ==> id in faulty || id !in Observed(observed, c, account, seqNo)
    ensures OneChoiceEach(observed + VotesFor(ids, c, account, seqNo, k), c.members.Keys - faulty, c, account, seqNo)
  {
    var later := VotesFor(ids, c, account, seqNo, k);
    var all := observed + later;
    forall i, j | 0 <= i < |all| && 0 <= j < |all| && all[i].authority == all[j].authority
                  && all[i].authority in c.members.Keys - faulty
                  && Counts(all[i], c, account, seqNo) && Counts(all[j], c, account, seqNo)
      ensures ChoiceOf(all[i]) == ChoiceOf(all[j])
    {
      WhichVote(observed, ids, c, account, seqNo, k, i);
      WhichVote(observed, ids, c, account, seqNo, k, j);
    }
  }

  lemma WhichVote(observed: seq<Vote>, ids: seq<AuthorityId>, c: Committee, account: AccountId, seqNo: U64, k: Choice,
                  i: nat)
    requires forall id :: id in ids ==> id in c.members
    requires i < |observed| + |ids|
    ensures var v := (observed + VotesFor(ids, c, account, seqNo, k))[i];
            if i < |observed|
            then v == observed[i]
                 && (Counts(v, c, account, seqNo) ==> v.authority in Observed(observed, c, account, seqNo))
            else v.authority in ids && ChoiceOf(v) == k
  {
  }

  /** Earlier supporters, as many double voters as are allowed, and everybody who has not voted make a quorum. */
  lemma EnoughSupport<T>(members: set<T>, seen: set<T>, some: set<T>, faulty: set<T>, final: set<T>, f: nat, q: nat)
    requires some <= seen <= members && faulty <= seen - some
    requires |faulty| == if f < |seen - some| then f else |seen - some|
    requires some + faulty + (members - seen) <= final
    requires |some| + f + |members| - |seen| >= q && |members| >= q
    ensures |final| >= q
  {
    var reached := some + faulty + (members - seen);
    SubsetSize(reached, final);
    assert |reached| == |some| + |faulty| + |members - seen|;
    assert members == seen + (members - seen) && |members| == |seen| + |members - seen|;
    assert seen == some + (seen - some) && |seen| == |some| + |seen - some|;
  }

  /** An unblocked choice can still reach a quorum. */
  lemma UnblockedOverturns(observed: seq<Vote>, c: Committee, account: AccountId, seqNo: U64, k: Choice)
    requires OneChoiceEach(observed, c.members.Keys, c, account, seqNo) && !Blocked(observed, c, account, seqNo, k)
    ensures CanStillCertify(observed, c, account, seqNo)
  {
    BlockedCount(observed, c, account, seqNo, k);
    hide OneChoiceEach, Blocked, Observed, Supporters, VotesFor, Overturns;
    var f, members := Quorums.MaxFaulty(|c.members|), c.members.Keys;
    var seen, some := Observed(observed, c, account, seqNo), Supporters(observed, c, account, seqNo, k);
    var faulty := TakeSome(seen - some, f);
    var ids := FinalityLimits.Listing(faulty + (members - seen));
    forall id | id in ids
      ensures id in members && (id in faulty || id !in seen)
    {
    }
    DoubleVotesOverturn(observed, ids, faulty, c, account, seqNo, k);
  }

  /** Votes of these double voters and of everybody who has not voted give the choice a quorum. */
  lemma DoubleVotesOverturn(observed: seq<Vote>, ids: seq<AuthorityId>, faulty: set<AuthorityId>, c: Committee,
                            account: AccountId, seqNo: U64, k: Choice)
    requires OneChoiceEach(observed, c.members.Keys, c, account, seqNo) && !Blocked(observed, c, account, seqNo, k)
    requires var seen, some := Observed(observed, c, account, seqNo), Supporters(observed, c, account, seqNo, k);
             var f := Quorums.MaxFaulty(|c.members|);
             && faulty <= seen - some && |faulty| == (if f < |seen - some| then f else |seen - some|)
             && forall id :: id in ids <==> id in faulty + (c.members.Keys - seen)
    ensures CanStillCertify(observed, c, account, seqNo)
  {
    hide OneChoiceEach, Blocked, Observed, Supporters, VotesFor;
    LaterKeepsOneChoice(observed, ids, faulty, c, account, seqNo, k);
    FinalSupport(observed, ids, faulty, c, account, seqNo, k);
    assert c.members.Keys - (c.members.Keys - faulty) == faulty;
    assert Overturns(observed, VotesFor(ids, c, account, seqNo, k), c.members.Keys - faulty, c, account, seqNo, k);
  }

  lemma FinalSupport(observed: seq<Vote>, ids: seq<AuthorityId>, faulty: set<AuthorityId>, c: Committee,
                     account: AccountId, seqNo: U64, k: Choice)
    requires !Blocked(observed, c, account, seqNo, k)
    requires var seen, some := Observed(observed, c, account, seqNo), Supporters(observed, c, account, seqNo, k);
             var f := Quorums.MaxFaulty(|c.members|);
             && faulty <= seen - some && |faulty| == (if f < |seen - some| then f else |seen - some|)
             && forall id :: id in ids <==> id in faulty + (c.members.Keys - seen)
    requires forall id :: id in ids ==> id in c.members
    ensures |Supporters(observed + VotesFor(ids, c, account, seqNo, k), c, account, seqNo, k)| >= c.QuorumSize()
  {
    BlockedCount(observed, c, account, seqNo, k);
    LaterSupport(observed, ids, c, account, seqNo, k);
    hide Blocked, Observed, Supporters, VotesFor, Quorums.MaxFaulty, Quorums.Quorum;
    EnoughSupport(c.members.Keys, Observed(observed, c, account, seqNo), Supporters(observed, c, account, seqNo, k),
                  faulty, Supporters(observed + VotesFor(ids, c, account, seqNo, k), c, account, seqNo, k),
                  Quorums.MaxFaulty(|c.members|), c.QuorumSize());
  }

  /** An unblocked choice, in numbers. */
  lemma BlockedCount(observed: seq<Vote>, c: Committee, account: AccountId, seqNo: U64, k: Choice)
    requires !Blocked(observed, c, account, seqNo, k)
    ensures |Supporters(observed, c, account, seqNo, k)| + Quorums.MaxFaulty(|c.members|)
            + |c.members.Keys| - |Observed(observed, c, account, seqNo)| >= c.QuorumSize()
    ensures |c.members.Keys| == |c.members| >= c.QuorumSize()
  {
    assert |c.members.Keys| == |c.members|;
    SubsetSize(Observed(observed, c, account, seqNo), c.members.Keys);
    SubsetSize(Supporters(observed, c, account, seqNo, k), Observed(observed, c, account, seqNo));
    hide Observed, Supporters;
  }

  /** The void test is exact: on votes in which nobody is seen to have voted twice, it passes if and only if no
      continuation with at most f members voting twice gives any choice a quorum. */
  lemma VoidTestExactly(observed: seq<Vote>, c: Committee, account: AccountId, seqNo: U64)
    requires OneChoiceEach(observed, c.members.Keys, c, account, seqNo)
    ensures NoCertCanForm(observed, c, account, seqNo) <==> !CanStillCertify(observed, c, account, seqNo)
  {
    if NoCertCanForm(observed, c, account, seqNo) {
      forall later, honest: set<AuthorityId>, k
        ensures !Overturns(observed, later, honest, c, account, seqNo, k)
      {
        if Overturns(observed, later, honest, c, account, seqNo, k) {
          VoidIsSound(observed, later, honest, c, account, seqNo, k);
        }
      }
    } else {
      var k := UnblockedChoice(observed, c, account, seqNo);
      UnblockedOverturns(observed, c, account, seqNo, k);
    }
  }

  lemma UnblockedChoice(observed: seq<Vote>, c: Committee, account: AccountId, seqNo: U64) returns (k: Choice)
    requires !NoCertCanForm(observed, c, account, seqNo)
    ensures !Blocked(observed, c, account, seqNo, k)
  {
    if i :| 0 <= i < |observed| && Counts(observed[i], c, account, seqNo)
            && !Blocked(observed, c, account, seqNo, ChoiceOf(observed[i]))
    {
      k := ChoiceOf(observed[i]);
    } else {
      k := Choice("", 0);
    }
  }
}
