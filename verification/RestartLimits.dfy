/** A restart that finds the wrong committee: an authority that installed a new committee and then compacted its log
    comes back in the new epoch under the old committee. */
module RestartLimits {
  import opened Basics
  import opened Ledgers
  import opened Orders
  import opened Authorities
  import opened AuthorityRuns
  import opened Committees
  import opened Realizations
  import opened TwoMembers
  import opened FinalityLimits
  import opened SuccessionLimits

  /** The pair elects a committee of a2 alone. */
  function Alone(): (c: Committee) { Committee(map["a2" := 3], Rules(), 1) }

  function AloneRoster(): (roster: Roster) { [("a2", 3)] }

  function Handover(): (p: Split) {
    Split(Pair(), Alone(), {"a0", "a1"}, {"a2"}, {"a0", "a1", "a2"})
  }

  lemma HandoverIsHeir()
    ensures Heir(Handover(), AloneRoster())
  {
    Sizes();
    assert Alone().members.Keys == {"a2"} && |Alone().members| == |Alone().members.Keys|;
    assert AloneRoster()[..0] == [];
    assert BuildRoster(AloneRoster()) == Some(Alone().members);
  }

  function Kept(): (sn: SnapshotData) {
    SnapshotData([("alice", Account(100, 0))], [], [], 1)
  }

  /** Compacting and crashing under an installed committee. */
  lemma SnapshotForgets(n: Node, key: Key)
    requires Idle(n, "a2", key, Alone()) && n.auth.epochState.Active? && n.auth.locked == map[] && n.auth.epoch == 1
    requires n.origin.committeeId == Pair().Id()
    ensures Enabled(n, OnCompact(Kept(), Durable))
    ensures var m := Next(n, OnCompact(Kept(), Durable));
            && m.auth.committeeId == Alone().Id() && m.auth.epoch == 1 && !m.auth.poisoned
            && Next(m, OnCrash).auth.committeeId == Pair().Id() && Next(m, OnCrash).auth.epoch == 1
  {
    SupplySplit(Genesis(), "alice");
    assert Genesis() - {"alice"} == map[];
    assert Enumerates(Kept().accounts, Genesis()) by {
      assert Kept().accounts[0].0 == "alice";
    }
    assert LockPairs(Kept().locked) == [];
    SnapshotReplays(n.origin, n.auth, Kept());
    hide Replay, Captures, Supply;
  }

  /** The pair has elected and a2 has installed. */
  lemma ElectedAlone() returns (sys: System)
    ensures Realizable(sys) && "a2" in sys && Idle(sys["a2"], "a2", 3, Alone())
    ensures var n := sys["a2"];
            && n.auth.epochState.Active? && n.auth.locked == map[] && n.auth.epoch == 1
            && n.origin.committeeId == Pair().Id()
  {
    HandoverIsHeir();
    var cert := Election(Handover(), AloneRoster());
    AssentedRealizable(Handover(), AloneRoster());
    var sys0 := Assented(Handover(), AloneRoster());
    assert sys0["a2"] == Founder("a2", 3, Pair());
    FounderInstalls("a2", 3, Pair(), Alone(), cert);
    hide Assented, Realizable, EpochCertified, Founder, Next, Heir, IssuedEpochVote, Idle, Pair, Alone, Enabled;
    sys := InstalledBy(sys0, cert);
  }

  lemma InstalledBy(sys: System, cert: EpochCert) returns (r: System)
    requires Realizable(sys) && "a2" in sys && forall v :: v in cert.votes ==> IssuedEpochVote(sys, v)
    ensures Realizable(r) && r == sys["a2" := Next(sys["a2"], OnInstall(cert, Pair(), Durable))]
  {
    var e := OnInstall(cert, Pair(), Durable);
    hide Realizable, Next, Pair, IssuedEpochVote;
    r := sys["a2" := Next(sys["a2"], e)];
    RealizeStep(sys, "a2", e);
  }

  /** In a realizable run of honest members a restart keeps the epoch of the new committee and forgets the
      committee: the authority would now refuse every certificate of it. */
  lemma CompactionForgetsCommittee() returns (sys: System, id: AuthorityId)
    ensures Realizable(sys) && id in sys && !sys[id].auth.poisoned && sys[id].auth.epochState.Active?
    ensures Realizable(sys[id := Next(sys[id], OnCrash)])
    ensures Next(sys[id], OnCrash).auth.epoch == sys[id].auth.epoch == 1
    ensures Next(sys[id], OnCrash).auth.committeeId != sys[id].auth.committeeId
  {
    var sys1 := ElectedAlone();
    id := "a2";
    SnapshotForgets(sys1[id], 3);
    CompactStaysActive(sys1[id]);
    assert "a0" in Pair().Id().roster && "a0" !in Alone().Id().roster;
    hide Realizable, Next, Idle, Pair, Alone;
    sys := sys1[id := Next(sys1[id], OnCompact(Kept(), Durable))];
    RealizeStep(sys1, id, OnCompact(Kept(), Durable));
    RealizeStep(sys, id, OnCrash);
  }

  lemma CompactStaysActive(n: Node)
    requires n.auth.epochState.Active?
    ensures Next(n, OnCompact(Kept(), Durable)).auth.epochState.Active?
  {
  }
}
