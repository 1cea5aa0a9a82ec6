# Verified protocol cores of the 333 peer-to-peer system

This project models five protocol cores of the 333 repository in Dafny and proves what they keep over
whole runs. `dafny verify dfyconfig.toml` checks everything.

**Transfer authorities** (`Basics`, `Quorums`, `Ledgers`, `Orders`, `Authorities`, `AuthorityContracts`,
`AuthorityNode`, `AuthorityRuns`, `EvidenceRuns`, `RecoveredGates`, `EpochRuns`, `Committees`, `Realizations`,
`EpochAgreement`, `UnforgedEvidence`, `TwoMembers`, `CertificateLimits`, `FinalityLimits`, `SuccessionLimits`,
`EpochLimits`, `CrashLimits`, `RestartLimits`). An authority locks one order per (account, sequence, round),
journals the lock before it signs, confirms quorum certificates onto a ledger, rebuilds itself from its log,
compacts that log, and goes through fence, install and catch-up when the epoch changes. The class `AuthorityNodes.Authority` is proved against pure transition functions; runs
interleave those transitions with failing writes, crashes and recovery, and a committee is any number of
such authorities next to at most (n-1)/3 arbitrary ones.

**Slot seals** (`SlotSeals`, `SealDecisions`, `SealLimits`). The Byzantine-aware test that no certificate can
form any more, external validity of seal proposals, and the single-decree agreement node, tied to the same
committee runs.

**Epidemic broadcast** (`Plumtree`, `Epidemic`, `EpidemicEdges`, `EpidemicTermination`,
`EpidemicEndpoint`). Plumtree peers over a lossless mesh with arbitrary delivery order: coverage, termination,
delivery counts, and which way bodies and announcements travel.

**Sagas and the compute exchange** (`Graphs`, `Workflows`, `Sagas`, `SagaCoordinator`, `Exchange`,
`ExchangeRuns`, `ExchangeDecisions`, `ExchangeEffects`, `ExchangeProgress`). Kahn's cycle check, the saga
coordinator with retries, halted rollbacks and resumption, and the event-sourced consent kernel with its
idempotency inbox.

**Replicated data** (`CausalBroadcast`, `CausalRuns`, `LwwMaps`). Causal delivery over vector clocks and the
two-index merge of the last-writer-wins map.

Classes carry the source's mutable state; every method's `ensures` equates the new state and the answer with
a specification function or relation, and the theorems are proved about runs of those. Signatures are
tokens that name signer and payload, and identifiers that the source derives by hashing are the
hashed values themselves. Whatever the environment may do (an append that fails, with or without the record
having reached the disk; an executor, compensator or journal that refuses; the order in which messages
arrive) is an unconstrained parameter of each step.

Safety theorems about committees suppose that evidence naming an honest member is genuine, and `UnforgedEvidence`
derives that from the signature checks and from honest keys signing only what their members let out. They leave
certificates and epoch certificates otherwise arbitrary. Witnesses of failure do not: they are
realizable runs, in which every confirmation rests on a certificate of votes that were let out and every install on
epoch votes that fenced members signed over their own frontier (`Realizations`).

Where the code and its prose disagree, the model follows the code:

- The repository's summary promises at most one certified transfer per (account, sequence)
  (README.md:30-32). The code locks per round and clears the locks at an epoch install, while the committee id
  ignores the epoch. Agreement of certificates holds exactly for equal rounds with no install between the
  votes (`CertificateLimits.AgreementExactly`, with runs in `RoundsCertifyApart` and `InstallReopensSlot`);
  uniqueness per (account, sequence) belongs to effect attestations (`Committees.FinalityIsUnique`), and holds
  across two committees exactly when they share more honest members than both Byzantine budgets together
  (`FinalityLimits.FinalityExactly`); an epoch certificate by which the first elects the second does not move that
  bound (`SuccessionLimits.SuccessionExactly`).
- The source takes two different valid epoch certificates for one epoch as proof that the Byzantine budget is
  exceeded, and fail-stops (333-transfer/src/authority.rs:948-952). Within the budget they agree in every run exactly
  if honest members neither crash nor move their ledgers behind a fence (`CrashLimits.EpochAgreementExactly`). A
  fenced member keeps confirming and may assent again over a later frontier, so honest members alone produce such a
  pair (`EpochLimits.HonestCertificatesConflict`). A member that installed late, caught up by a confirmation, fenced
  the next change and crashed is replayed behind that fence but one epoch back; the earlier certificate opens its
  gate again, and it assents to another change for the same epoch (`CrashLimits.CrashConflicts`).
- The source takes the epoch number in a snapshot to restore the whole epoch dimension
  (333-transfer/src/authority.rs:635-639). A restart does resume the epoch and the gate
  (`RecoveredGates.RestartResumesEpoch`), but it finds the committee it left exactly if the log still holds an installed
  certificate or that committee is the one of the first start (`RecoveredGates.RestartKeepsCommitteeExactly`): after
  an install and a compaction an authority comes back in the new epoch under the old committee
  (`RestartLimits.CompactionForgetsCommittee`).
- A Void seal rests on a tally without rounds. It excludes a certificate exactly when both are of one round with
  no install in between (`SealLimits.VoidExactly`, with runs in `VoidIsPerRound`). Votes do not cover the owner's
  signature, so two nodes can decide different orders for one transfer (`SealLimits.OwnerSignaturesSplit`). All
  decisions on sound evidence are one exactly when no two externally valid Finalize proposals carry different owner
  signatures (`SlotSeals.DecisionsAgreeExactly`).
- The three equations that the CRDT trait lists (traits.rs:8-11), with (a ⊔ b) ⊔ b = a ⊔ b, do not make the map
  idempotent (`LwwMaps.DocumentedAxiomsAreTooWeak`); what they lack is exactly x ⊔ x = x
  (`LwwMaps.DocumentedAxiomsNeedIdempotence`), which the trait's own sentence asks for (traits.rs:13), and with it
  the map is a semilattice (`LwwMaps.MapLawsExactly`).
- The second dominance check of the causal delivery test never accepts anything the first refuses
  (`CausalBroadcast.CanDeliverMeans`).
- The saga coordinator's deadlock branch, which would mark a workflow Failed, is unreachable for an accepted
  workflow (`SagaCoordinators.NothingReadyMeansDone`, `Sagas.FinalStatesMean`).
- A saga's forward run that stops on a missing executor or a journal error strands the workflow: it stays Running
  with a step past Pending, and from then on `Execute` and `ResumeCompensation` refuse it
  (`SagaCoordinators.Insist`; a coordinator without executors does it in `SagaCoordinators.Strand`). That is the
  only unfinished state with no way on (`SagaCoordinators.Retry`): a journal error while the steps are first put on
  Pending leaves the workflow restartable, and a halted rollback can be resumed.
- The exchange never answers that a grant has expired: observing the expiry ends consent first
  (`ExchangeRuns.NeverAnswersExpired`). Once the largest time has been observed no grant is ever accepted again, and
  neither is one under a policy without a hash or without room for work; in all other states some continuation
  gets one accepted (`ExchangeProgress.GrantReachableExactly`). A submitted result can still get its verdict exactly
  while the largest time has not been observed (`ExchangeProgress.VerdictReachableExactly`), so one that waits then
  is never wound up (`ExchangeProgress.WindingUpExactly`).

## Model

| member | source | states |
|---|---|---|
| `AuthorityRuns.CrashSafeVoting` | 333-transfer/src/authority.rs:1086-1183 | over every run of handle, confirm, fence, install, compaction, failed writes and crashes, two votes for one (account, sequence, round) signed with no epoch certificate journalled in between are for the same order |
| `AuthorityRuns.RecoveryIsExact` | 333-transfer/src/authority.rs:591-690 | every log a run can leave replays without a corruption error and, while the authority is not poisoned, rebuilds exactly its ledger, lock table, confirmed map and raised fence |
| `AuthorityRuns.AttestsOnce` | 333-transfer/src/authority.rs:1024-1040 | over a whole run, crashes and installs included, no two different orders are attested for one (account, sequence) |
| `AuthorityRuns.SupplyIsGenesis` | 333-transfer/src/lib.rs:341-378 | over every run, crashes, lost writes and compactions included, the supply of the live ledger and of the one a recovery rebuilds is that of genesis |
| `AuthorityRuns.RunKeepsInv` | 333-transfer/src/authority.rs:1086-1317 | every reachable authority protects every order it voted for, keeps its attestations and has a log that recovers |
| `AuthorityRuns.SnapshotReplays` | 333-transfer/src/authority.rs:698-744 | replaying a snapshot, in whatever order it lists balances, locks and confirmed orders, gives back the state it was taken from |
| `EvidenceRuns.VotesAreOwned` | 333-transfer/src/authority.rs:1119-1183 | over every run, crashes, failed writes and compaction included, each vote signed is for an order that the sender's registered owner signed over exactly this network, policy, transfer and round, and says that under the authority's own key |
| `EvidenceRuns.ConfirmedAreProven` | 333-transfer/src/authority.rs:1219-1317 | over every run each confirmed order sits under its own account and sequence, carries its owner's signature, and was presented before, with a certificate of the committee the authority then had |
| `EvidenceRuns.AttestedAreProven` | 333-transfer/src/authority.rs:1024-1040 | over every run each attestation is signed by the authority over an order that was proven to it before, under that order's own account and sequence |
| `RecoveredGates.RestartResumesEpoch` | 333-transfer/src/authority.rs:635-687 | over every run a restart of an authority that has not stopped rebuilds a raised fence and a waiting install as they are, and from an open gate one that is open, or opens on the first look, in the same epoch |
| `RecoveredGates.InstalledIsRebuilt` | 333-transfer/src/authority.rs:663-685 | over every run an install that completed at once is rebuilt complete, in the same epoch under the same committee |
| `RecoveredGates.RestartKeepsCommitteeExactly` | 333-transfer/src/authority.rs:628-640 | from an open gate a restart finds the committee it left if and only if the log still holds an installed certificate or that committee is the one first started with |
| `RestartLimits.CompactionForgetsCommittee` | 333-transfer/src/authority.rs:715-744 | a realizable run of honest members in which an authority installs a committee, compacts, and restarts in the new epoch under the old committee |
| `Committees.CertificatesAgree` | 333-transfer/src/authority.rs:1402-1430 | for every committee size, with at most (n-1)/3 faulty members and no epoch install, two valid certificates for one (account, sequence, round) carry the same transfer |
| `Committees.StretchCertificatesAgree` | 333-transfer/src/authority.rs:1402-1430 | two valid certificates for one slot carry the same transfer when no install lies between the honest votes behind them |
| `UnforgedEvidence.SignedCertificatesAgree` | 333-transfer/src/authority.rs:273-330 | if only honest members sign under their keys, what the vote check accepts is genuine: two certificates that pass it for one (account, sequence, round) without installs carry the same transfer |
| `Committees.FinalityIsUnique` | 333-transfer/src/effect.rs:127-175 | no two orders for one (account, sequence) both gather a quorum of effect attestations, whatever certified, crashed, recovered or changed epoch |
| `UnforgedEvidence.SignedFinalityIsUnique` | 333-transfer/src/effect.rs:88-175 | if nothing that passes the attestation check is forged under an honest key, no two orders for one (account, sequence) both gather a quorum |
| `Committees.FinalityAcrossCommittees` | 333-transfer/src/effect.rs:127-175 | effect quorums of two committees that share more than f1 + f2 honest members name one order |
| `Committees.RunKeepsPromises` | 333-transfer/src/authority.rs:1086-1183 | in every reachable committee state each honest member has kept its voting and attesting promises |
| `Quorums.QuorumsShareHonest` | 333-transfer/src/authority.rs:110-116 | any two quorums of any committee share a member outside any set of at most f |
| `Quorums.MeetExactly` | 333-transfer/src/authority.rs:110-116 | quorums of two committees always share an honest member if and only if the committees share more than f1 + f2 honest members |
| `CertificateLimits.RoundsCertifyApart` | 333-transfer/src/authority.rs:1798-1843 | for any two different rounds, a realizable run without faults or installs in which both certify, for different transfers |
| `CertificateLimits.InstallReopensSlot` | 333-transfer/src/authority.rs:957-974 | for any round, a realizable run of vote, fence, assent, install and vote in which one slot certifies two transfers under one committee id |
| `CertificateLimits.AgreementExactly` | 333-transfer/src/authority.rs:957-974 | certificates of rounds r and s agree in every realizable run of every committee within budget if and only if r = s and no install lies between the votes |
| `FinalityLimits.FinalityExactly` | 333-transfer/src/authority.rs:1024-1040 | for any two rosters and honest members within budget, finality agrees in every realizable run if and only if the rosters share more than f1 + f2 honest members |
| `FinalityLimits.FinalityForks` | 333-transfer/src/authority.rs:1024-1040 | otherwise a realizable run, with a genuine certificate behind every confirmation, makes two payments of one (account, sequence) final |
| `SuccessionLimits.SuccessionExactly` | 333-transfer/src/authority.rs:957-1002 | where every honest member starts under the first committee and a genuine epoch certificate of it elects the second, finality agrees in every realizable run if and only if the rosters share more than f1 + f2 honest members |
| `SuccessionLimits.SuccessionForks` | 333-transfer/src/authority.rs:957-1002 | otherwise a realizable run of vote, fence, assent, install and vote makes two payments of one (account, sequence) final, one under each committee |
| `CrashLimits.EpochAgreementExactly` | 333-transfer/src/authority.rs:943-956 | two valid epoch certificates of issued votes for one epoch name one next committee and one frontier in every realizable run of every committee within budget if and only if honest members neither crash nor move their ledgers behind a fence |
| `EpochAgreement.EpochCertificatesAgree` | 333-transfer/src/authority.rs:854-873 | without honest crashes and without ledgers moving behind a fence, two such certificates agree |
| `UnforgedEvidence.SignedEpochCertificatesAgree` | 333-transfer/src/authority.rs:911-941 | the same for epoch certificates: without honest crashes and moves behind a fence, two that pass the signature checks for one epoch agree |
| `EpochAgreement.RunKeepsAssents` | 333-transfer/src/authority.rs:800-873 | in every run, a member that neither crashed nor moved its ledger behind a fence has signed only agreeing assents for each epoch, those for the next one fitting its fence and ledger |
| `EpochLimits.HonestCertificatesConflict` | 333-transfer/src/authority.rs:854-873 | a realizable run without crashes and of honest members only, whose ledgers move behind a fence, with two valid epoch certificates for one epoch over different frontiers and an authority that fail-stops on them |
| `CrashLimits.CrashConflicts` | 333-transfer/src/authority.rs:658-687 | a realizable run of four members within budget, in which one honest member crashes and no ledger moves behind a fence, with two valid epoch certificates for one epoch that name different next committees |
| `Realizations.AllRun` | 333-transfer/src/authority.rs:1086-1317 | members may run scripts side by side when the evidence of every step is already there |
| `EpochRuns.FencedVotesWait` | 333-transfer/src/authority.rs:1094-1116 | in every crash-free run, after a fence every later vote follows a completed install and comes from a ledger that covers the frontier it committed |
| `EpochRuns.LaterVotesAreCaughtUp` | 333-transfer/src/authority.rs:979-1002 | in every crash-free run, each vote of a later epoch was signed from a ledger covering the frontier of every epoch change before it |
| `EpochRuns.EpochCountsInstalls` | 333-transfer/src/authority.rs:884-1002 | in every crash-free run the epoch equals the number of installs completed, counted from answers and coverage, and rises by one exactly with each |
| `EpochRuns.GateHolds` | 333-transfer/src/authority.rs:800-848 | in every crash-free run, from a fence to the next completed install no vote of that epoch is signed |
| `EpochRuns.FenceSurvivesCrashes` | 333-transfer/src/authority.rs:658-690 | until an epoch certificate reaches the journal, a raised fence stands through crashes, failed writes and compaction, and nothing is signed |
| `EpochRuns.AcceptedInstallHolds` | 333-transfer/src/authority.rs:884-1002 | in every run, crashes included, once an epoch certificate was accepted every later vote comes from a ledger covering its frontier |
| `Ledgers.ApplyConserves` | 333-transfer/src/lib.rs:341-378 | a transfer conserves the supply, moves exactly the amount, advances only the sender's sequence and touches no other account |
| `Ledgers.SupplyBoundsCredit` | 333-transfer/src/lib.rs:319-331 | while the supply fits 128 bits the overflow rejection never occurs |
| `Ledgers.PreflightExactly` | 333-transfer/src/lib.rs:301-331 | a transfer passes exactly if it is payable, and each of the five rejections occurs exactly in its case |
| `Ledgers.RestoreEnumeration` | 333-transfer/src/lib.rs:248-266 | restoring from any listing of a ledger's accounts gives that ledger |
| `Ledgers.RestoreExactly` | 333-transfer/src/lib.rs:248-266 | a listing restores exactly if no account occurs twice and the total is representable, to the ledger it lists; each error names a defect |
| `Orders.OwnerCheckExactly` | 333-transfer/src/owner.rs:182-220 | the owner check passes exactly the orders that the sender's registered owner signed over this network, policy, transfer and round, with both accounts registered; each of its five errors occurs exactly in its case |
| `Orders.VoteCheckExactly` | 333-transfer/src/authority.rs:273-330 | a vote passes exactly if it supports the order under this committee and its named member signed precisely that; each refusal names a defect the vote has |
| `Orders.CertifiedExactly` | 333-transfer/src/authority.rs:1402-1430 | a certificate is valid exactly if the owner signed the order and all its votes are distinct members' signed votes for it, as many as a quorum |
| `Orders.AttestationCheckExactly` | 333-transfer/src/effect.rs:88-99 | an attestation counts exactly if its named member signed this account, sequence and order for this committee |
| `Orders.RosterExactly` | 333-transfer/src/authority.rs:168-210 | a roster builds exactly from at most 1024 entries with sane, distinct names and distinct keys, and pairs each name with its key |
| `Orders.CheckVotes` | 333-transfer/src/authority.rs:1404-1420 | the loop returns the set of distinct voters when every vote is good, and otherwise the first refused vote |
| `Orders.ValidateCertificate` | 333-transfer/src/authority.rs:1402-1430 | accepted exactly when the owner's proof, every vote and the distinct quorum hold; each error, the empty certificate included, names its cause |
| `Orders.AssembleEffect` | 333-transfer/src/effect.rs:127-155 | true exactly when a quorum of distinct members validly attested the order at the slot |
| `AuthorityContracts.SignsExactly` | 333-transfer/src/authority.rs:1086-1183 | a vote is signed exactly by a running authority behind an open gate, for an order its owner signed that the slot's lock holds already, or that is payable, positive and durably locked first; and the vote says exactly that order |
| `AuthorityContracts.VotingChanges` | 333-transfer/src/authority.rs:1086-1183 | what voting changes: a covered install completes, a fresh lock is journalled and kept, a failed append leaves it out and stops the authority, nothing else |
| `AuthorityContracts.GateRefusals` | 333-transfer/src/authority.rs:1086-1121 | poisoned, fencing, catching up and owner refusals occur exactly in their cases |
| `AuthorityContracts.OrderRefusals` | 333-transfer/src/authority.rs:1122-1183 | behind an open gate equivocation, unknown sender, zero amount, ledger rejections and journal failures occur exactly in their cases |
| `AuthorityContracts.ConfirmsExactly` | 333-transfer/src/authority.rs:1219-1300 | a certificate is applied exactly if its proof is for the authority's own committee and policy, the owner signed, the sequence is not confirmed, the transfer is payable and the record durable; a repeat is recognised exactly |
| `AuthorityContracts.ConfirmingChanges` | 333-transfer/src/authority.rs:1280-1317 | what confirming changes: the transfer is made, the order remembered, every round's lock of the sequence dropped, a covered install completed, nothing else |
| `AuthorityContracts.FencesExactly` | 333-transfer/src/authority.rs:800-848 | a proposal raises the fence exactly for the next epoch, under the own policy, with a proper roster and durably; each other answer exactly in its case |
| `AuthorityContracts.EpochCertifiedExactly` | 333-transfer/src/authority.rs:911-941 | an epoch certificate passes exactly on a quorum of distinct prior members' signatures over its epoch, successor and frontier |
| `AuthorityContracts.InstallsExactly` | 333-transfer/src/authority.rs:884-974 | a certificate is taken in exactly if a quorum of the authority's own committee certified it for the next epoch, none is waiting and the record is durable, and completes at once exactly if the frontier is reached |
| `AuthorityContracts.InstallingChanges` | 333-transfer/src/authority.rs:943-974 | what installing changes; a second certificate stops the authority only if it names another successor or frontier |
| `AuthorityContracts.ReplaysExactly` | 333-transfer/src/authority.rs:611-687 | what one replayed record does and when it is corrupt; an installed certificate is complete at once exactly if the ledger rebuilt so far has reached its frontier |
| `AuthorityNodes.Authority.Handle` | 333-transfer/src/authority.rs:1086-1121 | new state and answer are those of the voting transition, which `AuthorityContracts.SignsExactly`, `VotingChanges`, `GateRefusals` and `OrderRefusals` describe |
| `AuthorityNodes.Authority.Admit` | 333-transfer/src/authority.rs:1122-1183 | the lock is journalled before the vote leaves; a failed append poisons and signs nothing |
| `AuthorityNodes.Authority.Confirm` | 333-transfer/src/authority.rs:1219-1317 | new state and answer are those of the confirming transition: one ledger step, locks of the sequence released, install completed when covered |
| `AuthorityNodes.Authority.Fence` | 333-transfer/src/authority.rs:800-848 | new state and answer are those of the fencing transition |
| `AuthorityNodes.Authority.SignEpochVote` | 333-transfer/src/authority.rs:854-873 | assent is signed exactly by a fenced authority whose roster builds, over a listing of its own frontier |
| `AuthorityNodes.Authority.Frontier` | 333-transfer/src/authority.rs:784-793 | lists the next sequence number of every account |
| `AuthorityNodes.Authority.Install` | 333-transfer/src/authority.rs:884-956 | new state and answer are those of the installing transition, with its guards in the source's order |
| `AuthorityNodes.Authority.EnterEpoch` | 333-transfer/src/authority.rs:957-974 | the certificate is journalled, locks are cleared, and the epoch completes at once or waits for the frontier |
| `AuthorityNodes.Authority.Compact` | 333-transfer/src/authority.rs:698-744 | the snapshot captures the present state and replaces the log, or the log stays as it was |
| `AuthorityNodes.Authority.Append` | 333-transfer/src/authority.rs:752-758 | a failed append poisons the authority whether or not the record reached the log |
| `AuthorityNodes.Authority.AttestationFor` | 333-transfer/src/authority.rs:1024-1040 | an attestation is issued exactly for a confirmed slot, naming the confirmed order |
| `AuthorityNodes.Authority.InstallCovered` | 333-transfer/src/authority.rs:979-989 | true exactly when the ledger covers every entry of the frontier being installed |
| `AuthorityNodes.Authority.CompleteInstall` | 333-transfer/src/authority.rs:991-1002 | the waiting committee and epoch become the current ones |
| `AuthorityNodes.Authority.Replayed` | 333-transfer/src/authority.rs:611-687 | one record is folded into the state, or reported corrupt |
| `AuthorityNodes.Recover` | 333-transfer/src/authority.rs:591-690 | the loop over the log computes the replay fold, failing exactly where the fold fails |
| `AuthorityNodes.CheckEpochVotes` | 333-transfer/src/authority.rs:911-941 | accepted exactly when every epoch vote is good, no voter repeats and the prior committee's quorum is met |
| `SlotSeals.VoidIsSound` | 333-slotseal/src/agreement.rs:49-54 | once the test passes on observed votes, no choice reaches a quorum in any continuation with at most f equivocators |
| `SealDecisions.VoidTestExactly` | 333-slotseal/src/agreement.rs:107-160 | on votes in which nobody is seen to vote twice, the void test passes if and only if no continuation with at most f members voting twice gives any choice a quorum |
| `SlotSeals.BlockedMeansOutvoted` | 333-slotseal/src/agreement.rs:114-160 | a choice is blocked if and only if at least 2f+1 observed voters stand outside its supporters |
| `SlotSeals.CheckNoCert` | 333-slotseal/src/agreement.rs:114-160 | the tallying loop computes the no-certificate test |
| `SlotSeals.VoidExcludesCertificate` | 333-slotseal/src/agreement.rs:107-160 | in reachable committee states a passed test and a certificate of the same round, with no install between the votes, cannot both exist |
| `UnforgedEvidence.SignedVoidExcludesCertificate` | 333-slotseal/src/agreement.rs:107-160 | if nothing the void test counts or the certificate holds is forged under an honest key, a passed test and a certificate of the round exclude each other |
| `SlotSeals.RunKeepsOneChoice` | 333-transfer/src/authority.rs:1123-1132 | honest members' genuine one-round votes with no install in between keep one choice, as the test supposes |
| `SlotSeals.CheckExternallyValid` | 333-slotseal/src/agreement.rs:176-201 | accepted exactly when the evidence fits the outcome: a valid certificate for that order and slot, or a passed test over proof and own votes |
| `SealDecisions.ValidExactly` | 333-slotseal/src/agreement.rs:176-201 | a proposal is valid exactly if it finalizes an order of its slot that the owner and a quorum signed, or voids the slot with evidence for this committee size and at least 2f+1 voters against every choice |
| `SlotSeals.ValidProposalsAgree` | 333-slotseal/src/agreement.rs:176-201 | two externally valid proposals for a slot are both Void or both Finalize the same transfer, and equal exactly when the owner signature is |
| `SlotSeals.RoundCertificatesAgree` | 333-slotseal/src/agreement.rs:176-201 | two one-round certificates for a slot with no install between their votes differ at most in the owner signature |
| `SlotSeals.SealsAgree` | 333-slotseal/src/agreement.rs:268-300 | whatever proposals and injected votes two honest nodes receive in whatever order, on sound evidence of one round their decisions never mix Finalize and Void and finalize one transfer |
| `SlotSeals.DecisionsAgreeExactly` | 333-slotseal/src/agreement.rs:268-300 | on sound evidence every two decisions agree, whatever the order and the injected votes, if and only if no two externally valid Finalize proposals carry different owner signatures |
| `SlotSeals.ValidIsDecidable` | 333-slotseal/src/agreement.rs:268-300 | every externally valid proposal can be decided |
| `SlotSeals.DecisionsAreGrounded` | 333-slotseal/src/agreement.rs:268-300 | a node decides only a seal that was proposed to it and that it found externally valid |
| `SealDecisions.DecidesExactly` | 333-slotseal/src/agreement.rs:268-300 | a node decides a seal exactly if the first proposal it finds valid is for this seal, and it and those who vote for the digest afterwards make a quorum of names |
| `SealDecisions.RepliesExactly` | 333-slotseal/src/agreement.rs:268-289 | a node votes at most once: exactly on the first proposal it finds valid, for that digest and under its own name |
| `SlotSeals.AgreementNode.Deliver` | 333-slotseal/src/agreement.rs:268-289 | new state and reply are those of the agreement transition |
| `SlotSeals.AgreementNode.Tally` | 333-slotseal/src/agreement.rs:291-300 | a vote is recorded once per sender and decides at the quorum, only for the validated digest |
| `SlotSeals.RunSingleDecree` | 333-slotseal/src/agreement.rs:306-341 | every node's decision is that of processing one common script: the proposal, the votes the nodes cast on it taken in delivery order, and the injected messages |
| `SealLimits.VoidIsPerRound` | 333-slotseal/src/agreement.rs:145-149 | for different rounds, or any rounds with an install between, a realizable run in which a slot is voided on split votes and then certified |
| `SealLimits.VoidExactly` | 333-slotseal/src/agreement.rs:114-160 | a void on round r votes excludes round s certificates in every realizable run within budget if and only if r = s and no install lies between |
| `SealLimits.OwnerSignaturesSplit` | 333-slotseal/src/agreement.rs:176-201 | for every amount and round, a realizable run whose votes let two nodes decide different order ids for one transfer |
| `Epidemic.PruningLosesNothing` | 333-gossip/src/lib.rs:137-232 | in every run, once nothing is in flight or pending, every peer the overlay reaches from a holder of a message holds it, however edges were pruned and grafted |
| `Epidemic.DeliveredAtMostOnce` | 333-transfer/src/epidemic.rs:288-319 | a peer hands a message to the application exactly once if it has seen it and never otherwise, and every event in flight can be addressed |
| `Epidemic.StepKeepsInv` | 333-transfer/src/epidemic.rs:238-381 | every delivery, tick and origination keeps "each neighbour of a holder holds the message too or is about to be told" |
| `EpidemicEdges.TrafficFollowsViews` | 333-gossip/src/lib.rs:137-232 | in every reachable state a body leaves a peer only along an eager edge or in answer to a graft, an announcement only along a lazy edge, a graft only to the announcer of a missing body, a prune only for a body already held |
| `EpidemicEdges.NewMessageSpreads` | 333-gossip/src/lib.rs:151-198 | a peer that first sees a message sends the body exactly to its eager neighbours and the announcement exactly to its lazy ones, except to the hop it came from |
| `EpidemicEdges.DuplicatePrunes` | 333-gossip/src/lib.rs:168-198 | a body already held demotes its sender, who is told so exactly if the edge was eager |
| `EpidemicEdges.PrunedEdgeIsSilent` | 333-gossip/src/lib.rs:210-232 | in every run a peer that accepted a prune keeps the sender out of its eager view and puts no body for it into flight until it accepts a graft from it |
| `EpidemicEdges.DeliveryTeaches` | 333-transfer/src/epidemic.rs:288-363 | the sender of anything but a prune can be addressed from then on, and the application gets exactly the new bodies |
| `EpidemicTermination.TrafficDiesOut` | 333-gossip/src/lib.rs:137-225 | without originations a run has at most as many further steps as the weighted measure of its state |
| `EpidemicTermination.StepCosts` | 333-transfer/src/epidemic.rs:288-399 | every delivery and tick lowers the measure over unseen pairs, pending announcements and events in flight |
| `EpidemicTermination.NotQuietMoves` | 333-transfer/src/epidemic.rs:365-387 | a reachable state can move without an origination if and only if it is not quiet |
| `EpidemicTermination.Pump` | 333-transfer/src/epidemic.rs:450-456 | after any number of rounds nothing is forgotten, and with more rounds than the measure of the starting state the network is quiet and every message has spread to all neighbours of its holders |
| `EpidemicTermination.Round` | 333-transfer/src/epidemic.rs:450-456 | one turn for every endpoint changes nothing exactly when the network is quiet, and otherwise lowers the measure |
| `EpidemicTermination.ProcessAndTick` | 333-transfer/src/epidemic.rs:365-387 | an endpoint's turn drains its mailbox and its announcements, and changes nothing exactly when it is idle |
| `Plumtree.InMemoryPlumtree.Originate` | 333-gossip/src/lib.rs:151-166 | a fresh id: each eager peer gets the body once, each lazy peer the announcement once, nobody anything else; a known id does nothing |
| `Plumtree.InMemoryPlumtree.Receive` | 333-gossip/src/lib.rs:168-198 | a new body goes on to exactly the eager peers and its announcement to exactly the lazy ones, except to the sender; a known one makes the sender lazy and prunes it exactly if it was eager |
| `Plumtree.InMemoryPlumtree.HearIHave` | 333-gossip/src/lib.rs:200-208 | an announcement of an unknown id is queued |
| `Plumtree.InMemoryPlumtree.HearGraft` | 333-gossip/src/lib.rs:210-225 | the requester becomes eager and gets the payload if it is held |
| `Plumtree.InMemoryPlumtree.HearPrune` | 333-gossip/src/lib.rs:227-232 | the sender becomes lazy |
| `Plumtree.InMemoryPlumtree.DrainIHaves` | 333-gossip/src/lib.rs:137-148 | the queue empties, and a graft goes out for exactly the queued announcements of ids still unseen |
| `Plumtree.InMemoryPlumtree.AddPeer` | 333-gossip/src/lib.rs:110-115 | a peer joins the eager view and leaves the lazy one |
| `EpidemicEndpoints.EpidemicEndpoint.Accept` | 333-transfer/src/epidemic.rs:296-363 | state and emitted events of one arriving event |
| `EpidemicEndpoints.EpidemicEndpoint.Launch` | 333-transfer/src/epidemic.rs:389-399 | state and emitted events of a local broadcast |
| `EpidemicEndpoints.EpidemicEndpoint.Tick` | 333-transfer/src/epidemic.rs:378-382 | state and emitted events of a timer tick |
| `EpidemicEndpoints.EpidemicEndpoint.Dispatch` | 333-transfer/src/epidemic.rs:238-286 | events go out in order up to, and not including, the first one with no known addressee |
| `Graphs.AssertAcyclic` | 333-orchestration/src/lib.rs:268-298 | Kahn's worklist terminates and accepts exactly the acyclic graphs, repeated dependencies and self-loops included |
| `Graphs.Reverse` | 333-orchestration/src/lib.rs:272-283 | the adjacency lists hold every edge reversed with its multiplicity, and the counts are the numbers of dependencies |
| `Graphs.StuckHasCycle` | 333-orchestration/src/lib.rs:293-296 | a non-empty set of nodes each depending on a member contains a cycle |
| `Graphs.TopologicalIsAcyclic` | 333-orchestration/src/lib.rs:285-296 | a graph with a complete topological order has no cycle |
| `Workflows.New` | 333-orchestration/src/lib.rs:232-254 | accepted exactly when there are steps, ids are distinct, dependencies exist and no chain of dependencies returns to its start; each of the four errors exactly in its case and with a true culprit |
| `Workflows.BuildIndex` | 333-orchestration/src/lib.rs:236-241 | the index finds every step, or a repeated id is named |
| `Workflows.CheckDependencies` | 333-orchestration/src/lib.rs:242-251 | passes exactly when every dependency exists, and otherwise names a step and one of its dependencies that does not |
| `Workflows.CyclesMatch` | 333-orchestration/src/lib.rs:268-283 | working on positions neither hides nor invents a cycle between steps |
| `Workflows.NoDeadlock` | 333-orchestration/src/lib.rs:553-600 | in an accepted workflow, if every step outside a set waits on another outside it, the set holds all steps |
| `Sagas.UndoneIsSuffix` | 333-orchestration/src/lib.rs:461-531 | at every point of every history the undone steps are a suffix of the commit order |
| `Sagas.UndoRespectsDependencies` | 333-orchestration/src/lib.rs:461-531 | at every point no step is undone while a committed step depending on it stands |
| `Sagas.FinalStatesMean` | 333-orchestration/src/lib.rs:586-603 | Compensated means no committed step stands, Succeeded means all committed, Failed is never reached |
| `Sagas.StartsAfterDependencies` | 333-orchestration/src/lib.rs:553-593 | an executor is called only after all dependencies were run successfully and before any rollback |
| `Sagas.RunsOnce` | 333-orchestration/src/lib.rs:535-603 | no step's executor is called twice in the whole history of a workflow |
| `Sagas.SucceededRanEachOnce` | 333-orchestration/src/lib.rs:581-603 | a workflow that ends Succeeded ran every step of its definition successfully exactly once |
| `Sagas.UndoneOnce` | 333-orchestration/src/lib.rs:470-531 | a step whose compensation succeeded is never compensated again, across halts and resumes |
| `Sagas.UndoGetsForwardOutput` | 333-orchestration/src/lib.rs:485-516 | a compensator is given exactly what the step's executor returned |
| `Sagas.GoodInv` | 333-orchestration/src/lib.rs:382-440 | every legal history keeps the commit order, phase and dependency invariant |
| `Sagas.StepLives` | 333-orchestration/src/lib.rs:85-112 | whatever moves are asked for, a tried step stays tried, a committed step can only be undone, failed and undone steps stay so, and nothing commits, fails or is undone out of turn |
| `Sagas.FlowLives` | 333-orchestration/src/lib.rs:114-160 | final workflow states are exactly those nothing else can follow, and a rollback never goes back to running or on to success |
| `SagaCoordinators.NothingReadyMeansDone` | 333-orchestration/src/lib.rs:570-600 | when nothing is ready in an accepted workflow, all its steps have committed |
| `SagaCoordinators.StepsAreEarned` | 333-orchestration/src/lib.rs:461-603 | where a step stands is what the world answered: a committed step's own executor returned the output kept, a failed step's refused, an undone step's compensator accepted that output, each under a call number of its own |
| `SagaCoordinators.SagaCoordinator.Record` | 333-orchestration/src/lib.rs:382-422 | a move outside the table is refused without effect; a legal one is applied and stands, and the answer is what the journal said to this call |
| `SagaCoordinators.SagaCoordinator.SetFlow` | 333-orchestration/src/lib.rs:427-440 | a workflow changes state only along the table |
| `SagaCoordinators.SagaCoordinator.CompensateCommitted` | 333-orchestration/src/lib.rs:461-531 | the history stays legal; success undoes everything, failure halts at the last standing step, and working compensators always succeed |
| `SagaCoordinators.SagaCoordinator.UndoOnce` | 333-orchestration/src/lib.rs:506-516 | the logged result is what the compensator answered to a new call with this workflow, step and output |
| `SagaCoordinators.SagaCoordinator.TryUndo` | 333-orchestration/src/lib.rs:506-516 | succeeds exactly if the compensator accepts one of the set number of calls, and stops at the first that it accepts |
| `SagaCoordinators.SagaCoordinator.UndoStep` | 333-orchestration/src/lib.rs:482-528 | the last standing step is undone and marked so, or the rollback halts there with the reason |
| `SagaCoordinators.SagaCoordinator.ResumeCompensation` | 333-orchestration/src/lib.rs:447-459 | refused without effect unless Compensating; otherwise finishes the rollback or stays Compensating; with working compensators it succeeds exactly from Compensating |
| `SagaCoordinators.SagaCoordinator.NextReady` | 333-orchestration/src/lib.rs:555-568 | the first step in definition order that is ready, or none is |
| `SagaCoordinators.SagaCoordinator.RunStep` | 333-orchestration/src/lib.rs:581-581 | the logged result is what the executor answered to a new call with this workflow and step |
| `SagaCoordinators.SagaCoordinator.Perform` | 333-orchestration/src/lib.rs:581-587 | the executor's answer to this call is recorded as Committed or Failed, and stands even if the journal fails |
| `SagaCoordinators.SagaCoordinator.RunReady` | 333-orchestration/src/lib.rs:574-587 | one ready step is started and brought to Committed or Failed as its executor answered; an error is a missing executor or a failed append, and leaves the workflow stranded |
| `SagaCoordinators.SagaCoordinator.RollBack` | 333-orchestration/src/lib.rs:588-591 | after a failure the workflow ends Compensated, or stays Compensating with the reason |
| `SagaCoordinators.SagaCoordinator.Drive` | 333-orchestration/src/lib.rs:552-603 | terminates; ends Succeeded if every executor succeeds, and otherwise Compensated, Compensating with the reason, or stranded in Running |
| `SagaCoordinators.SagaCoordinator.InitSteps` | 333-orchestration/src/lib.rs:548-550 | all steps are on Pending, or a step that has started before is named |
| `SagaCoordinators.SagaCoordinator.Begin` | 333-orchestration/src/lib.rs:539-550 | finished and half-rolled-back workflows are refused untouched |
| `SagaCoordinators.SagaCoordinator.Execute` | 333-orchestration/src/lib.rs:535-603 | every history stays legal and tells what the world answered to calls never used before; Succeeded means that every step's executor answered Ok in this call, Compensated that one refused; each error is true and names the state it leaves; a started workflow runs nothing again; with working executors it succeeds exactly when the workflow runs and no step has left Pending |
| `SagaCoordinators.Insist` | 333-orchestration/src/lib.rs:447-459 | a stranded workflow is refused by any sequence of later executions and resumptions, which run and undo nothing |
| `SagaCoordinators.Retry` | 333-orchestration/src/lib.rs:535-550 | with everything working, a resumption or execution finishes a workflow if and only if it is neither finished nor stranded |
| `SagaCoordinators.Strand` | 333-orchestration/src/lib.rs:574-579 | a coordinator without executors strands every accepted workflow |
| `SagaCoordinators.SagaCoordinator.SetCompensationAttempts` | 333-orchestration/src/lib.rs:354-358 | at least one attempt is always made |
| `ExchangeRuns.ConsentGovernsWork` | 333-compute-exchange/src/lib.rs:813-1011 | in every state any command stream reaches, an open lease stands on active unexpired consent, work sits under that lease, and caps narrow from policy to grant to lease to attempt |
| `ExchangeRuns.OnlyVerifiedWorkIsPaid` | 333-compute-exchange/src/lib.rs:1013-1142 | a settlement exists only for a verified attempt whose verifier is not its producer, and pays that producer for the verified digest |
| `ExchangeEffects.EverythingIsWarranted` | 333-compute-exchange/src/lib.rs:773-1300 | in every stream each event rests on a command given in the generation in force and on earlier events (grant, lease, offer, attempt, result, verdict, plan) with matching contents and bounds, and each effect carries out the event just before it with that event's own contents |
| `ExchangeEffects.CreditsPayTheProducer` | 333-compute-exchange/src/lib.rs:1098-1142 | in every stream each credit effect carries the plan of the settlement event just before it, and pays the producer of an attempt started in this generation, for the digest that another party verified for it, in the amount commanded |
| `ExchangeEffects.EverythingIsCarriedOut` | 333-compute-exchange/src/lib.rs:934-1011 | in every stream a start, a submitted result and a prepared settlement are followed at once by their effect with the same contents, and the end of consent by its stops and a stop of the sandbox |
| `ExchangeEffects.EffectIdsAreUnique` | 333-compute-exchange/src/lib.rs:1290-1292 | no two effects of a stream have one id, whatever the keys |
| `ExchangeRuns.OneSandboxAtATime` | 333-compute-exchange/src/lib.rs:934-1011 | between any two sandbox starts there is a stop that names the first attempt |
| `ExchangeRuns.NoStartWithoutConsent` | 333-compute-exchange/src/lib.rs:934-971 | after consent ended no sandbox starts until consent is granted anew |
| `ExchangeRuns.CreditsNeverOutrunWork` | 333-compute-exchange/src/lib.rs:1098-1142 | after every stream, credits posted ≤ results verified ≤ sandboxes started |
| `ExchangeRuns.RevocationAlwaysWorks` | 333-compute-exchange/src/lib.rs:1167-1200 | while consent is active its revocation is accepted in every reachable state and leaves no lease, no pending work and a stop for the running sandbox |
| `ExchangeRuns.NeverAnswersExpired` | 333-compute-exchange/src/lib.rs:365-385 | no command in any stream is ever answered with an expired grant |
| `ExchangeDecisions.AcceptsExactly` | 333-compute-exchange/src/lib.rs:773-1239 | each of the ten commands is accepted exactly under its stated condition |
| `ExchangeDecisions.RejectionsAreTrue` | 333-compute-exchange/src/lib.rs:773-1239 | whatever a rejection says of the command and the state is so |
| `ExchangeDecisions.MissingExactly` | 333-compute-exchange/src/lib.rs:365-394 | consent never given or ended, a closed lease, an unverified result and a producer that judges itself are answered exactly in their cases |
| `ExchangeDecisions.HandlesExactly` | 333-compute-exchange/src/lib.rs:703-771 | a command is newly accepted exactly if its key is unused, it names the generation in force and it may be accepted; a repeat is answered without effects, another intent under the key is a conflict |
| `ExchangeRuns.RepeatsAreHarmless` | 333-compute-exchange/src/lib.rs:703-753 | a copy of a handled command anywhere later in a stream changes neither aggregate nor inbox nor events nor effects |
| `ExchangeRuns.OnlyFirstTimesCount` | 333-compute-exchange/src/lib.rs:703-753 | every stream does exactly what it does with all repeats removed |
| `ExchangeRuns.RepeatGetsReceipt` | 333-compute-exchange/src/lib.rs:639-651 | after any stream that contains a command, repeating it is answered from its first time: the original receipt, marked replayed and without effects, or the same refusal |
| `ExchangeRuns.AggregateIsFold` | 333-compute-exchange/src/lib.rs:738-742 | the aggregate is the reducer's fold over first-time accepted events |
| `ExchangeRuns.JobCanComplete` | 333-compute-exchange/src/lib.rs:703-1162 | after any stream that allows a grant, every well-formed job under eight unused keys is accepted at all eight stages and ends with its credit posted to the contributor |
| `ExchangeRuns.FirstJobCompletes` | 333-compute-exchange/src/lib.rs:62-75 | a new exchange under the browser policy completes a concrete job |
| `ExchangeProgress.GrantReachableExactly` | 333-compute-exchange/src/lib.rs:813-843 | from every reachable state some continuation gets a consent grant accepted, not as a repeat, if and only if the largest time has not been observed and the policy has a hash and a positive maximum of workers, duty cycle and memory |
| `ExchangeProgress.VerdictReachableExactly` | 333-compute-exchange/src/lib.rs:1013-1096 | from every reachable state with a submitted result some continuation gets a verdict on it accepted if and only if the largest time has not been observed |
| `ExchangeProgress.WindingUpExactly` | 333-compute-exchange/src/lib.rs:1013-1200 | from every reachable state some continuation leaves nothing to wind up before a new grant if and only if no submitted result waits for its verdict at the largest time |
| `ExchangeProgress.WindsUp` | 333-compute-exchange/src/lib.rs:1013-1200 | the continuation: each of its commands is accepted for the first time, time stands still, and nothing is left in the way of a grant |
| `ExchangeProgress.WedgeHappens` | 333-compute-exchange/src/lib.rs:1016-1075 | the exceptional state is reached by a concrete stream |
| `ExchangeRuns.StepKeepsOk` | 333-compute-exchange/src/lib.rs:773-811 | every accepted command keeps the kernel invariant |
| `ExchangeRuns.StepKeepsMeter` | 333-compute-exchange/src/lib.rs:1241-1288 | every accepted command keeps the account of open sandbox, consent and counts in step with the aggregate |
| `Exchange.ComputeExchange.Handle` | 333-compute-exchange/src/lib.rs:703-753 | new state and answer are those of the specification of one command, which `ExchangeDecisions.HandlesExactly` and `ExchangeEffects.EverythingIsWarranted` describe |
| `Exchange.ComputeExchange.Evolve` | 333-compute-exchange/src/lib.rs:1345-1437 | one event is applied in place as the reducer says |
| `Exchange.ComputeExchange.CheckGeneration` | 333-compute-exchange/src/lib.rs:755-769 | passes exactly for the next generation on a grant, saturating at the largest, and for the present one otherwise |
| `CausalRuns.DeliveryIsCausal` | 333-crdt/src/rcb.rs:55-104 | in every run whatever happened before a delivered message was delivered at that replica earlier |
| `CausalRuns.ClocksAreCausality` | 333-crdt/src/rcb.rs:108-116 | for messages of a run, one's clock counts the other if and only if a chain of messages, each known to the sender of the next, leads there |
| `CausalRuns.DeliveredOnce` | 333-crdt/src/rcb.rs:118-139 | no replica delivers a message twice, however often it arrives, nor one nobody submitted |
| `CausalRuns.ClosedSetsAreDelivered` | 333-crdt/src/rcb.rs:118-139 | a replica that received a causally closed set, in any order and with duplicates, has delivered all of it |
| `CausalRuns.SubmitWakesNothing` | 333-crdt/src/rcb.rs:108-116 | a local submission never makes a buffered message deliverable, so not rescanning then loses nothing |
| `CausalBroadcast.CanDeliverMeans` | 333-crdt/src/rcb.rs:55-97 | the test as written holds if and only if the message is the sender's next, its own entry is not ahead, and all it mentions elsewhere was delivered |
| `CausalBroadcast.VectorClockBroadcaster.Receive` | 333-crdt/src/rcb.rs:118-139 | a legal delivery order, nothing lost or invented, and nothing deliverable left waiting |
| `CausalBroadcast.VectorClockBroadcaster.Scan` | 333-crdt/src/rcb.rs:123-133 | one pass delivers legally, conserves messages, and delivers nothing only if nothing is deliverable |
| `CausalBroadcast.VectorClockBroadcaster.Submit` | 333-crdt/src/rcb.rs:108-116 | the message carries the clock that already counts it |
| `CausalBroadcast.VectorClockBroadcaster.Deliverable` | 333-crdt/src/rcb.rs:55-97 | computes the delivery test by ticking a copy of the clock |
| `CausalBroadcast.VectorClockBroadcaster.DeliverNow` | 333-crdt/src/rcb.rs:99-104 | raises exactly the sender's entry to the message's counter |
| `LwwMaps.LwwMap.Merge` | 333-crdt/src/lww.rs:134-178 | the two-index walk keeps the list sorted, and under every key the later write wins and only equal stamps use the values' own join |
| `LwwMaps.LastWriterWins` | 333-crdt/src/lww.rs:134-178 | under every key the merge holds the cell with the larger stamp, whichever side it is on; only equal stamps use the values' own join |
| `LwwMaps.MergedSorted` | 333-crdt/src/lww.rs:134-178 | the merge keeps keys strictly sorted |
| `LwwMaps.SortedIsCanonical` | 333-crdt/src/lww.rs:69-72 | sorted lists that answer every lookup alike are the same list |
| `LwwMaps.MapLawsExactly` | 333-crdt/src/traits.rs:8-16 | the map's merge is idempotent, commutative and associative exactly when the values' join is |
| `LwwMaps.DocumentedAxiomsAreTooWeak` | 333-crdt/src/traits.rs:8-16 | a join that meets the documented axioms and makes merging a map with itself change it |
| `LwwMaps.DocumentedAxiomsNeedIdempotence` | 333-crdt/src/traits.rs:8-16 | the documented axioms and x ⊔ x = x together are exactly the semilattice laws |
| `LwwMaps.ReplicasConverge` | 333-crdt/src/lww.rs:124-178 | replicas that know of the same puts hold the same list, whatever the order, repetition and pattern of merges |
| `LwwMaps.NewestPutStands` | 333-crdt/src/lww.rs:124-178 | over any history of puts and merges, a known put with a larger stamp than every other known put of its key is exactly what the replica holds there |
| `LwwMaps.NewestStampStands` | 333-crdt/src/lww.rs:124-178 | over any history a key is held exactly if it was put, under the stamp of a known put that no known put of the key exceeds |
| `LwwMaps.LwwMap.Put` | 333-crdt/src/lww.rs:124-126 | a put is the merge with a single entry |
| `LwwMaps.LwwMap.Get` | 333-crdt/src/lww.rs:105-117 | binary search answers what a walk over the list would |
| `LwwMaps.Lww.Merge` | 333-crdt/src/lww.rs:50-63 | the register takes the cell with the larger stamp and uses the values' own join exactly on equal stamps |
| `LwwMaps.Lww.Update` | 333-crdt/src/lww.rs:38-46 | a write is taken exactly when its stamp is newer |

## Left out

- Ed25519 signing and verifying (section 5.1 of RFC 8032), SHA-256 and FNV mixes: a signature is a token naming signer and payload, and hashed ids are their preimages.
- Byte encodings, the journal's file format, torn tails and identity binding, TCP and mesh transport: only the journal as a sequence of records with failing appends and the network as a bag of events are kept.
- `certify` and the daemon's quiet window before an epoch vote: certificates arrive as inputs, and a fenced authority may sign at any moment.
- The last epoch certificate that an authority remembers: nothing is claimed about it after a restart.
- AuthorityNodes.Authority.Compact: does not check for poisoning, as the source does not.
- Numeric limits that only serve as far-off bounds: epochs, vector-clock counters, event numbers and resource caps are unbounded; 64- and 128-bit arithmetic is explicit for ledger amounts, sequences, rounds, times and the exchange's generation.
- Mutexes and thread interleavings inside one object: each public method is one atomic step.
- Liveness of a contested slot and client safety under the old cert-exists rule: the source disclaims both.
- Message loss, peer removal and payload bytes in the epidemic layer: the mesh is lossless, neighbour sets are fixed, and a payload is its id.
- EpidemicTermination.ProcessAndTick: acts on the model network rather than on endpoint objects, and empties a mailbox in any order where the source takes payloads before control messages.
- SagaCoordinators.SagaCoordinator.CompensateCommitted: the compensator's error text is not kept in the failure.
- Publishing saga events, the Or-Set snapshot of a workflow and replay from the journal: observers only.
- SagaCoordinators.SagaCoordinator.Execute: one definition per workflow id, as the rollback and success claims need; a second definition under the same id is not modelled, nor the unknown-step error only it can cause.
- Exchange.ComputeExchange.Handle: rejections do not carry the state's display name, the requested and allowed numbers or the command fingerprints; the full intent is compared, as in the source.
- `DvvSet`, `PNCounter`, `DeltaWrap`, the Merkle digest, `333-consensus`, `333-token`, reputation and incentive scoring, membership, Kademlia, storage, content, plugins, identity and platform wrappers: local registries, floating point or single-function round trips that would only add easy members.
