# Neutrino chunk finality in Dafny

A model of the finality protocol of one chunk of the Neutrino chain, with proofs. Validators vote in rounds: a leader
proposes a proven chunk, a stake-weighted prevote quorum makes it a valid value, a precommit quorum makes it final. Every
signature is reserved in a durable journal before it is made; a round is left only with a certificate of signed reports.

The layers, from the bottom up:

- `Types`, `Stake`, `Leader`, `Certificates`, `Accumulator`, `Pacemaker`: values, quorum arithmetic, leader rotation,
  verification of reports, certificates and proposals, vote accumulation, phase deadlines and report collection.
- `SigningJournal`, `SigningStore`, `JournalGrowth`, `JournalKeys`: the anti-equivocation journal, as a specification of one
  identity and chunk and as the object that keeps all of them.
- `Agreement`, `Witness`: safety from the journals alone, with honest validators signing anything their journals allow in any
  order, and a run that reaches finality.
- `Session`, `SessionInvariant`, `SessionSteps`, `SigningSteps`, `NodeSteps`, `Candidates`, `Recovery`, `Restart`: the session
  driver of one validator as a machine of small steps over a working copy, the session map, the saved session and the
  journal, with its invariant and its restart code.
- `Driver`: the driver's operations as methods that refine those steps. `PeerFlag`, `CandidateRuns`: the prevote-quorum flag,
  the candidate cache and the valid value over whole runs. `DriverRuns`: two histories that show what the code does not keep.
- `Context`, `Evidence`, `Network`, `LockIn`: all drivers together against faulty validators, and what holds over whole runs.
  `Progress`: what a driver makes itself is not refused by its own checks. `NetworkRuns`, `LockInRun`, `Cancellation`: runs of
  the network built event by event.
- `Codec`, `Wire`: the wire format. `Reorg`: moving the head above the finalized block. `Retention`: the deletion watermark.

Assumptions, all stated in the contracts:

- A committee carries fixed verdicts of the signature checks. A run may use a foreign artifact only if it is unforged: what
  passes the checks names honest signers only where they signed (`Agreement.Unforged`, `Network.LabelUnforged`).
- A validator's own messages verify and its own signature decodes (`Context.OwnSignaturesVerify`). An aggregate of verified
  prevote claims verifies when it decodes (`Context.AggregatesVerify`), and a prevote quorum decodes (`Context.QuorumsDecode`).
  `Context.HonestQuorumsDecode` derives the last from the fault bound when an aggregate with an honest signer decodes
  (`Context.HonestDecode`). Nothing is assumed of other unions: a vote is accepted on its own verdict, and the union of two
  accepted votes may be the undecodable identity.
- Faulty stake is below the overlap of a precommit with a prevote quorum and of two prevote quorums (`Stake.FaultBound`);
  `Stake.OneThirdSuffices` derives it from less than a third.
- A storage batch is atomic. A call may be abandoned and a validator may crash after any step.

Four observations about the code, kept as it is:

- Saved aggregates are added again at restart and when the target changes, each as one vote that has to decode. Two faulty
  validators with opposite keys, each accepted alone, cancel: a session that counted exactly them does not restart and cannot
  change its target (`Cancellation.CancelledSessionIsStuck`). Restart succeeds if and only if every nonempty saved aggregate
  decodes (`LockIn.CrashRecovers`), which one honest signer in each ensures (`LockIn.HonestAggregatesRestart`).
- Choosing another target clears the accumulated votes but not the "prevote quorum observed" flag
  (`DriverRuns.FlagOutlivesQuorum`; exactly when: `PeerFlag.AcceptanceIsStaleExactly`, `PeerFlag.StaleHasCause`). Only the
  finished flag always implies its stake.
- A proposal's certificate is installed after the candidate cache was trimmed for it, so the branch it names can be the one
  just dropped (`DriverRuns.ReportedBranchCanGo`; exactly when: `CandidateRuns.InstalledBranchDropped`).
- A reorganization walks from the current head down to genesis, and pruning deletes the headers below the retained anchor.
  Once the anchor is above height one every reorganization is refused, and the head moves only by importing a block that
  extends it (`Reorg.PrunedNeverReplays`; exactly when a reorganization moves: `Reorg.ChainEngine.MaterialiseTo`).

## Model

| member | source | states |
|---|---|---|
| `Agreement.Agreement` | crates/consensus-chunk-bft/src/lib.rs:374-434 | in every run of signing steps with faulty stake below the quorum overlap, any two finality certificates of the chunk name the same hash, whatever their rounds and whenever they were assembled |
| `Agreement.OneCertificate` | crates/consensus-chunk-bft/src/lib.rs:374-434 | the same for any log that keeps the invariant, at any two moments of it |
| `Agreement.PrecommitQuorumExcludes` | crates/consensus-engine/src/signing.rs:534-570 | a precommit quorum for `v` at round `r` excludes a prevote quorum for any other value at every round from `r` on |
| `Agreement.OnePrevoteQuorumPerRound` | crates/consensus-engine/src/signing.rs:420-507 | two prevote quorums of one round, formed at any two moments, are for the same value |
| `Agreement.RunKeepsInv` | crates/consensus-engine/src/signing.rs:420-507 | every state of every run keeps: one reservation per position, votes in round order, every precommit preceded by its own round's prevote quorum, every prevote against a lock preceded by a later quorum for its value |
| `Agreement.SignValueKeepsLog` | crates/consensus-engine/src/signing.rs:420-570 | a vote the journal lets through is ordered, unique, justified and unlocked against everything signed before |
| `Witness.FinalityIsReached` | crates/consensus-engine/src/bft_loop.rs:508-512 | the assumptions can be met and finality is reachable: a lone validator finalizes any hash by two votes its journal accepts |
| `LockInRun.LockInIsReached` | crates/consensus-engine/src/bft_loop.rs:508-512 | the hypotheses of lock-in and agreement are met by a run of the network: a validator completes a certificate for any hash, and later accepts the proposal of the next round |
| `LockIn.LockIn` | crates/consensus-chunk-bft/src/lib.rs:438-505 | once `v` has a precommit quorum at round `r`, every proposal any honest validator has accepted at any time for a round after `r` proposes `v` |
| `LockIn.OnlyLockedProposals` | crates/consensus-chunk-bft/src/lib.rs:456-495 | the same for any proposal that passes `set_proposal` and is unforged, accepted or not |
| `LockIn.CertificateReaches` | crates/consensus-engine/src/bft_liveness.rs:431-490 | a round certificate after a precommit quorum carries a value certificate of that round or later, because it holds an honest precommitter's report |
| `LockIn.DriversAgree` | crates/consensus-engine/src/bft_loop.rs:886-910 | any two validators whose sessions ever hold both quorums hold them for the same chunk |
| `LockIn.CrashRecovers` | crates/consensus-engine/src/bft_persistence.rs:194-234 | after a crash at any point of any run of the whole network, restore succeeds if and only if every nonempty saved aggregate decodes, and is then exact; recovery re-signs exactly the reserved votes of its round without changing the journal and without any refusal |
| `LockIn.HonestAggregatesRestart` | crates/consensus-engine/src/bft_persistence.rs:313-367 | when only faulty keys can cancel, a saved session whose aggregates each have an honest signer restarts |
| `Cancellation.CancelledSessionIsStuck` | crates/consensus-engine/src/bft_persistence.rs:313-367 | a run within the fault bound after which a validator does not start again: it had counted exactly two signers with opposite keys; it cannot change its target either |
| `LockIn.ReservedProposalIsAccepted` | crates/consensus-engine/src/bft_liveness.rs:318-335 | a leader proposal reserved before a crash passes `set_proposal` again |
| `Network.NetworkRunKeepsInv` | crates/consensus-engine/src/bft_liveness.rs:215-601 | every event of the network, crashes and abandoned calls included, keeps the log facts, each validator's session invariant, the journal coverage and that everything a session holds was really signed |
| `Network.PrecommitPrecedesReports` | crates/consensus-engine/src/bft_loop.rs:940-948 | no precommit is signed after a report for a later round, because the phase is closed first |
| `Network.ReportCoversPrecommits` | crates/consensus-engine/src/bft_liveness.rs:455-467 | a round report carries a certificate at least as high as every precommit its signer ever made |
| `SigningJournal.SignVoteKeepsWellFormed` | crates/consensus-engine/src/signing.rs:420-507 | a value reservation keeps the journal well-formed: records only at the watermark's round and at the retained lock, each exactly the one the watermark names |
| `SigningJournal.SignNilKeepsWellFormed` | crates/consensus-engine/src/signing.rs:747-826 | the same for a nil reservation |
| `SigningJournal.ReserveMessageKeepsWellFormed` | crates/consensus-engine/src/signing.rs:908-993 | the same for a proposal or round-change reservation |
| `SigningJournal.WellFormedIsAccepted` | crates/consensus-engine/src/signing.rs:269-335 | a well-formed journal passes every check made when its watermark is read |
| `SigningJournal.CompactClearsRound` | crates/consensus-engine/src/signing.rs:207-256 | compaction drops exactly the old round, keeps the precommit intent of the retained lock, and drops messages only of earlier rounds |
| `SigningJournal.SignVoteLock` | crates/consensus-engine/src/signing.rs:461-500 | a value step keeps the lock or replaces it by its own quorum; the lock's round never falls |
| `SigningJournal.SignNilLock` | crates/consensus-engine/src/signing.rs:794-805 | nil votes never change the lock |
| `SigningJournal.AtMostEightRecords` | crates/consensus-engine/src/signing.rs:207-256 | one identity keeps at most eight records of an unfinalized chunk, however many rounds pass |
| `SigningJournal.EightRecordsAreReached` | crates/consensus-engine/src/signing.rs:472-501 | the bound is tight: five accepted steps from an empty journal reach eight records |
| `SigningJournal.SignVoteCovers` | crates/consensus-engine/src/signing.rs:420-507 | a value step keeps every earlier reservation protected by a watermark or its exact record, and equals any earlier one at its position |
| `SigningJournal.SignNilCovers` | crates/consensus-engine/src/signing.rs:747-826 | the same for a nil step |
| `SigningJournal.ReserveMessageCovers` | crates/consensus-engine/src/signing.rs:908-993 | the same for a proposal or round-change step |
| `SigningStore.RunsNeverEquivocate` | crates/consensus-engine/src/signing.rs:420-507 | over any requests for any identities and chunks, with finality raised and records pruned in between, at most one exact message is ever signed per position |
| `SigningStore.RunsStayAcceptedAndBounded` | crates/consensus-engine/src/signing.rs:269-335 | after any requests every journal passes validation and has at most eight records |
| `SigningStore.DurableJournal.EnsureSignable` | crates/consensus-engine/src/signing.rs:383-393 | which refusal is returned exactly when, and that a position let through still has a journal covering everything ever signed there |
| `SigningStore.UncoveredIsRefused` | crates/consensus-engine/src/signing.rs:383-393 | over any run, a position whose journal no longer covers what was signed there is refused |
| `SigningStore.RefusalIsNeeded` | crates/consensus-engine/src/signing.rs:383-393 | after finality and pruning the bare journal of a position would accept a conflicting vote; the position is refused |
| `SigningStore.DurableJournal.CompactRoundIntents` | crates/consensus-engine/src/signing.rs:207-256 | the phase loop and message deletions compute the specified compaction |
| `SigningStore.DurableJournal.SignVoteDurable` | crates/consensus-engine/src/signing.rs:420-507 | the state after the call, and the signature or refusal, are those of the specification; a refusal writes nothing |
| `SigningStore.DurableJournal.SignNilDurable` | crates/consensus-engine/src/signing.rs:747-826 | the same for nil votes |
| `SigningStore.DurableJournal.SignMessageDurable` | crates/consensus-engine/src/signing.rs:908-993 | the same for proposals and round-change reports |
| `SigningStore.DurableJournal.RaiseFinalizedFloor` | crates/consensus-engine/src/signing.rs:732-743 | the finality floor only rises |
| `SigningStore.DurableJournal.PruneExpired` | crates/consensus-engine/src/signing.rs:683-730 | removes exactly the journals below the finality floor |
| `JournalGrowth.SignVoteAgain` | crates/consensus-engine/src/signing.rs:589-606 | signing a current reservation again succeeds and changes nothing |
| `JournalGrowth.SignNilAgain` | crates/consensus-engine/src/signing.rs:861-874 | the same for a nil reservation |
| `JournalKeys.KeysAreDistinct` | crates/consensus-engine/src/signing.rs:147-203 | different journal records never share a database key |
| `NodeSteps.StepKeepsInv` | crates/consensus-engine/src/bft_liveness.rs:215-601 | each step of a validator, in any order and with a crash anywhere, keeps: the session fits the journal, the journal's reservations fit the working, mapped and saved session, the valid value is at or above the lock, reports exist only for closed rounds |
| `NodeSteps.PrevoteNeverRefused` | crates/consensus-engine/src/bft_liveness.rs:276-294 | the journal never refuses a prevote the driver asks for |
| `NodeSteps.PrecommitNeverRefused` | crates/consensus-engine/src/bft_loop.rs:949-981 | the journal never refuses a precommit the driver asks for: a quorum of separately verified prevotes is a certificate |
| `NodeSteps.NilNeverRefused` | crates/consensus-engine/src/bft_liveness.rs:367-397 | the journal never refuses a nil vote the driver asks for |
| `NodeSteps.MessageNeverRefused` | crates/consensus-engine/src/bft_liveness.rs:346-361 | the journal never refuses a proposal or report the driver asks for |
| `SigningSteps.PrevoteReserved` | crates/consensus-engine/src/bft_liveness.rs:258-261 | a prevote reservation fits every stored copy of the session that agrees on round, target, proposal and justification |
| `SigningSteps.PrecommitReserved` | crates/consensus-engine/src/bft_loop.rs:963-972 | a precommit reservation fits the session persisted just before it |
| `SessionSteps.EnterRoundKeeps` | crates/consensus-engine/src/bft_liveness.rs:563-595 | certified entry into a later round keeps the session invariant |
| `SessionSteps.AcceptProposalKeeps` | crates/consensus-engine/src/bft_liveness.rs:236-260 | accepting the leader's proposal keeps the session invariant |
| `SessionSteps.AddedVotesAccepted` | crates/consensus-chunk-bft/src/lib.rs:559-594 | a vote accepted on its own verdict joins the verified claims, and a quorum of them is a certificate |
| `Context.RulesHold` | crates/consensus-chunk-bft/src/lib.rs:438-505 | the checks of a committee member have every property the session invariant uses: what they accept has the right shape, quorums only grow, own messages are accepted, collected reports stay restorable |
| `Context.HonestQuorumsDecode` | crates/consensus-chunk-bft/src/lib.rs:1039-1068 | under the fault bound every prevote quorum has an honest signer, so its signatures do not cancel |
| `Recovery.RestoreIsExact` | crates/consensus-engine/src/bft_persistence.rs:242-481 | restart accepts a saved session if and only if each of its nonempty aggregates decodes, and then rebuilds it exactly; only peer progress is derived anew |
| `Recovery.ReaddedIsDecodable` | crates/consensus-engine/src/bft_liveness.rs:191-213 | adding the accumulated aggregates to a new accumulator fails exactly when one does not decode |
| `Recovery.RecoverIsExact` | crates/consensus-engine/src/bft_persistence.rs:586-657 | recovery succeeds, leaves the journal as it was and the session with exactly the votes reserved for its round |
| `Recovery.SyncedIsUnchanged` | crates/consensus-engine/src/bft_persistence.rs:615-625 | recovery does not touch a session that already holds its reservations |
| `Restart.RestoreBftSession` | crates/consensus-engine/src/bft_persistence.rs:242-481 | the checks in the order of the code, with its progress flags, accept and rebuild as specified |
| `Restart.ReaddNils` | crates/consensus-engine/src/bft_persistence.rs:313-319 | the loop over the saved nil aggregates accepts exactly those that verify as presented votes |
| `Restart.ReaddVotes` | crates/consensus-engine/src/bft_persistence.rs:360-367 | the same for the saved value aggregates |
| `Restart.CheckLocalNils` | crates/consensus-engine/src/bft_persistence.rs:396-413 | accepts exactly the nil votes that are the reservations of their phase, and derives the phase flags |
| `Restart.CheckLocalVotes` | crates/consensus-engine/src/bft_persistence.rs:414-456 | accepts exactly one reserved vote per phase, on the session's target, with its justification or receipts |
| `Restart.RecoverSessionSigning` | crates/consensus-engine/src/bft_persistence.rs:586-657 | the recovery code computes the specified outcome, error exits included |
| `Restart.RecoverReserved` | crates/consensus-engine/src/bft_persistence.rs:84-142 | nil votes first, then prevote and precommit, stopping at the first that does not fit |
| `Restart.ResignReserved` | crates/consensus-engine/src/signing.rs:589-606 | re-signs every reservation of the journal's round in order |
| `Driver.ReachableIsOk` | crates/consensus-engine/src/bft_liveness.rs:215-601 | every state the driver can reach satisfies the session invariant in all three copies |
| `Driver.FinishedHasProposal` | crates/consensus-engine/src/bft_loop.rs:886-910 | a session marked finished has an accepted proposal and both quorums |
| `Driver.BftDriver.constructor` | crates/consensus-engine/src/bft_loop.rs:543-603 | a new session has nothing signed and is on disk and in the map |
| `Driver.Open` | crates/consensus-engine/src/bft_loop.rs:543-620 | opening a session gives the leader its turn unless suppressed, recomputes the quorums and persists |
| `Driver.OfferOrOpen` | crates/consensus-engine/src/bft_candidates.rs:44-96 | a proven branch opens the session of a chunk that has none, and is otherwise retained in it |
| `Driver.BftDriver.Synchronize` | crates/consensus-engine/src/bft_persistence.rs:586-657 | the operation starts from the mapped session with its interrupted reservations recovered; a finished session is unchanged by it |
| `Driver.BftDriver.SignAuthorizedPrevote` | crates/consensus-engine/src/bft_liveness.rs:271-296 | prevotes the target, or nil against an incompatible lock, once |
| `Driver.BftDriver.SignBftNil` | crates/consensus-engine/src/bft_liveness.rs:367-397 | signs nil once per phase, after persisting the session |
| `Driver.BftDriver.RecomputeQuorumTransitions` | crates/consensus-engine/src/bft_loop.rs:935-991 | retains the quorum as valid value, precommits it when due, advances peer progress; the only error is a precommit whose proofs are not stored |
| `Driver.BftDriver.InstallProposal` | crates/consensus-engine/src/bft_liveness.rs:191-260 | succeeds exactly for the fitting first proposal of the round: an accepted one, and for another target also no local value vote and nil aggregates that decode; it is durable and mapped before any vote; a refusal changes nothing stored |
| `Driver.BftDriver.AcceptLeaderProposal` | crates/consensus-engine/src/bft_liveness.rs:215-269 | succeeds exactly when the proposal fits and the due precommit has its proofs; a second proposal is refused |
| `Driver.BftDriver.StartLeaderProposal` | crates/consensus-engine/src/bft_liveness.rs:298-365 | puts the reserved or a new proposal to acceptance and does nothing when the validator may not lead; it fails exactly when its target must move but cannot, the proposal is not accepted, or proofs are missing |
| `Driver.BftDriver.EnterCertifiedRound` | crates/consensus-engine/src/bft_liveness.rs:563-601 | enters exactly a later certified round, then lets the leader propose unless suppressed; fails exactly when the round is not later or that proposal fails |
| `Driver.BftDriver.CloseRound` | crates/consensus-engine/src/bft_liveness.rs:440-470 | closes the phase durably, then records the recorded, reserved or new report |
| `Driver.BftDriver.RequestRoundChange` | crates/consensus-engine/src/bft_liveness.rs:431-490 | collects the own report and enters the round it completes; fails exactly at the end of the round space or when that entry fails |
| `Driver.BftDriver.CollectAndAdvance` | crates/consensus-engine/src/bft_liveness.rs:509-526 | an unacceptable report is an error and changes nothing; a completed certificate enters its round, and no other error exists than that of the entry |
| `Progress.LeadingFailsExactly` | crates/consensus-engine/src/bft_liveness.rs:298-365 | at every moment of every run under the fault bound, leading fails exactly when the target cannot move or proofs are missing: what a leader proposes always passes its own check |
| `Progress.ReportIsAlwaysCollected` | crates/consensus-engine/src/bft_liveness.rs:431-490 | at every moment of every run, the own report of a round change is accepted by the own report collection |
| `Driver.BftDriver.ObserveFinalityVote` | crates/consensus-engine/src/bft_loop.rs:647-727 | votes for another round or target change nothing; a vote that does not verify is an error and changes nothing; a finished session only authenticates; any other vote is counted on its own verdict and gives the specified session, on disk and in the map |
| `Driver.BftDriver.ObserveNilVote` | crates/consensus-engine/src/bft_liveness.rs:400-429 | a nil vote that does not verify changes nothing; nil stake makes the local nil precommit and then the round change due; a finished session is frozen |
| `Driver.BftDriver.ObserveRoundChange` | crates/consensus-engine/src/bft_liveness.rs:494-531 | collects a report for a later round; a finished session is frozen |
| `Driver.BftDriver.ObserveRoundChangeCertificate` | crates/consensus-engine/src/bft_liveness.rs:534-561 | enters only a verified later round; a finished session is frozen |
| `Driver.BftDriver.ObserveProposal` | crates/consensus-engine/src/bft_liveness.rs:136-188 | accepts the proposal of this round, or enters its certified later round first; a finished session is frozen |
| `Driver.ObserveOrOpen` | crates/consensus-engine/src/bft_liveness.rs:136-188 | a proposal opens the session of a chunk that has none, with its certificate and without a leader turn, and is then observed by it |
| `Driver.BftDriver.OfferCandidate` | crates/consensus-engine/src/bft_candidates.rs:60-96 | retains an available branch and its certificate without moving the round or authorizing a vote by itself; a finished certificate is unchanged |
| `Driver.BftDriver.Tick` | crates/consensus-engine/src/bft_liveness.rs:603-646 | the phase timeout that is due happens, once; without one the session is persisted exactly when recovery changed it or signed again; a finished session is frozen; exhaustion of the round space is an error |
| `Driver.BftDriver.PerformAll` | crates/consensus-engine/src/bft_loop.rs:671-674 | over any interleaving of votes, nils, reports, certificates, proposals, offers and ticks, failed ones included, a finished session keeps its whole certificate |
| `Driver.BftDriver.Reload` | crates/consensus-engine/src/bft_persistence.rs:194-234 | restart from disk yields the saved session if and only if its aggregates decode, and is refused otherwise |
| `Driver.BftDriver.Restart` | crates/consensus-engine/src/bft_persistence.rs:194-234 | after a successful restart and recovery the session holds exactly the reservations of its round and the journal is unchanged; it fails exactly when a saved aggregate does not decode |
| `Driver.BftDriver.Resume` | crates/consensus-engine/src/bft_persistence.rs:522-581 | completes an interrupted proposal or starts the leader's turn, then recomputes |
| `Candidates.TrimExact` | crates/consensus-engine/src/bft_liveness.rs:83-111 | eviction reaches the bound, never drops a protected hash, and drops only hashes below every unprotected one it keeps |
| `Candidates.RememberBftCandidate` | crates/consensus-engine/src/bft_liveness.rs:81-112 | the eviction loop computes the specified cache and never gives up above eight branches |
| `Candidates.RememberValidKeeps` | crates/consensus-engine/src/bft_liveness.rs:116-132 | the valid value only rises in rank and its branch is always in the cache |
| `CandidateRuns.StepKeepsCache` | crates/consensus-engine/src/bft_liveness.rs:81-132 | every step keeps the cache of all three copies bounded and the valid value's branch in it; one that changes the session keeps each branch it names and does not lower the value; reloading and crashing take a stored copy as it is |
| `CandidateRuns.ValidOnlyRises` | crates/consensus-engine/src/bft_liveness.rs:116-132 | over any run of a validator, with crashes and abandoned calls, what the session map held at one moment is not above what the map, the working copy or the saved session hold at any later one |
| `CandidateRuns.ValidOnlyRisesEverywhere` | crates/consensus-engine/src/bft_liveness.rs:116-132 | the same for every validator over any run of the network |
| `CandidateRuns.SavedCanFall` | crates/consensus-engine/src/bft_candidates.rs:86-96 | the saved copy alone can fall, back to the session map: an abandoned call's write is overwritten by the next call |
| `CandidateRuns.AcceptDropsExactly` | crates/consensus-engine/src/bft_liveness.rs:246-256 | taking a proposal drops a branch if and only if the cache is full, the proposed branch is new, and the branch is the smallest one not named |
| `CandidateRuns.InstalledBranchDropped` | crates/consensus-engine/src/bft_liveness.rs:246-256 | the branch named by the certificate a proposal installs is dropped if and only if the cache is full, the proposed branch is new, and that branch is the smallest not named yet |
| `DriverRuns.ReportedBranchCanGo` | crates/consensus-engine/src/bft_liveness.rs:249-256 | a driver that can be reached and a proposal it accepts, whose acceptance drops the branch named by the certificate it installs |
| `PeerFlag.AcceptanceIsStaleExactly` | crates/consensus-engine/src/bft_liveness.rs:215-269 | accepting a proposal leaves the prevote-quorum flag without its quorum if and only if the flag was set, the proposed hash is not the target, and the local prevote that follows is not a quorum by itself |
| `PeerFlag.AcceptedIsStaleExactly` | crates/consensus-engine/src/bft_liveness.rs:236-260 | the same before the local prevote: exactly when the flag was set and the proposed hash is not the target |
| `PeerFlag.FlagEndsPrevoting` | crates/consensus-engine/src/bft_liveness.rs:262-266 | a set flag ends the prevote phase as soon as a proposal is accepted, with or without a quorum for it |
| `PeerFlag.StepFlag` | crates/consensus-engine/src/bft_loop.rs:886-910 | a step leaves the flag without its quorum only if it was so already or a flagged session without a proposal changed its target, and then it always does; round entry and restart repair it |
| `PeerFlag.StaleHasCause` | crates/consensus-engine/src/bft_loop.rs:886-910 | over any run, a flag without its quorum was preceded by such a change of target |
| `DriverRuns.FlagOutlivesQuorum` | crates/consensus-engine/src/bft_liveness.rs:242-266 | a driver that can be reached, with a prevote quorum and the flag, and a fitting proposal for another hash after which the flag is set, the quorum is gone and the precommit phase has begun |
| `Accumulator.VoteAccumulator.Record` | crates/consensus-chunk-bft/src/lib.rs:120-154 | an accepted vote adds its signers: bitmap, one claim per signer, stake of the union and the aggregate of all claims |
| `Accumulator.VoteAccumulator.RecordAll` | crates/consensus-chunk-bft/src/lib.rs:120-154 | after any sequence of overlapping votes the accumulator holds exactly the union of their signers |
| `Accumulator.AggregateIndependentOfOrder` | crates/consensus-chunk-bft/src/lib.rs:1026-1068 | the aggregate depends only on the set of signers |
| `Accumulator.TotalActiveStake` | crates/consensus-chunk-bft/src/lib.rs:900-914 | the total of positive unslashed stake; the overflow error exactly when it exceeds 64 bits, the zero error exactly when it is nothing |
| `Accumulator.BitmapStake` | crates/consensus-chunk-bft/src/lib.rs:920-945 | the stake of the named validators, at most the total; a wrong length or an inactive signer is the invalid-bits error, no signer the empty error, and the sum never overflows |
| `Accumulator.UnionBits` | crates/consensus-chunk-bft/src/lib.rs:1016-1024 | the bitwise union |
| `Accumulator.MergeSignedClaims` | crates/consensus-chunk-bft/src/lib.rs:992-1014 | merges distinct signers in order, and fails exactly when one signer has two signatures |
| `Accumulator.ExtendAggregate` | crates/consensus-chunk-bft/src/lib.rs:1049-1068 | the extended aggregate equals aggregating every claim afresh, also when the retained aggregate is the undecodable identity |
| `Accumulator.VoteAccumulator.CurrentVote` | crates/consensus-chunk-bft/src/lib.rs:349-352 | the accumulated aggregate as one vote names exactly the accumulated signers and is accepted again if and only if it decodes |
| `Accumulator.OppositeVotesCancel` | crates/consensus-chunk-bft/src/lib.rs:1773-1811 | two votes that are each accepted accumulate to an aggregate that no vote of the same signers can present again |
| `Certificates.VerifyRoundChange` | crates/consensus-chunk-bft/src/lib.rs:752-779 | accepts exactly the reports acceptable alone, whatever was checked before |
| `Certificates.VerifyRoundCertificate` | crates/consensus-chunk-bft/src/lib.rs:781-816 | one pass with shared checks accepts exactly the certificates whose reports are each acceptable, distinct, on target and of quorum stake; the sum never overflows |
| `Certificates.FindHighestQuorum` | crates/consensus-types/src/bft.rs:165-175 | finds a carried certificate that none outranks |
| `Certificates.HighestQuorumIsMaximal` | crates/consensus-types/src/bft.rs:165-175 | the highest certificate is carried by a report and outranked by none |
| `Certificates.SetProposal` | crates/consensus-chunk-bft/src/lib.rs:438-505 | accepts exactly the authentic leader proposal whose value covers its certificate, and one per round |
| `Stake.QuorumsMeet` | crates/consensus-chunk-bft/src/lib.rs:984-990 | two quorums share a validator that is not faulty |
| `Stake.OneThirdSuffices` | crates/primitives/src/lib.rs:266-285 | for all valid fractions, faulty stake below one third meets the fault assumption |
| `Leader.RotationIsFair` | crates/consensus-types/src/bft.rs:209-235 | any n consecutive rounds elect each of the n eligible validators exactly once and no other, without overflow |
| `Pacemaker.NextRoundReportsSurvive` | crates/consensus-chunk-bft/src/pacemaker.rs:200-247 | however reports of all rounds interleave, a report accepted for the next round is still held |
| `Pacemaker.QuorumOfReportsCertifies` | crates/consensus-chunk-bft/src/pacemaker.rs:231-246 | the call that completes a quorum for the next round returns a certificate that verifies and names exactly the reporters |
| `Pacemaker.FormedCertificateVerifies` | crates/consensus-chunk-bft/src/pacemaker.rs:234-246 | every certificate the collection forms verifies |
| `Pacemaker.CollectRunKeepsOk` | crates/consensus-chunk-bft/src/pacemaker.rs:163-194 | at every moment the collected reports pass the restart checks |
| `Pacemaker.PhasesOnlyAdvance` | crates/consensus-chunk-bft/src/pacemaker.rs:86-137 | in any interleaving of phase entries and timeouts the phase never moves back and each nil action fires at most once |
| `Pacemaker.RepeatedEntryKeepsDeadline` | crates/consensus-chunk-bft/src/pacemaker.rs:86-137 | a repeated entry never moves the deadline, and a timeout moves nothing before it |
| `Pacemaker.ValidateSavedReports` | crates/consensus-chunk-bft/src/pacemaker.rs:163-194 | accepts exactly the report states the collection keeps |
| `Pacemaker.RoundPacemaker.OnTimeout` | crates/consensus-chunk-bft/src/pacemaker.rs:111-137 | fires the action of the phase once its deadline has passed |
| `Pacemaker.RoundPacemaker.Advance` | crates/consensus-chunk-bft/src/pacemaker.rs:139-151 | rounds only increase; reports of rounds up to the new one are dropped |
| `Pacemaker.RoundPacemaker.AcceptRoundChange` | crates/consensus-chunk-bft/src/pacemaker.rs:200-247 | collects as specified and never fails on indexing or stake sums |
| `Pacemaker.RoundPacemaker.Prevote` | crates/consensus-chunk-bft/src/pacemaker.rs:86-92 | enters the prevote phase from the proposal phase only |
| `Pacemaker.RoundPacemaker.Precommit` | crates/consensus-chunk-bft/src/pacemaker.rs:94-101 | enters the precommit phase from an earlier phase only |
| `Pacemaker.RoundPacemaker.Await` | crates/consensus-chunk-bft/src/pacemaker.rs:103-109 | closes the round once |
| `Wire.NilLawful` | crates/consensus-types/src/bft.rs:330-337 | decoding a nil vote undoes encoding, leaves following bytes unread, and accepts nothing but encodings of values in bounds |
| `Wire.ReportLawful` | crates/consensus-types/src/bft.rs:362-370 | the same for round-change reports with their optional certificate |
| `Wire.CertificateLawful` | crates/consensus-types/src/bft.rs:373-391 | the same for round-change certificates |
| `Wire.ProposalLawful` | crates/consensus-types/src/bft.rs:341-359 | the same for proposals with both optional parts |
| `Wire.ValueLawful` | crates/consensus-types/src/bft.rs:307-327 | the same for value votes with their attestations, proof hashes and unlock certificates |
| `Wire.QuorumLawful` | crates/consensus-types/src/bft.rs:275-283 | the same for value certificates with their bitmap |
| `Wire.BitmapLawful` | crates/consensus-types/src/bft.rs:257-268 | the same for bitmaps: exact byte length and zero padding |
| `Codec.VectorLawful` | crates/consensus-types/src/bft.rs:242-255 | the same for vectors of any lawful element, bounded before reading |
| `Codec.OptionalLawful` | crates/consensus-types/src/bft.rs:285-293 | the same for optional values with tag 0 or 1 |
| `Wire.Reader.ReadBoundedVec` | crates/consensus-types/src/bft.rs:242-255 | the reading loop decodes as specified and collects at most the bound |
| `Wire.Reader.ReadBitmap` | crates/consensus-types/src/bft.rs:257-268 | the reading loop decodes as specified |
| `Reorg.FindLcaAndPathTo` | crates/consensus-engine/src/import.rs:1065-1114 | finds a fork exactly when both heads reach genesis: the ancestor is on both chains, the path links it parent to child to the new head and shares nothing with the current chain |
| `Reorg.Ancestors` | crates/consensus-engine/src/import.rs:1072-1086 | the walk collects exactly the chain of the head |
| `Reorg.ReplayBranch` | crates/consensus-engine/src/import.rs:1024-1054 | succeeds exactly when every block executes on its parent's state to its header's root |
| `Reorg.ReplayToHead` | crates/consensus-engine/src/import.rs:989-1055 | succeeds exactly when the branch forks at or above the finalized height and all of it executes; the result is the new head with its committed root |
| `Reorg.ForkKeepsFinal` | crates/consensus-engine/src/import.rs:999-1009 | a branch forking at or above the finalized height contains the finalized block |
| `Reorg.ForkIsUnique` | crates/consensus-engine/src/import.rs:1057-1064 | two heads have one lowest common ancestor and one path from it |
| `Reorg.CommitTip` | crates/consensus-engine/src/store/canonical.rs:27-109 | fails exactly when the new chain leaves the old one below the retained anchor or ends below it; otherwise the height index becomes exactly genesis and the new chain from the anchor on; no deleted header is read |
| `Reorg.ImportKeepsHead` | crates/consensus-engine/src/import.rs:535-768 | storing a block leaves the head's chain, its height index and the finalized block as they are |
| `Reorg.ChainEngine.ImportBlock` | crates/consensus-engine/src/import.rs:535-768 | stores exactly a valid new block one height above a parent that is stored and known to the fork choice; one that extends the head becomes the head with its index, any other leaves the head |
| `Reorg.ChainEngine.CommitHead` | crates/consensus-engine/src/engine.rs:932-955 | index, head, height and root move together; a head that keeps the finalized block never meets the refusals at the retained anchor |
| `Reorg.ChainEngine.FinalizeNext` | crates/consensus-engine/src/engine.rs:655-665 | with an authentic proof finality advances by one chunk of the canonical branch, exactly when the head reaches its end, whose block becomes the finalized one |
| `Reorg.ChainEngine.MaterialiseTo` | crates/consensus-engine/src/import.rs:967-987 | the head moves exactly when the branch to another head forks at or above the finalized height and executes, and the finalized block is then still an ancestor; once headers are deleted it never moves; a refusal changes nothing |
| `Reorg.MissingHeaderStopsReplay` | crates/consensus-engine/src/import.rs:1072-1086 | with a header of the current chain missing no other head can be reached |
| `Reorg.PrunedNeverReplays` | crates/consensus-engine/src/store/retention.rs:351-355 | once headers above height zero are deleted the current chain is incomplete and no branch can be replayed |
| `Reorg.ChainEngine.RaiseAnchor` | crates/consensus-engine/src/store/retention.rs:325-355 | deletes the headers and index entries below an anchor within the finalized chunks; head, finalized block and the rest of the index stay |
| `Retention.RetentionIsMonotone` | crates/consensus-engine/src/retention.rs:65-84 | over any operations the watermark never falls, the stored bounds pass validation, and pruning reports no regression |
| `Retention.ApplyKeepsInv` | crates/consensus-engine/src/engine.rs:497-529 | every operation keeps the validated bounds and moves no counter back; pruning never fails |
| `Retention.FloorNeverRegresses` | crates/consensus-engine/src/retention.rs:70-79 | the computed watermark is between the recorded one and the proven coverage |
| `Retention.RetentionEngine.PruneHistoryCovered` | crates/consensus-engine/src/retention.rs:65-84 | sets the watermark to the bounded coverage; its "regressed" and overflow exits are never taken |
| `Retention.RetentionEngine.CommitVerifiedHistory` | crates/consensus-engine/src/history.rs:147-175 | only an authentic, longer prefix from genesis extends the coverage, within finality |
| `Retention.RetentionEngine.InstallAt` | crates/consensus-engine/src/bootstrap.rs:58-98 | an authentic bootstrap moves all counters to the installed boundary, never back; any other changes nothing |

## Left out

- Nodes without an active voter, key rotation and validator-set changes: the model has one fixed active voter per session.
- The action list, aggregator publishing, fork-choice feeding, slashing evidence and metrics of the driver: they do not feed back into the session.
- Storage failures and the size bound of a saved session: they appear only as a call abandoned after some step.
- Branch execution and proof validation before a candidate or proposal is used: a boolean argument of the operation.
- Stored proof envelopes do not change during a session; they are a function of the target.
- BLS and hashing: verdict functions, and in `Accumulator` a commutative group with an undecodable identity.
- Session.Restore: the vote vectors hold at most one vote per phase and are kept by phase, so their order is not modelled.
- Reorg.ChainEngine.RaiseAnchor: keeps the headers of abandoned branches at or above the anchor, which pruning deletes too; no import or reorganization can reach them, because they do not descend from the finalized block.
- Reorg.ChainEngine.ImportBlock: the checks on signature, body and slot are a boolean argument, and the saturation of the height at the end of the 64-bit range is not modelled.
- Network.OpenSession: opens over an empty journal. A bootstrap at an equal finalized count deletes the sessions and keeps the journal, so a session can open over reservations; only the results from the journals alone (`Agreement.Agreement`, `SigningStore.RunsNeverEquivocate`) cover that.
- Retention.RetentionEngine.PruneHistoryCovered: does not model what is deleted, only how far.
- Liveness under timing assumptions, block production, finality proofs, bootstrap authentication and the tags of the gossip envelope.
- The proposer watermark of block proposals: a single slot counter beside the vote journal.
