/** Wire-level values of the chunk-BFT protocol.

    A chunk is named by its hash. A quorum certificate keeps the set of validator
    indices named by its aggregation bits. Signatures are not values of the model:
    a committee carries the verdicts of the signature checks (module Stake). */
module Types {

  datatype Option<+T> = None | Some(value: T)

  /** Outcome of an operation that the source can refuse. */
  datatype Result<+T> = Ok(value: T) | Err(violation: Violation)

  /** `Conflict` to `KeyNotActive` are the signing violations; the others are storage and vote errors. */
  datatype Violation =
    | Conflict
    | Regression
    | FinalizedChunk
    | KeyNotActive
    | Corrupt
    | WrongTarget
    | InvalidBits
    | EmptyVote
    | InvalidQuorum
    | InvalidSignature
    | StakeOverflow
    | ZeroStake
    | RoundExhausted

  /** A 32-byte commitment, ordered as a big-endian number. */
  type Hash = nat

  const MAX_ROUND: nat := 0xFFFF_FFFF
  const MAX_U64: nat := 0xFFFF_FFFF_FFFF_FFFF

  datatype Phase = Prevote | Precommit

  /** A prevote certificate for `hash` at `round`. */
  datatype QuorumCert = QuorumCert(chunk: nat, round: nat, hash: Hash, signers: set<nat>)

  datatype VoteData = VoteData(chunk: nat, round: nat, hash: Hash, phase: Phase)

  /** Signed readiness of `index` to enter `round`, with the highest value certificate it knows. */
  datatype Report = Report(chunk: nat, round: nat, index: nat, highest: Option<QuorumCert>)

  datatype Certificate = Certificate(chunk: nat, round: nat, reports: seq<Report>)

  datatype Proposal = Proposal(
    chunk: nat,
    hash: Hash,
    round: nat,
    index: nat,
    valid: Option<QuorumCert>,
    certificate: Option<Certificate>)

  /** The two message kinds that have their own signing reservations. */
  datatype MessageKind = ProposalKind | ReportKind

  datatype Message = ProposalMessage(proposal: Proposal) | ReportMessage(report: Report)

  /** Valid-value order: a later round wins, then the larger hash. */
  predicate RankBelow(a: QuorumCert, b: QuorumCert) {
    a.round < b.round || (a.round == b.round && a.hash < b.hash)
  }

  // ----- shared facts -----

  /** What every step keeps holds from any state of a run to every later one. */
  lemma {:induction false} AlongRun<S(!new), L(!new)>(
    ok: S -> bool, step: (S, L, S) -> bool, states: seq<S>, labels: seq<L>, m: nat, n: nat)
    requires |states| == |labels| + 1 && m <= n < |states| && ok(states[m])
    requires forall i {:trigger labels[i]} :: 0 <= i < |labels| ==> step(states[i], labels[i], states[i + 1])
    requires forall s, l, t :: ok(s) && step(s, l, t) ==> ok(t)
    ensures ok(states[n])
    decreases n
  {
    if m < n {
      AlongRun(ok, step, states, labels, m, n - 1);
      assert step(states[n - 1], labels[n - 1], states[n]);
    }
  }

  lemma MulMonotone(a: int, b: int, n: nat)
    requires a <= b
    ensures a * n <= b * n
  {
  }
}
