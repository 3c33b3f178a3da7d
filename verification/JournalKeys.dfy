/** Database keys of the signing journal: every record has a key of its own. */
module JournalKeys {
  import opened Types
  import opened Codec

  const VOTE_WATERMARK_TAG: byte := 0
  const PROPOSER_WATERMARK_TAG: byte := 1
  const VOTE_INTENT_TAG: byte := 2
  const NIL_INTENT_TAG: byte := 3
  const PROPOSAL_MESSAGE_TAG: byte := 4
  const ROUND_CHANGE_MESSAGE_TAG: byte := 5
  const MESSAGE_WATERMARK_OFFSET: byte := 2

  datatype Record =
    | VoteMark(identity: seq<byte>, chunk: nat)
    | ProposerMark(identity: seq<byte>)
    | Intent(identity: seq<byte>, chunk: nat, round: nat, phase: Phase)
    | Nil(identity: seq<byte>, chunk: nat, round: nat, phase: Phase)
    | RoundMessage(kind: MessageKind, identity: seq<byte>, chunk: nat, round: nat)
    | MessageMark(kind: MessageKind, identity: seq<byte>, chunk: nat)

  function BigEndian(x: nat, n: nat): (b: seq<byte>)
    ensures |b| == n
  {
    if n == 0 then [] else BigEndian(x / 256, n - 1) + [x % 256]
  }

  function KindTag(kind: MessageKind): byte {
    if kind == ProposalKind then PROPOSAL_MESSAGE_TAG else ROUND_CHANGE_MESSAGE_TAG
  }

  function PhaseByte(phase: Phase): byte {
    if phase == Precommit then 1 else 0
  }

  function TagOf(r: Record): byte {
    match r
    case VoteMark(_, _) => VOTE_WATERMARK_TAG
    case ProposerMark(_) => PROPOSER_WATERMARK_TAG
    case Intent(_, _, _, _) => VOTE_INTENT_TAG
    case Nil(_, _, _, _) => NIL_INTENT_TAG
    case RoundMessage(kind, _, _, _) => KindTag(kind)
    case MessageMark(kind, _, _) => KindTag(kind) + MESSAGE_WATERMARK_OFFSET
  }

  function ChunkPart(r: Record): seq<byte> {
    if r.ProposerMark? then [] else BigEndian(r.chunk, 8)
  }

  function RoundPart(r: Record): seq<byte> {
    match r
    case Intent(_, _, round, phase) => BigEndian(round, 4) + [PhaseByte(phase)]
    case Nil(_, _, round, phase) => BigEndian(round, 4) + [PhaseByte(phase)]
    case RoundMessage(_, _, _, round) => BigEndian(round, 4)
    case _ => []
  }

  /** `vote_key`, `proposal_key`, `intent_key`, `nil_key`, `round_message_key` and `message_watermark_key`. */
  function Key(r: Record): seq<byte> {
    [TagOf(r)] + r.identity + ChunkPart(r) + RoundPart(r)
  }

  /** Identities are 48-byte public keys, chunk numbers have 64 bits and rounds 32. */
  predicate InRange(r: Record) {
    && |r.identity| == 48
    && (!r.ProposerMark? ==> r.chunk < Pow256(8))
    && (r.Intent? || r.Nil? || r.RoundMessage? ==> r.round < Pow256(4))
  }

  lemma {:induction false} BigEndianInjective(x: nat, y: nat, n: nat)
    requires x < Pow256(n) && y < Pow256(n) && BigEndian(x, n) == BigEndian(y, n)
    ensures x == y
  {
    if n > 0 {
      var a, b := BigEndian(x, n), BigEndian(y, n);
      assert a[..n - 1] == BigEndian(x / 256, n - 1) && b[..n - 1] == BigEndian(y / 256, n - 1);
      assert a[n - 1] == x % 256 && b[n - 1] == y % 256;
      SplitByte(x, Pow256(n - 1));
      SplitByte(y, Pow256(n - 1));
      BigEndianInjective(x / 256, y / 256, n - 1);
    }
  }

  lemma Cut(tag: byte, id: seq<byte>, c: seq<byte>, d: seq<byte>)
    ensures var k, m, n := [tag] + id + c + d, 1 + |id|, 1 + |id| + |c|;
      |k| == n + |d| && k[0] == tag && k[1..m] == id && k[m..n] == c && k[n..] == d
  {
  }

  /** The parts of a key can be read off by position. */
  lemma KeyParts(r: Record)
    requires |r.identity| == 48
    ensures |Key(r)| == 49 + |ChunkPart(r)| + |RoundPart(r)|
    ensures Key(r)[0] == TagOf(r) && Key(r)[1..49] == r.identity
    ensures !r.ProposerMark? ==> Key(r)[49..57] == ChunkPart(r) && Key(r)[57..] == RoundPart(r)
  {
    Cut(TagOf(r), r.identity, ChunkPart(r), RoundPart(r));
  }

  lemma RoundPartInjective(a: Record, b: Record)
    requires InRange(a) && InRange(b) && TagOf(a) == TagOf(b) && RoundPart(a) == RoundPart(b)
    requires a.Intent? || a.Nil? || a.RoundMessage?
    ensures a.round == b.round && (a.Intent? || a.Nil? ==> a.phase == b.phase)
  {
    var x, y := RoundPart(a), RoundPart(b);
    assert x[..4] == BigEndian(a.round, 4) && y[..4] == BigEndian(b.round, 4);
    BigEndianInjective(a.round, b.round, 4);
    if !a.RoundMessage? {
      assert x[4] == PhaseByte(a.phase) && y[4] == PhaseByte(b.phase);
    }
  }

  /** Different records never share a key, whatever their kinds, identities, chunks, rounds and phases. */
  lemma KeysAreDistinct(a: Record, b: Record)
    requires InRange(a) && InRange(b) && Key(a) == Key(b)
    ensures a == b
  {
    KeyParts(a);
    KeyParts(b);
    if !a.ProposerMark? {
      BigEndianInjective(a.chunk, b.chunk, 8);
      if a.Intent? || a.Nil? || a.RoundMessage? {
        RoundPartInjective(a, b);
      }
    }
  }
}
