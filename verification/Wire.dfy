/** The round-protocol messages on the wire: nil votes, round reports, certificates and proposals. */
module Wire {
  import opened Types
  import opened Codec

  // ----- values as they are transported -----

  /** Signer bitmap: `bits` meaningful bits, least significant first, in the fewest bytes. */
  datatype BitVec = BitVec(bits: nat, bytes: seq<byte>)

  datatype WireVote = WireVote(chunk: nat, round: nat, hash: seq<byte>, phase: Phase)

  datatype WireQuorum = WireQuorum(data: WireVote, signers: BitVec, signature: seq<byte>)

  datatype WireClaim = WireClaim(
    voteSignature: seq<byte>, index: nat, vote: WireVote, proofs: seq<seq<byte>>, unlock: Option<WireQuorum>,
      signature: seq<byte>)

  datatype WireValue = WireValue(signers: BitVec, data: WireVote, signature: seq<byte>, claims: seq<WireClaim>)

  datatype WireNilData = WireNilData(chunk: nat, round: nat, phase: Phase)

  datatype WireNilClaim = WireNilClaim(index: nat, vote: WireNilData, voteSignature: seq<byte>, signature: seq<byte>)

  datatype WireNil = WireNil(data: WireNilData, signers: BitVec, signature: seq<byte>, claims: seq<WireNilClaim>)

  datatype WireReport = WireReport(chunk: nat, round: nat, index: nat, highest: Option<WireQuorum>,
    signature: seq<byte>)

  datatype WireCertificate = WireCertificate(chunk: nat, round: nat, reports: seq<WireReport>)

  /** Ten 32-byte commitments: state roots, block hashes, proof roots, validator-set roots and data root, in wire
      order. */
  datatype WireChunk = WireChunk(
    id: nat, startHeight: nat, endHeight: nat, startState: seq<byte>, endState: seq<byte>, startBlock: seq<byte>,
    endBlock: seq<byte>, blocks: seq<byte>, proofs: seq<byte>, vrf: seq<byte>, activeSet: seq<byte>, nextSet: seq<byte>,
    availability: seq<byte>)

  datatype WireProposal = WireProposal(
    chunk: WireChunk, round: nat, index: nat, valid: Option<WireQuorum>, certificate: Option<WireCertificate>,
      signature: seq<byte>)

  // ----- bitmaps -----

  function CeilDiv8(n: nat): nat {
    (n + 7) / 8
  }

  function Pow2(n: nat): nat {
    if n == 0 then 1 else 2 * Pow2(n - 1)
  }

  /** The unused high bits of the last byte are zero. */
  predicate PaddingClear(v: BitVec) {
    v.bits % 8 != 0 && v.bytes != [] ==> v.bytes[|v.bytes| - 1] < Pow2(v.bits % 8)
  }

  predicate BitmapOk(v: BitVec) {
    v.bits <= MAX_BFT_SIGNERS && |v.bytes| == CeilDiv8(v.bits) && PaddingClear(v)
  }

  /** The two 32-bit lengths before the bitmap's bytes. */
  function Lengths(): Codec<(nat, nat)> {
    Pair(Uint(4), Uint(4))
  }

  function EncodeBitmap(lengths: Codec<(nat, nat)>, v: BitVec): seq<byte> {
    lengths.encode((v.bits, |v.bytes|)) + v.bytes
  }

  /** `read_bitmap` */
  function DecodeBitmap(lengths: Codec<(nat, nat)>, b: seq<byte>): Option<(BitVec, seq<byte>)> {
    match lengths.decode(b)
    case None => None
    case Some(head) =>
      var bits, count := head.0.0, head.0.1;
      if bits > MAX_BFT_SIGNERS || count != CeilDiv8(bits) || |head.1| < count then None
      else
        var v := BitVec(bits, head.1[..count]);
        if PaddingClear(v) then Some((v, head.1[count..])) else None
  }

  function Bitmap(): Codec<BitVec> {
    Codec(
      (v: BitVec) => BitmapOk(v), (v: BitVec) => EncodeBitmap(Lengths(), v),
      (b: seq<byte>) => DecodeBitmap(Lengths(), b))
  }

  lemma FourBytes()
    ensures Pow256(4) == 0x1_0000_0000
  {
    assert Pow256(1) == 256 && Pow256(2) == 65_536 && Pow256(3) == 16_777_216;
  }

  lemma LengthsLawful()
    ensures Lawful(Lengths())
    ensures forall v :: BitmapOk(v) ==> Lengths().ok((v.bits, |v.bytes|))
  {
    FourBytes();
    UintLawful(4);
    PairLawful(Uint(4), Uint(4));
  }

  lemma BitmapInverse(lengths: Codec<(nat, nat)>, v: BitVec, rest: seq<byte>)
    requires Lawful(lengths) && BitmapOk(v) && lengths.ok((v.bits, |v.bytes|))
    ensures DecodeBitmap(lengths, EncodeBitmap(lengths, v) + rest) == Some((v, rest))
  {
    var tail := v.bytes + rest;
    assert EncodeBitmap(lengths, v) + rest == lengths.encode((v.bits, |v.bytes|)) + tail;
    assert tail[..|v.bytes|] == v.bytes && tail[|v.bytes|..] == rest;
  }

  lemma BitmapAccepts(lengths: Codec<(nat, nat)>, b: seq<byte>)
    requires Lawful(lengths) && DecodeBitmap(lengths, b).Some?
    ensures var out := DecodeBitmap(lengths, b).value; BitmapOk(out.0) && b == EncodeBitmap(lengths, out.0) + out.1
  {
    var head := lengths.decode(b).value;
    var out := DecodeBitmap(lengths, b).value;
    assert Accepts(lengths, b, head.0, head.1);
    assert head.1 == out.0.bytes + out.1;
    assert head.0 == (out.0.bits, |out.0.bytes|);
    assert lengths.encode(head.0) + (out.0.bytes + out.1) == EncodeBitmap(lengths, out.0) + out.1;
  }

  lemma BitmapLawful()
    ensures Lawful(Bitmap())
  {
    var c := Bitmap();
    LengthsLawful();
    forall v, rest | c.ok(v)
      ensures c.decode(c.encode(v) + rest) == Some((v, rest))
    {
      BitmapInverse(Lengths(), v, rest);
    }
    forall b | c.decode(b).Some?
      ensures Accepts(c, b, c.decode(b).value.0, c.decode(b).value.1)
    {
      BitmapAccepts(Lengths(), b);
    }
  }

  // ----- messages -----

  function PhaseCodec(): Codec<Phase> {
    Codec(
      (p: Phase) => true,
      (p: Phase) => if p == Prevote then [0] else [1],
      (b: seq<byte>) =>
        if b == [] || b[0] > 1 then None else Some((if b[0] == 0 then Prevote else Precommit, b[1..])))
  }

  lemma PhaseLawful()
    ensures Lawful(PhaseCodec())
  {
    var c := PhaseCodec();
    forall p, rest | c.ok(p)
      ensures c.decode(c.encode(p) + rest) == Some((p, rest))
    {
      assert (c.encode(p) + rest)[1..] == rest;
    }
    forall b | c.decode(b).Some?
      ensures Accepts(c, b, c.decode(b).value.0, c.decode(b).value.1)
    {
      assert b == [b[0]] + b[1..];
    }
  }

  type VoteFields = ((nat, nat), (seq<byte>, Phase))

  function VoteLayout(): Codec<VoteFields> {
    Pair(Pair(Uint(8), Uint(4)), Pair(Fixed(32), PhaseCodec()))
  }

  function VoteOf(t: VoteFields): WireVote {
    WireVote(t.0.0, t.0.1, t.1.0, t.1.1)
  }

  function VoteFieldsOf(v: WireVote): VoteFields {
    ((v.chunk, v.round), (v.hash, v.phase))
  }

  function VoteCodec(): Codec<WireVote> {
    Via(VoteLayout(), VoteOf, VoteFieldsOf)
  }

  lemma VoteLawful()
    ensures Lawful(VoteCodec())
  {
    UintLawful(8);
    UintLawful(4);
    FixedLawful(32);
    PhaseLawful();
    PairLawful(Uint(8), Uint(4));
    PairLawful(Fixed(32), PhaseCodec());
    PairLawful(Pair(Uint(8), Uint(4)), Pair(Fixed(32), PhaseCodec()));
    ViaLawful(VoteLayout(), VoteOf, VoteFieldsOf);
  }

  type QuorumFields = (WireVote, (BitVec, seq<byte>))

  function QuorumLayout(): Codec<QuorumFields> {
    Pair(VoteCodec(), Pair(Bitmap(), Fixed(96)))
  }

  function QuorumOf(t: QuorumFields): WireQuorum {
    WireQuorum(t.0, t.1.0, t.1.1)
  }

  function QuorumFieldsOf(q: WireQuorum): QuorumFields {
    (q.data, (q.signers, q.signature))
  }

  function QuorumCodec(): Codec<WireQuorum> {
    Via(QuorumLayout(), QuorumOf, QuorumFieldsOf)
  }

  lemma QuorumLawful()
    ensures Lawful(QuorumCodec())
  {
    VoteLawful();
    BitmapLawful();
    FixedLawful(96);
    PairLawful(Bitmap(), Fixed(96));
    PairLawful(VoteCodec(), Pair(Bitmap(), Fixed(96)));
    ViaLawful(QuorumLayout(), QuorumOf, QuorumFieldsOf);
  }

  type ClaimFields = ((seq<byte>, (nat, WireVote)), (seq<seq<byte>>, (Option<WireQuorum>, seq<byte>)))

  function ClaimLayout(): Codec<ClaimFields> {
    Pair(
      Pair(Fixed(96), Pair(Uint(4), VoteCodec())),
      Pair(Vector(Fixed(32), MAX_BFT_PROOF_HASHES), Pair(Optional(QuorumCodec()), Fixed(96))))
  }

  function ClaimOf(t: ClaimFields): WireClaim {
    WireClaim(t.0.0, t.0.1.0, t.0.1.1, t.1.0, t.1.1.0, t.1.1.1)
  }

  function ClaimFieldsOf(c: WireClaim): ClaimFields {
    ((c.voteSignature, (c.index, c.vote)), (c.proofs, (c.unlock, c.signature)))
  }

  function ClaimCodec(): Codec<WireClaim> {
    Via(ClaimLayout(), ClaimOf, ClaimFieldsOf)
  }

  lemma ClaimLawful()
    ensures Lawful(ClaimCodec())
  {
    FixedLawful(96);
    FixedLawful(32);
    UintLawful(4);
    VoteLawful();
    QuorumLawful();
    VectorLawful(Fixed(32), MAX_BFT_PROOF_HASHES);
    OptionalLawful(QuorumCodec());
    PairLawful(Uint(4), VoteCodec());
    PairLawful(Fixed(96), Pair(Uint(4), VoteCodec()));
    PairLawful(Optional(QuorumCodec()), Fixed(96));
    PairLawful(Vector(Fixed(32), MAX_BFT_PROOF_HASHES), Pair(Optional(QuorumCodec()), Fixed(96)));
    PairLawful(
      Pair(Fixed(96), Pair(Uint(4), VoteCodec())),
      Pair(Vector(Fixed(32), MAX_BFT_PROOF_HASHES), Pair(Optional(QuorumCodec()), Fixed(96))));
    ViaLawful(ClaimLayout(), ClaimOf, ClaimFieldsOf);
  }

  type ValueFields = ((BitVec, WireVote), (seq<byte>, seq<WireClaim>))

  function ValueLayout(): Codec<ValueFields> {
    Pair(Pair(Bitmap(), VoteCodec()), Pair(Fixed(96), Vector(ClaimCodec(), MAX_BFT_SIGNERS)))
  }

  function ValueOf(t: ValueFields): WireValue {
    WireValue(t.0.0, t.0.1, t.1.0, t.1.1)
  }

  function ValueFieldsOf(v: WireValue): ValueFields {
    ((v.signers, v.data), (v.signature, v.claims))
  }

  /** `read_value` */
  function ValueCodec(): Codec<WireValue> {
    Via(ValueLayout(), ValueOf, ValueFieldsOf)
  }

  lemma ValueLawful()
    ensures Lawful(ValueCodec())
  {
    BitmapLawful();
    VoteLawful();
    FixedLawful(96);
    ClaimLawful();
    VectorLawful(ClaimCodec(), MAX_BFT_SIGNERS);
    PairLawful(Bitmap(), VoteCodec());
    PairLawful(Fixed(96), Vector(ClaimCodec(), MAX_BFT_SIGNERS));
    PairLawful(Pair(Bitmap(), VoteCodec()), Pair(Fixed(96), Vector(ClaimCodec(), MAX_BFT_SIGNERS)));
    ViaLawful(ValueLayout(), ValueOf, ValueFieldsOf);
  }

  type NilDataFields = (nat, (nat, Phase))

  function NilDataLayout(): Codec<NilDataFields> {
    Pair(Uint(8), Pair(Uint(4), PhaseCodec()))
  }

  function NilDataOf(t: NilDataFields): WireNilData {
    WireNilData(t.0, t.1.0, t.1.1)
  }

  function NilDataFieldsOf(d: WireNilData): NilDataFields {
    (d.chunk, (d.round, d.phase))
  }

  function NilDataCodec(): Codec<WireNilData> {
    Via(NilDataLayout(), NilDataOf, NilDataFieldsOf)
  }

  lemma NilDataLawful()
    ensures Lawful(NilDataCodec())
  {
    UintLawful(8);
    UintLawful(4);
    PhaseLawful();
    PairLawful(Uint(4), PhaseCodec());
    PairLawful(Uint(8), Pair(Uint(4), PhaseCodec()));
    ViaLawful(NilDataLayout(), NilDataOf, NilDataFieldsOf);
  }

  type NilClaimFields = ((nat, WireNilData), (seq<byte>, seq<byte>))

  function NilClaimLayout(): Codec<NilClaimFields> {
    Pair(Pair(Uint(4), NilDataCodec()), Pair(Fixed(96), Fixed(96)))
  }

  function NilClaimOf(t: NilClaimFields): WireNilClaim {
    WireNilClaim(t.0.0, t.0.1, t.1.0, t.1.1)
  }

  function NilClaimFieldsOf(c: WireNilClaim): NilClaimFields {
    ((c.index, c.vote), (c.voteSignature, c.signature))
  }

  function NilClaimCodec(): Codec<WireNilClaim> {
    Via(NilClaimLayout(), NilClaimOf, NilClaimFieldsOf)
  }

  lemma NilClaimLawful()
    ensures Lawful(NilClaimCodec())
  {
    UintLawful(4);
    NilDataLawful();
    FixedLawful(96);
    PairLawful(Uint(4), NilDataCodec());
    PairLawful(Fixed(96), Fixed(96));
    PairLawful(Pair(Uint(4), NilDataCodec()), Pair(Fixed(96), Fixed(96)));
    ViaLawful(NilClaimLayout(), NilClaimOf, NilClaimFieldsOf);
  }

  type NilFields = ((WireNilData, BitVec), (seq<byte>, seq<WireNilClaim>))

  function NilLayout(): Codec<NilFields> {
    Pair(Pair(NilDataCodec(), Bitmap()), Pair(Fixed(96), Vector(NilClaimCodec(), MAX_BFT_SIGNERS)))
  }

  function NilOf(t: NilFields): WireNil {
    WireNil(t.0.0, t.0.1, t.1.0, t.1.1)
  }

  function NilFieldsOf(v: WireNil): NilFields {
    ((v.data, v.signers), (v.signature, v.claims))
  }

  /** `read_nil` */
  function NilCodec(): Codec<WireNil> {
    Via(NilLayout(), NilOf, NilFieldsOf)
  }

  lemma NilLawful()
    ensures Lawful(NilCodec())
  {
    NilDataLawful();
    BitmapLawful();
    FixedLawful(96);
    NilClaimLawful();
    VectorLawful(NilClaimCodec(), MAX_BFT_SIGNERS);
    PairLawful(NilDataCodec(), Bitmap());
    PairLawful(Fixed(96), Vector(NilClaimCodec(), MAX_BFT_SIGNERS));
    PairLawful(Pair(NilDataCodec(), Bitmap()), Pair(Fixed(96), Vector(NilClaimCodec(), MAX_BFT_SIGNERS)));
    ViaLawful(NilLayout(), NilOf, NilFieldsOf);
  }

  type ReportFields = ((nat, (nat, nat)), (Option<WireQuorum>, seq<byte>))

  function ReportLayout(): Codec<ReportFields> {
    Pair(Pair(Uint(8), Pair(Uint(4), Uint(4))), Pair(Optional(QuorumCodec()), Fixed(96)))
  }

  function ReportOf(t: ReportFields): WireReport {
    WireReport(t.0.0, t.0.1.0, t.0.1.1, t.1.0, t.1.1)
  }

  function ReportFieldsOf(m: WireReport): ReportFields {
    ((m.chunk, (m.round, m.index)), (m.highest, m.signature))
  }

  /** `read_round_change` */
  function ReportCodec(): Codec<WireReport> {
    Via(ReportLayout(), ReportOf, ReportFieldsOf)
  }

  lemma ReportLawful()
    ensures Lawful(ReportCodec())
  {
    UintLawful(8);
    UintLawful(4);
    QuorumLawful();
    OptionalLawful(QuorumCodec());
    FixedLawful(96);
    PairLawful(Uint(4), Uint(4));
    PairLawful(Uint(8), Pair(Uint(4), Uint(4)));
    PairLawful(Optional(QuorumCodec()), Fixed(96));
    PairLawful(Pair(Uint(8), Pair(Uint(4), Uint(4))), Pair(Optional(QuorumCodec()), Fixed(96)));
    ViaLawful(ReportLayout(), ReportOf, ReportFieldsOf);
  }

  type CertificateFields = (nat, (nat, seq<WireReport>))

  function CertificateLayout(): Codec<CertificateFields> {
    Pair(Uint(8), Pair(Uint(4), Vector(ReportCodec(), MAX_BFT_SIGNERS)))
  }

  function CertificateOf(t: CertificateFields): WireCertificate {
    WireCertificate(t.0, t.1.0, t.1.1)
  }

  function CertificateFieldsOf(c: WireCertificate): CertificateFields {
    (c.chunk, (c.round, c.reports))
  }

  /** `read_round_change_certificate` */
  function CertificateCodec(): Codec<WireCertificate> {
    Via(CertificateLayout(), CertificateOf, CertificateFieldsOf)
  }

  lemma CertificateLawful()
    ensures Lawful(CertificateCodec())
  {
    UintLawful(8);
    UintLawful(4);
    ReportLawful();
    VectorLawful(ReportCodec(), MAX_BFT_SIGNERS);
    PairLawful(Uint(4), Vector(ReportCodec(), MAX_BFT_SIGNERS));
    PairLawful(Uint(8), Pair(Uint(4), Vector(ReportCodec(), MAX_BFT_SIGNERS)));
    ViaLawful(CertificateLayout(), CertificateOf, CertificateFieldsOf);
  }

  type HashPair = (seq<byte>, seq<byte>)

  function TwoHashes(): Codec<HashPair> {
    Pair(Fixed(32), Fixed(32))
  }

  function TenHashes(): Codec<(HashPair, (HashPair, (HashPair, (HashPair, HashPair))))> {
    Pair(TwoHashes(), Pair(TwoHashes(), Pair(TwoHashes(), Pair(TwoHashes(), TwoHashes()))))
  }

  lemma TenHashesLawful()
    ensures Lawful(TenHashes())
  {
    FixedLawful(32);
    PairLawful(Fixed(32), Fixed(32));
    PairLawful(TwoHashes(), TwoHashes());
    PairLawful(TwoHashes(), Pair(TwoHashes(), TwoHashes()));
    PairLawful(TwoHashes(), Pair(TwoHashes(), Pair(TwoHashes(), TwoHashes())));
    PairLawful(TwoHashes(), Pair(TwoHashes(), Pair(TwoHashes(), Pair(TwoHashes(), TwoHashes()))));
  }

  type ChunkFields = ((nat, (nat, nat)), (HashPair, (HashPair, (HashPair, (HashPair, HashPair)))))

  function ChunkLayout(): Codec<ChunkFields> {
    Pair(Pair(Uint(8), Pair(Uint(8), Uint(8))), TenHashes())
  }

  function ChunkOf(t: ChunkFields): WireChunk {
    var h := t.1;
    WireChunk(
      t.0.0, t.0.1.0, t.0.1.1, h.0.0, h.0.1, h.1.0.0, h.1.0.1, h.1.1.0.0, h.1.1.0.1, h.1.1.1.0.0, h.1.1.1.0.1,
      h.1.1.1.1.0, h.1.1.1.1.1)
  }

  function ChunkFieldsOf(c: WireChunk): ChunkFields {
    ((c.id, (c.startHeight, c.endHeight)),
     ((c.startState, c.endState),
      ((c.startBlock, c.endBlock), ((c.blocks, c.proofs), ((c.vrf, c.activeSet), (c.nextSet, c.availability))))))
  }

  function ChunkCodec(): Codec<WireChunk> {
    Via(ChunkLayout(), ChunkOf, ChunkFieldsOf)
  }

  lemma ChunkLawful()
    ensures Lawful(ChunkCodec())
  {
    UintLawful(8);
    TenHashesLawful();
    PairLawful(Uint(8), Uint(8));
    PairLawful(Uint(8), Pair(Uint(8), Uint(8)));
    PairLawful(Pair(Uint(8), Pair(Uint(8), Uint(8))), TenHashes());
    ViaLawful(ChunkLayout(), ChunkOf, ChunkFieldsOf);
  }

  type ProposalFields = ((WireChunk, (nat, nat)), ((Option<WireQuorum>, Option<WireCertificate>), seq<byte>))

  function ProposalLayout(): Codec<ProposalFields> {
    Pair(
      Pair(ChunkCodec(), Pair(Uint(4), Uint(4))),
      Pair(Pair(Optional(QuorumCodec()), Optional(CertificateCodec())), Fixed(96)))
  }

  function ProposalOf(t: ProposalFields): WireProposal {
    WireProposal(t.0.0, t.0.1.0, t.0.1.1, t.1.0.0, t.1.0.1, t.1.1)
  }

  function ProposalFieldsOf(p: WireProposal): ProposalFields {
    ((p.chunk, (p.round, p.index)), ((p.valid, p.certificate), p.signature))
  }

  /** `read_proposal` */
  function ProposalCodec(): Codec<WireProposal> {
    Via(ProposalLayout(), ProposalOf, ProposalFieldsOf)
  }

  lemma ProposalLayoutLawful()
    ensures Lawful(ProposalLayout())
  {
    ChunkLawful();
    UintLawful(4);
    QuorumLawful();
    CertificateLawful();
    OptionalLawful(QuorumCodec());
    OptionalLawful(CertificateCodec());
    FixedLawful(96);
    PairLawful(Uint(4), Uint(4));
    PairLawful(ChunkCodec(), Pair(Uint(4), Uint(4)));
    PairLawful(Optional(QuorumCodec()), Optional(CertificateCodec()));
    PairLawful(Pair(Optional(QuorumCodec()), Optional(CertificateCodec())), Fixed(96));
    PairLawful(
      Pair(ChunkCodec(), Pair(Uint(4), Uint(4))),
      Pair(Pair(Optional(QuorumCodec()), Optional(CertificateCodec())), Fixed(96)));
  }

  lemma ProposalLawful()
    ensures Lawful(ProposalCodec())
  {
    ProposalLayoutLawful();
    ViaLawful(ProposalLayout(), ProposalOf, ProposalFieldsOf);
  }

  // ----- decoding from a reader -----

  class Reader {
    var data: seq<byte>

    constructor (bytes: seq<byte>)
      ensures data == bytes
    {
      data := bytes;
    }

    /** `deserialize_reader` of one value; a failed read leaves the position undefined. */
    method Read<T>(c: Codec<T>) returns (value: Option<T>)
      modifies this
      ensures value.Some? <==> c.decode(old(data)).Some?
      ensures value.Some? ==> c.decode(old(data)) == Some((value.value, data))
    {
      match c.decode(data) {
        case None => value := None;
        case Some(out) =>
          value := Some(out.0);
          data := out.1;
      }
    }

    /** The byte loop of `read_bitmap`. */
    method ReadBytes(count: nat) returns (bytes: Option<seq<byte>>)
      modifies this
      ensures bytes.Some? <==> |old(data)| >= count
      ensures bytes.Some? ==> bytes.value == old(data)[..count] && data == old(data)[count..]
    {
      var read: seq<byte> := [];
      for i := 0 to count
        invariant |read| == i && old(data) == read + data
      {
        if data == [] {
          return None;
        }
        read := read + [data[0]];
        data := data[1..];
      }
      return Some(read);
    }

    /** `read_bitmap`: both lengths are checked before the bytes are read, and padding bits must be zero. */
    method ReadBitmap(lengths: Codec<(nat, nat)>) returns (bitmap: Option<BitVec>)
      modifies this
      ensures bitmap.Some? <==> DecodeBitmap(lengths, old(data)).Some?
      ensures bitmap.Some? ==> DecodeBitmap(lengths, old(data)) == Some((bitmap.value, data)) && BitmapOk(bitmap.value)
    {
      var sizes := Read(lengths);
      if sizes.None? || sizes.value.0 > MAX_BFT_SIGNERS || sizes.value.1 != CeilDiv8(sizes.value.0) {
        return None;
      }
      var bytes := ReadBytes(sizes.value.1);
      if bytes.None? || !PaddingClear(BitVec(sizes.value.0, bytes.value)) {
        return None;
      }
      return Some(BitVec(sizes.value.0, bytes.value));
    }

    /** The element loop of `read_bounded_vec`. */
    method ReadElements<T>(c: Codec<T>, n: nat) returns (values: Option<seq<T>>)
      modifies this
      ensures values.Some? <==> DecodeAll(c, n, old(data)).Some?
      ensures values.Some? ==> DecodeAll(c, n, old(data)) == Some((values.value, data)) && |values.value| == n
    {
      var read: seq<T> := [];
      PrependNothing(DecodeAll(c, n, data));
      for i := 0 to n
        invariant |read| == i
        invariant DecodeAll(c, n, old(data)) == Prepended(read, DecodeAll(c, n - i, data))
      {
        ghost var before := data;
        var value := Read(c);
        if value.None? {
          return None;
        }
        PrependStep(c, read, n - i, before, value.value, data);
        read := read + [value.value];
      }
      assert read + [] == read;
      return Some(read);
    }

    /** `read_bounded_vec`: the count is checked before anything is read, so at most `max` elements are collected. */
    method ReadBoundedVec<T>(c: Codec<T>, max: nat) returns (values: Option<seq<T>>)
      modifies this
      ensures values.Some? <==> DecodeVector(Uint(4), c, max, old(data)).Some?
      ensures values.Some? ==>
        DecodeVector(Uint(4), c, max, old(data)) == Some((values.value, data)) && |values.value| <= max
    {
      var count := Read(Uint(4));
      if count.None? || count.value > max {
        return None;
      }
      values := ReadElements(c, count.value);
    }
  }

  function Prepended<T>(read: seq<T>, more: Option<(seq<T>, seq<byte>)>): Option<(seq<T>, seq<byte>)> {
    if more.None? then None else Some((read + more.value.0, more.value.1))
  }

  lemma PrependNothing<T>(more: Option<(seq<T>, seq<byte>)>)
    ensures Prepended([], more) == more
  {
    if more.Some? {
      assert [] + more.value.0 == more.value.0;
    }
  }

  lemma PrependStep<T>(c: Codec<T>, read: seq<T>, n: nat, before: seq<byte>, value: T, after: seq<byte>)
    requires n > 0 && c.decode(before) == Some((value, after))
    ensures Prepended(read, DecodeAll(c, n, before)) == Prepended(read + [value], DecodeAll(c, n - 1, after))
  {
    var others := DecodeAll(c, n - 1, after);
    if others.Some? {
      assert read + ([value] + others.value.0) == read + [value] + others.value.0;
    }
  }
}
