/** The wire format of an NFSv4.1 call: XDR fields (RFC 4506), the argument grammars of the operations
    the client uses (RFC 5661, section 18), the COMPOUND (section 16.2) and the RPC call around it
    (RFC 5531), with an encoder and an independent decoder. */
module Wire {
  import opened Bytes

  // ---------- XDR fields ----------

  datatype Field =
    | U32(w: u32)
    | U64(d: u64)
    | Opaque(data: seq<u8>)  // variable-length opaque or string
    | Fixed(raw: seq<u8>)    // fixed-length opaque

  datatype Kind = KU32 | KU64 | KOpaque | KFixed(n: nat) | KBad

  datatype Parsed<T> = Parsed(value: T, rest: seq<u8>) | Malformed {
    predicate IsFailure() { Malformed? }
    function PropagateFailure<U>(): Parsed<U> requires Malformed? { Malformed }
    function Extract(): (T, seq<u8>) requires Parsed? { (value, rest) }
  }

  function KindOf(f: Field): Kind {
    match f
    case U32(_) => KU32
    case U64(_) => KU64
    case Opaque(_) => KOpaque
    case Fixed(raw) => KFixed(|raw|)
  }

  predicate FieldOk(f: Field) {
    match f
    case Opaque(data) => |data| < U32_SIZE
    case Fixed(raw) => raw != []
    case _ => true
  }

  function Encode(f: Field): (s: seq<u8>)
    requires FieldOk(f)
    ensures s != []
  {
    match f
    case U32(w) => Be32(w)
    case U64(d) => Be64(d)
    case Opaque(data) => Be32(|data|) + data + Zeros(Fill(|data|))
    case Fixed(raw) => raw + Zeros(Fill(|raw|))
  }

  // `n` bytes and the zeros that pad them.
  function TakePadded(n: nat, s: seq<u8>): Parsed<seq<u8>> {
    if |s| >= n + Fill(n) && s[n..n + Fill(n)] == Zeros(Fill(n)) then Parsed(s[..n], s[n + Fill(n)..]) else Malformed
  }

  function TakeU32(s: seq<u8>): Parsed<u32> {
    if |s| >= 4 then Parsed(FromBe32(s[..4]), s[4..]) else Malformed
  }

  function DecodeField(k: Kind, s: seq<u8>): (p: Parsed<Field>)
    ensures p.Parsed? ==> |p.rest| < |s|
  {
    match k
    case KU32 =>
      var (w, rest) :- TakeU32(s);
      Parsed(U32(w), rest)
    case KU64 =>
      if |s| >= 8 then Parsed(U64(FromBe64(s[..8])), s[8..]) else Malformed
    case KOpaque =>
      var (n, rest) :- TakeU32(s);
      var (data, rest) :- TakePadded(n, rest);
      Parsed(Opaque(data), rest)
    case KFixed(n) =>
      if n == 0 then Malformed
      else
        var (raw, rest) :- TakePadded(n, s);
        Parsed(Fixed(raw), rest)
    case KBad => Malformed
  }

  lemma TakeU32Encoded(w: u32, rest: seq<u8>)
    ensures TakeU32(Be32(w) + rest) == Parsed(w, rest)
  {
    Be32RoundTrip(w);
    assert (Be32(w) + rest)[..4] == Be32(w) && (Be32(w) + rest)[4..] == rest;
  }

  lemma TakePaddedEncoded(x: seq<u8>, rest: seq<u8>)
    ensures TakePadded(|x|, x + Zeros(Fill(|x|)) + rest) == Parsed(x, rest)
  {
    var s, n := x + Zeros(Fill(|x|)) + rest, |x|;
    assert s[..n] == x && s[n..n + Fill(n)] == Zeros(Fill(n)) && s[n + Fill(n)..] == rest;
  }

  lemma FieldRoundTrip(f: Field, rest: seq<u8>)
    requires FieldOk(f)
    ensures DecodeField(KindOf(f), Encode(f) + rest) == Parsed(f, rest)
  {
    hide Be32, FromBe32, TakePadded;
    match f
    case U32(w) => TakeU32Encoded(w, rest);
    case U64(d) =>
      Be64RoundTrip(d);
      assert (Be64(d) + rest)[..8] == Be64(d) && (Be64(d) + rest)[8..] == rest;
    case Opaque(data) =>
      var tail := data + Zeros(Fill(|data|)) + rest;
      assert Encode(f) + rest == Be32(|data|) + tail;
      TakeU32Encoded(|data|, tail);
      TakePaddedEncoded(data, rest);
    case Fixed(raw) => TakePaddedEncoded(raw, rest);
  }

  predicate FieldsOk(fs: seq<Field>) {
    forall i | 0 <= i < |fs| :: FieldOk(fs[i])
  }

  function EncodeFields(fs: seq<Field>): seq<u8>
    requires FieldsOk(fs)
  {
    if fs == [] then [] else EncodeFields(fs[..|fs| - 1]) + Encode(fs[|fs| - 1])
  }

  lemma EncodeSnoc(fs: seq<Field>, f: Field)
    requires FieldsOk(fs) && FieldOk(f)
    ensures EncodeFields(fs + [f]) == EncodeFields(fs) + Encode(f)
  {
    assert (fs + [f])[..|fs|] == fs;
  }

  lemma {:induction false} EncodeAppend(fs: seq<Field>, gs: seq<Field>)
    requires FieldsOk(fs) && FieldsOk(gs)
    ensures EncodeFields(fs + gs) == EncodeFields(fs) + EncodeFields(gs)
    decreases |gs|
  {
    hide Encode, FieldOk;
    if gs == [] {
      assert fs + gs == fs;
    } else {
      var front, g := gs[..|gs| - 1], gs[|gs| - 1];
      EncodeAppend(fs, front);
      assert fs + gs == (fs + front) + [g];
      EncodeSnoc(fs + front, g);
      assert EncodeFields(fs) + EncodeFields(front) + Encode(g) == EncodeFields(fs) + (EncodeFields(front) + Encode(g));
    }
  }

  lemma EncodeCons(f: Field, gs: seq<Field>)
    requires FieldOk(f) && FieldsOk(gs)
    ensures EncodeFields([f] + gs) == Encode(f) + EncodeFields(gs)
  {
    hide Encode, FieldOk;
    EncodeAppend([f], gs);
    EncodeSnoc([], f);
    assert [] + [f] == [f];
  }

  // ---------- Operations ----------

  datatype Stateid = Stateid(seqid: u32, other: seq<u8>)

  datatype Channel = Channel(headerPad: u32, maxRequest: u32, maxResponse: u32, maxCached: u32, maxOps: u32,
                             maxRequests: u32)

  datatype OpenHow = NoCreate | CreateUnchecked(mask0: u32, mask1: u32, attrs: seq<u8>)

  datatype Op =
    | Sequence(session: seq<u8>, seqid: u32, slot: u32, highestSlot: u32, cacheThis: u32)
    | PutFh(fh: seq<u8>)
    | PutRootFh
    | GetFh
    | Lookup(name: seq<u8>)
    | GetAttr(mask: u32)
    | Read(sid: Stateid, offset: u64, count: u32)
    | Write(sid: Stateid, offset: u64, stable: u32, data: seq<u8>)
    | Lock(kind: u32, reclaim: u32, offset: u64, length: u64,
           openSeqid: u32, sid: Stateid, lockSeqid: u32, client: seq<u8>, owner: seq<u8>)
    | LockU(kind: u32, lockSeqid: u32, sid: Stateid, offset: u64, length: u64)
    | Open(openSeqid: u32, access: u32, deny: u32, client: seq<u8>, owner: seq<u8>, how: OpenHow, name: seq<u8>)
    | Remove(name: seq<u8>)
    | ExchangeId(verifier: seq<u8>, ownerId: seq<u8>, flags: u32, domain: seq<u8>, product: seq<u8>, seconds: u64,
                 nanos: u32)
    | CreateSession(client: seq<u8>, createSeq: u32, flags: u32, fore: Channel, back: Channel, program: u32)
    | DestroySession(session: seq<u8>)
    | ReclaimComplete(oneFs: u32)

  // No file handle is longer.
  const FHSIZE: nat := 128

  const OP_GETATTR: u32 := 9
  const OP_GETFH: u32 := 10
  const OP_LOCK: u32 := 12
  const OP_LOCKU: u32 := 14
  const OP_LOOKUP: u32 := 15
  const OP_OPEN: u32 := 18
  const OP_PUTFH: u32 := 22
  const OP_PUTROOTFH: u32 := 24
  const OP_READ: u32 := 25
  const OP_REMOVE: u32 := 28
  const OP_WRITE: u32 := 38
  const OP_EXCHANGE_ID: u32 := 42
  const OP_CREATE_SESSION: u32 := 43
  const OP_DESTROY_SESSION: u32 := 44
  const OP_SEQUENCE: u32 := 53
  const OP_RECLAIM_COMPLETE: u32 := 58

  function Code(op: Op): u32 {
    match op
    case Sequence(_, _, _, _, _) => OP_SEQUENCE
    case PutFh(_) => OP_PUTFH
    case PutRootFh => OP_PUTROOTFH
    case GetFh => OP_GETFH
    case Lookup(_) => OP_LOOKUP
    case GetAttr(_) => OP_GETATTR
    case Read(_, _, _) => OP_READ
    case Write(_, _, _, _) => OP_WRITE
    case Lock(_, _, _, _, _, _, _, _, _) => OP_LOCK
    case LockU(_, _, _, _, _) => OP_LOCKU
    case Open(_, _, _, _, _, _, _) => OP_OPEN
    case Remove(_) => OP_REMOVE
    case ExchangeId(_, _, _, _, _, _, _) => OP_EXCHANGE_ID
    case CreateSession(_, _, _, _, _, _) => OP_CREATE_SESSION
    case DestroySession(_) => OP_DESTROY_SESSION
    case ReclaimComplete(_) => OP_RECLAIM_COMPLETE
  }

  function SidFields(s: Stateid): seq<Field> {
    [U32(s.seqid), Fixed(s.other)]
  }

  function ChannelFields(c: Channel): seq<Field> {
    [U32(c.headerPad), U32(c.maxRequest), U32(c.maxResponse), U32(c.maxCached), U32(c.maxOps), U32(c.maxRequests),
     U32(0)]
  }

  function HowFields(how: OpenHow): seq<Field> {
    match how
    case NoCreate => [U32(0)]
    case CreateUnchecked(m0, m1, attrs) => [U32(1), U32(0), U32(2), U32(m0), U32(m1), Opaque(attrs)]
  }

  /** The arguments of an operation, in the order of its RFC 5661 definition. */
  function Args(op: Op): seq<Field> {
    match op
    case Sequence(session, seqid, slot, highest, cache) =>
      [Fixed(session), U32(seqid), U32(slot), U32(highest), U32(cache)]
    case PutFh(fh) => [Opaque(fh)]
    case PutRootFh => []
    case GetFh => []
    case Lookup(name) => [Opaque(name)]
    case GetAttr(mask) => [U32(1), U32(mask)]
    case Read(sid, offset, count) => SidFields(sid) + [U64(offset), U32(count)]
    case Write(sid, offset, stable, data) => SidFields(sid) + [U64(offset), U32(stable), Opaque(data)]
    case Lock(kind, reclaim, offset, length, openSeqid, sid, lockSeqid, client, owner) =>
      [U32(kind), U32(reclaim), U64(offset), U64(length), U32(1), U32(openSeqid)]
      + SidFields(sid) + [U32(lockSeqid), Fixed(client), Opaque(owner)]
    case LockU(kind, lockSeqid, sid, offset, length) =>
      [U32(kind), U32(lockSeqid)] + SidFields(sid) + [U64(offset), U64(length)]
    case Open(openSeqid, access, deny, client, owner, how, name) =>
      [U32(openSeqid), U32(access), U32(deny), Fixed(client), Opaque(owner)]
      + HowFields(how)
      + [U32(0), Opaque(name)]
    case Remove(name) => [Opaque(name)]
    case ExchangeId(verifier, ownerId, flags, domain, product, seconds, nanos) =>
      [Fixed(verifier), Opaque(ownerId), U32(flags), U32(0), U32(1), Opaque(domain), Opaque(product), U64(seconds),
       U32(nanos)]
    case CreateSession(client, createSeq, flags, fore, back, program) =>
      [Fixed(client), U32(createSeq), U32(flags)] + ChannelFields(fore) + ChannelFields(back)
      + [U32(program), U32(1), U32(0)]
    case DestroySession(session) => [Fixed(session)]
    case ReclaimComplete(oneFs) => [U32(oneFs)]
  }

  predicate SidOk(s: Stateid) {
    |s.other| == 12
  }

  // Longer strings than this never occur: a request is smaller than 2^31 bytes.
  predicate Short(s: seq<u8>) {
    |s| < U32_SIZE
  }

  predicate OpOk(op: Op) {
    match op
    case Sequence(session, _, _, _, _) => |session| == 16
    case PutFh(fh) => Short(fh)
    case Lookup(name) => Short(name)
    case Read(sid, _, _) => SidOk(sid)
    case Write(sid, _, _, data) => SidOk(sid) && Short(data)
    case Lock(_, _, _, _, _, sid, _, client, owner) => SidOk(sid) && |client| == 8 && Short(owner)
    case LockU(_, _, sid, _, _) => SidOk(sid)
    case Open(_, _, _, client, owner, how, name) =>
      |client| == 8 && Short(owner) && Short(name) && (how.CreateUnchecked? ==> Short(how.attrs))
    case Remove(name) => Short(name)
    case ExchangeId(verifier, ownerId, _, domain, product, _, _) =>
      |verifier| == 8 && Short(ownerId) && Short(domain) && Short(product)
    case CreateSession(client, _, _, _, _, _) => |client| == 8
    case DestroySession(session) => |session| == 16
    case _ => true
  }

  // ---------- The grammar ----------

  const KCHANNEL: seq<Kind> := [KU32, KU32, KU32, KU32, KU32, KU32, KU32]

  // What follows once field i is known; nothing before that.
  function Then(acc: seq<Field>, i: nat, next: Field -> seq<Kind>): seq<Kind> {
    if i < |acc| then next(acc[i]) else []
  }

  // A union: the kinds of the arm chosen by the discriminant.
  function Arm(f: Field, value: u32, kinds: seq<Kind>): seq<Kind> {
    if f == U32(value) then kinds else [KBad]
  }

  /** The kinds of the arguments of operation `code`, as far as the fields in `acc` determine them:
      unions and counted arrays unfold once their discriminant or count has been read.  Arms the client
      never uses are rejected. */
  function Schema(code: u32, acc: seq<Field>): seq<Kind> {
    if code == OP_SEQUENCE then [KFixed(16), KU32, KU32, KU32, KU32]
    else if code == OP_PUTFH || code == OP_LOOKUP || code == OP_REMOVE then [KOpaque]
    else if code == OP_PUTROOTFH || code == OP_GETFH then []
    else if code == OP_GETATTR then
      [KU32] + Then(acc, 0, (f: Field) => if f.U32? then seq(f.w, _ => KU32) else [KBad])
    else if code == OP_READ then [KU32, KFixed(12), KU64, KU32]
    else if code == OP_WRITE then [KU32, KFixed(12), KU64, KU32, KOpaque]
    else if code == OP_LOCK then
      [KU32, KU32, KU64, KU64, KU32]
      + Then(acc, 4, f => Arm(f, 1, [KU32, KU32, KFixed(12), KU32, KFixed(8), KOpaque]))
    else if code == OP_LOCKU then [KU32, KU32, KU32, KFixed(12), KU64, KU64]
    else if code == OP_OPEN then
      [KU32, KU32, KU32, KFixed(8), KOpaque, KU32]
      + Then(acc, 5, f => if f == U32(0) then [KU32] + Then(acc, 6, g => Arm(g, 0, [KOpaque]))
                          else Arm(f, 1, [KU32] + Then(acc, 6, g => Arm(g, 0, [KU32]
                            + Then(acc, 7, h => Arm(h, 2, [KU32, KU32, KOpaque, KU32]
                              + Then(acc, 11, c => Arm(c, 0, [KOpaque]))))))))
    else if code == OP_EXCHANGE_ID then
      [KFixed(8), KOpaque, KU32, KU32]
      + Then(acc, 3, f => Arm(f, 0, [KU32] + Then(acc, 4, g => Arm(g, 1, [KOpaque, KOpaque, KU64, KU32]))))
    else if code == OP_CREATE_SESSION then
      [KFixed(8), KU32, KU32] + KCHANNEL
      + Then(acc, 9, f => Arm(f, 0, KCHANNEL
        + Then(acc, 16, g => Arm(g, 0, [KU32, KU32]
            + Then(acc, 18, h => Arm(h, 1, [KU32] + Then(acc, 19, c => Arm(c, 0, []))))))))
    else if code == OP_DESTROY_SESSION then [KFixed(16)]
    else if code == OP_RECLAIM_COMPLETE then [KU32]
    else [KBad]
  }

  function DecodeArgs(code: u32, acc: seq<Field>, s: seq<u8>): Parsed<seq<Field>>
    decreases |s|
  {
    var kinds := Schema(code, acc);
    if |acc| >= |kinds| then Parsed(acc, s)
    else
      var (f, rest) :- DecodeField(kinds[|acc|], s);
      DecodeArgs(code, acc + [f], rest)
  }

  ghost predicate Conforms(code: u32, fs: seq<Field>) {
    && (forall i | 0 <= i < |fs| ::
          FieldOk(fs[i]) && i < |Schema(code, fs[..i])| && Schema(code, fs[..i])[i] == KindOf(fs[i]))
    && |Schema(code, fs)| == |fs|
  }

  lemma {:induction false} ArgsRoundTrip(code: u32, fs: seq<Field>, i: nat, rest: seq<u8>)
    requires Conforms(code, fs) && i <= |fs|
    ensures DecodeArgs(code, fs[..i], EncodeFields(fs[i..]) + rest) == Parsed(fs, rest)
    decreases |fs| - i
  {
    hide Schema, DecodeField, Encode, FieldOk;
    if i == |fs| {
      assert fs[..i] == fs;
      assert EncodeFields(fs[i..]) + rest == rest;
    } else {
      var f, tail := fs[i], fs[i + 1..];
      assert fs[i..] == [f] + tail;
      EncodeCons(f, tail);
      assert EncodeFields(fs[i..]) + rest == Encode(f) + (EncodeFields(tail) + rest);
      FieldRoundTrip(f, EncodeFields(tail) + rest);
      assert fs[..i] + [f] == fs[..i + 1];
      ArgsRoundTrip(code, fs, i + 1, rest);
    }
  }

  lemma ArgsConform(op: Op)
    requires OpOk(op)
    ensures Conforms(Code(op), Args(op))
  {
    match op
    case Lock(_, _, _, _, _, _, _, _, _) => LockConforms(op);
    case Open(_, _, _, _, _, _, _) => OpenConforms(op);
    case ExchangeId(_, _, _, _, _, _, _) => ExchangeIdConforms(op);
    case CreateSession(_, _, _, _, _, _) => CreateSessionConforms(op);
    case GetAttr(mask) => GetAttrConforms(mask);
    case _ => PlainConforms(op);
  }

  // Operations whose grammar does not depend on what was read.
  lemma PlainConforms(op: Op)
    requires OpOk(op) && !op.Lock? && !op.Open? && !op.ExchangeId? && !op.CreateSession? && !op.GetAttr?
    ensures Conforms(Code(op), Args(op))
  {
    var code, fs := Code(op), Args(op);
    var kinds := Schema(code, []);
    assert forall acc: seq<Field> :: Schema(code, acc) == kinds;
    PlainKinds(op);
    hide Schema, Args, OpOk, FieldOk, KindOf;
    assert forall i | 0 <= i < |fs| :: Schema(code, fs[..i]) == kinds;
  }

  lemma PlainKinds(op: Op)
    requires OpOk(op) && !op.Lock? && !op.Open? && !op.ExchangeId? && !op.CreateSession? && !op.GetAttr?
    ensures var fs, kinds := Args(op), Schema(Code(op), []);
      |fs| == |kinds| && forall i | 0 <= i < |fs| :: FieldOk(fs[i]) && KindOf(fs[i]) == kinds[i]
  {
  }

  lemma GetAttrConforms(mask: u32)
    ensures Conforms(OP_GETATTR, Args(GetAttr(mask)))
  {
    var fs := Args(GetAttr(mask));
    assert fs == [U32(1), U32(mask)];
    assert fs[..0] == [] && fs[..1] == [U32(1)];
    var one := seq(1, _ => KU32);
    assert one == [KU32];
    assert Schema(OP_GETATTR, fs) == [KU32] + one && Schema(OP_GETATTR, [U32(1)]) == [KU32] + one;
    assert Schema(OP_GETATTR, []) == [KU32];
  }

  // The grammar of a union operation, unfolded by how many fields are known.
  ghost predicate KindAt(code: u32, fs: seq<Field>, i: nat) {
    i < |fs| && FieldOk(fs[i]) && i < |Schema(code, fs[..i])| && Schema(code, fs[..i])[i] == KindOf(fs[i])
  }

  lemma ConformsByKinds(code: u32, fs: seq<Field>)
    requires forall i: nat | i < |fs| :: KindAt(code, fs, i)
    requires |Schema(code, fs)| == |fs|
    ensures Conforms(code, fs)
  {
    hide Schema, FieldOk;
    forall i | 0 <= i < |fs|
      ensures FieldOk(fs[i]) && i < |Schema(code, fs[..i])| && Schema(code, fs[..i])[i] == KindOf(fs[i])
    {
      assert KindAt(code, fs, i);
    }
  }

  lemma LockConforms(op: Op)
    requires OpOk(op) && op.Lock?
    ensures Conforms(Code(op), Args(op))
  {
    var fs := Args(op);
    assert |fs| == 11 && fs[4] == U32(1);
    forall i: nat | i < |fs| ensures KindAt(OP_LOCK, fs, i) {
      if i > 4 {
        assert fs[..i][4] == fs[4];
      }
    }
    ConformsByKinds(OP_LOCK, fs);
  }

  lemma OpenConforms(op: Op)
    requires OpOk(op) && op.Open?
    ensures Conforms(Code(op), Args(op))
  {
    var fs := Args(op);
    if op.how.NoCreate? {
      assert |fs| == 8 && fs[5] == U32(0) && fs[6] == U32(0);
      forall i: nat | i < |fs| ensures KindAt(OP_OPEN, fs, i) {
        OpenPlainKind(fs, i);
      }
    } else {
      assert |fs| == 13;
      forall i: nat | i < |fs| ensures KindAt(OP_OPEN, fs, i) {
        OpenCreateKind(fs, i);
      }
    }
    ConformsByKinds(OP_OPEN, fs);
  }

  lemma OpenPlainKind(fs: seq<Field>, i: nat)
    requires |fs| == 8 && i < 8
    requires fs[0].U32? && fs[1].U32? && fs[2].U32? && fs[3].Fixed? && |fs[3].raw| == 8
    requires fs[4].Opaque? && FieldOk(fs[4]) && fs[5] == U32(0) && fs[6] == U32(0) && fs[7].Opaque? && FieldOk(fs[7])
    ensures KindAt(OP_OPEN, fs, i)
  {
    var acc := fs[..i];
    if i > 6 {
      assert acc[5] == fs[5] && acc[6] == fs[6];
    } else if i > 5 {
      assert acc[5] == fs[5];
    }
  }

  lemma OpenCreateKind(fs: seq<Field>, i: nat)
    requires |fs| == 13 && i < 13
    requires fs[0].U32? && fs[1].U32? && fs[2].U32? && fs[3].Fixed? && |fs[3].raw| == 8
    requires fs[4].Opaque? && FieldOk(fs[4]) && fs[5] == U32(1) && fs[6] == U32(0) && fs[7] == U32(2)
    requires fs[8].U32? && fs[9].U32? && fs[10].Opaque? && FieldOk(fs[10]) && fs[11] == U32(0) && fs[12].Opaque?
             && FieldOk(fs[12])
    ensures KindAt(OP_OPEN, fs, i)
  {
    var acc := fs[..i];
    if i > 11 {
      assert acc[5] == fs[5] && acc[6] == fs[6] && acc[7] == fs[7] && acc[11] == fs[11];
    } else if i > 7 {
      assert acc[5] == fs[5] && acc[6] == fs[6] && acc[7] == fs[7];
    } else if i > 6 {
      assert acc[5] == fs[5] && acc[6] == fs[6];
    } else if i > 5 {
      assert acc[5] == fs[5];
    }
  }

  lemma ExchangeIdConforms(op: Op)
    requires OpOk(op) && op.ExchangeId?
    ensures Conforms(Code(op), Args(op))
  {
    var fs := Args(op);
    assert |fs| == 9 && fs[3] == U32(0) && fs[4] == U32(1);
    forall i: nat | i < |fs| ensures KindAt(OP_EXCHANGE_ID, fs, i) {
      if i > 4 {
        assert fs[..i][3] == fs[3] && fs[..i][4] == fs[4];
      } else if i > 3 {
        assert fs[..i][3] == fs[3];
      }
    }
    ConformsByKinds(OP_EXCHANGE_ID, fs);
  }

  lemma CreateSessionConforms(op: Op)
    requires OpOk(op) && op.CreateSession?
    ensures Conforms(Code(op), Args(op))
  {
    var fs := Args(op);
    assert |fs| == 20 && fs[9] == fs[16] == fs[19] == U32(0) && fs[18] == U32(1);
    assert fs[0] == Fixed(op.client);
    assert forall i | 0 < i < 20 :: fs[i].U32?;
    forall i: nat | i < |fs| ensures KindAt(OP_CREATE_SESSION, fs, i) {
      CreateSessionKind(fs, i);
    }
    ConformsByKinds(OP_CREATE_SESSION, fs);
  }

  lemma CreateSessionKind(fs: seq<Field>, i: nat)
    requires |fs| == 20 && i < 20 && fs[0].Fixed? && |fs[0].raw| == 8
    requires forall i | 0 < i < 20 :: fs[i].U32?
    requires fs[9] == fs[16] == fs[19] == U32(0) && fs[18] == U32(1)
    ensures KindAt(OP_CREATE_SESSION, fs, i)
  {
    var acc := fs[..i];
    if i > 18 {
      assert acc[9] == fs[9] && acc[16] == fs[16] && acc[18] == fs[18];
    } else if i > 16 {
      assert acc[9] == fs[9] && acc[16] == fs[16];
    } else if i > 9 {
      assert acc[9] == fs[9];
    }
  }
}
