/** Every byte of a call, written out from RFC 5661, section 18, and RFC 5531 with the numbers they assign: a second
    definition of the wire format, which the encoder is proved to meet. */
module Image {
  import opened Bytes
  import opened Wire
  import opened Call
  import opened Resok
  import opened Replay
  import opened Rpc
  import opened Files

  /** The number that bytes stand for, the most significant first. */
  function Value(s: seq<u8>): nat {
    if s == [] then 0 else 0x100 * Value(s[..|s| - 1]) + s[|s| - 1]
  }

  lemma ValueFour(s: seq<u8>)
    requires |s| == 4
    ensures Value(s) == FromBe32(s)
  {
    var s1, s2, s3 := s[..1], s[..2], s[..3];
    assert s1[..0] == [] && s2[..1] == s1 && s3[..2] == s2 && s[..3] == s3;
    assert Value(s1) == s[0] && Value(s2) == 0x100 * Value(s1) + s[1] && Value(s3) == 0x100 * Value(s2) + s[2];
  }

  lemma {:induction false} ValueAppend(s: seq<u8>, t: seq<u8>)
    requires |t| == 4
    ensures Value(s + t) == Value(s) * U32_SIZE + Value(t)
  {
    var s1, s2, s3 := s + t[..1], s + t[..2], s + t[..3];
    assert s1[..|s|] == s && s2[..|s| + 1] == s1 && s3[..|s| + 2] == s2 && (s + t)[..|s| + 3] == s3;
    assert Value(s1) == 0x100 * Value(s) + t[0];
    assert Value(s2) == 0x100 * Value(s1) + t[1];
    assert Value(s3) == 0x100 * Value(s2) + t[2];
    assert Value(s + t) == 0x100 * Value(s3) + t[3];
    ValueFour(t);
  }

  /** Words go out most significant byte first: four bytes, and eight, that stand for the number. */
  lemma BigEndian(w: u32, d: u64)
    ensures |Be32(w)| == 4 && Value(Be32(w)) == w
    ensures |Be64(d)| == 8 && Value(Be64(d)) == d
  {
    Be32RoundTrip(w);
    ValueFour(Be32(w));
    Be32RoundTrip(d / U32_SIZE);
    Be32RoundTrip(d % U32_SIZE);
    ValueFour(Be32(d / U32_SIZE));
    ValueFour(Be32(d % U32_SIZE));
    ValueAppend(Be32(d / U32_SIZE), Be32(d % U32_SIZE));
  }

  // ---------- Operations ----------

  function HowImage(how: OpenHow): seq<u8>
    requires how.CreateUnchecked? ==> Short(how.attrs)
  {
    match how
    case NoCreate => [0, 0, 0, 0]
    case CreateUnchecked(m0, m1, attrs) => [0, 0, 0, 1, 0, 0, 0, 0, 0, 0, 0, 2] + Be32(m0) + Be32(m1) + Counted(attrs)
  }

  function ChannelImage(c: Channel): seq<u8> {
    Be32(c.headerPad) + Be32(c.maxRequest) + Be32(c.maxResponse) + Be32(c.maxCached) + Be32(c.maxOps)
    + Be32(c.maxRequests) + [0, 0, 0, 0]
  }

  /** An operation on the wire: its number, then its arguments. */
  function OpImage(op: Op): seq<u8>
    requires OpOk(op)
  {
    match op
    case GetAttr(mask) => [0, 0, 0, 9, 0, 0, 0, 1] + Be32(mask)
    case GetFh => [0, 0, 0, 10]
    case Lock(kind, reclaim, offset, length, openSeqid, sid, lockSeqid, client, owner) =>
      [0, 0, 0, 12] + (Be32(kind) + Be32(reclaim) + Be64(offset) + Be64(length) + [0, 0, 0, 1] + Be32(openSeqid))
      + EncodeSid(sid) + (Be32(lockSeqid) + client + Counted(owner))
    case LockU(kind, lockSeqid, sid, offset, length) =>
      [0, 0, 0, 14] + (Be32(kind) + Be32(lockSeqid)) + EncodeSid(sid) + (Be64(offset) + Be64(length))
    case Lookup(name) => [0, 0, 0, 15] + Counted(name)
    case Open(openSeqid, access, deny, client, owner, how, name) =>
      [0, 0, 0, 18] + (Be32(openSeqid) + Be32(access) + Be32(deny) + client + Counted(owner))
      + HowImage(how) + ([0, 0, 0, 0] + Counted(name))
    case PutFh(fh) => [0, 0, 0, 22] + Counted(fh)
    case PutRootFh => [0, 0, 0, 24]
    case Read(sid, offset, count) => [0, 0, 0, 25] + EncodeSid(sid) + (Be64(offset) + Be32(count))
    case Remove(name) => [0, 0, 0, 28] + Counted(name)
    case Write(sid, offset, stable, data) =>
      [0, 0, 0, 38] + EncodeSid(sid) + (Be64(offset) + Be32(stable) + Counted(data))
    case ExchangeId(verifier, ownerId, flags, domain, product, seconds, nanos) =>
      [0, 0, 0, 42] + (verifier + Counted(ownerId) + Be32(flags) + [0, 0, 0, 0] + [0, 0, 0, 1])
      + (Counted(domain) + Counted(product)) + (Be64(seconds) + Be32(nanos))
    case CreateSession(client, createSeq, flags, fore, back, program) =>
      [0, 0, 0, 43] + (client + Be32(createSeq) + Be32(flags)) + ChannelImage(fore) + ChannelImage(back)
      + (Be32(program) + [0, 0, 0, 1] + [0, 0, 0, 0])
    case DestroySession(session) => [0, 0, 0, 44] + session
    case Sequence(session, seqid, slot, highest, cache) =>
      [0, 0, 0, 53] + session + Be32(seqid) + Be32(slot) + Be32(highest) + Be32(cache)
    case ReclaimComplete(oneFs) => [0, 0, 0, 58] + Be32(oneFs)
  }

  // ---------- The encoder meets it ----------

  lemma Numbers()
    ensures Be32(0) == [0, 0, 0, 0] && Be32(1) == [0, 0, 0, 1] && Be32(2) == [0, 0, 0, 2]
    ensures Be32(OP_GETATTR) == [0, 0, 0, 9] && Be32(OP_GETFH) == [0, 0, 0, 10] && Be32(OP_LOCK) == [0, 0, 0, 12]
    ensures Be32(OP_LOCKU) == [0, 0, 0, 14] && Be32(OP_LOOKUP) == [0, 0, 0, 15] && Be32(OP_OPEN) == [0, 0, 0, 18]
    ensures Be32(OP_PUTFH) == [0, 0, 0, 22] && Be32(OP_PUTROOTFH) == [0, 0, 0, 24] && Be32(OP_READ) == [0, 0, 0, 25]
    ensures Be32(OP_REMOVE) == [0, 0, 0, 28] && Be32(OP_WRITE) == [0, 0, 0, 38]
    ensures Be32(OP_EXCHANGE_ID) == [0, 0, 0, 42] && Be32(OP_CREATE_SESSION) == [0, 0, 0, 43]
    ensures Be32(OP_DESTROY_SESSION) == [0, 0, 0, 44] && Be32(OP_SEQUENCE) == [0, 0, 0, 53]
    ensures Be32(OP_RECLAIM_COMPLETE) == [0, 0, 0, 58]
  {
  }

  lemma SidOnTheWire(s: Stateid)
    requires SidOk(s)
    ensures FieldsOk(SidFields(s)) && EncodeFields(SidFields(s)) == EncodeSid(s)
  {
    hide Be32, EncodeFields;
    WholeFixed(s.other);
    EncodeTwo(U32(s.seqid), Fixed(s.other));
  }

  lemma SequenceOnTheWire(op: Op)
    requires OpOk(op) && op.Sequence?
    ensures FieldsOk(Args(op)) && [0, 0, 0, 53] + EncodeFields(Args(op)) == OpImage(op)
  {
    hide Be32, EncodeFields;
    WholeFixed(op.session);
    EncodeFive(Fixed(op.session), U32(op.seqid), U32(op.slot), U32(op.highestSlot), U32(op.cacheThis));
  }

  // Operations with at most one argument, and the mask of GETATTR.
  lemma ShortOnTheWire(op: Op)
    requires OpOk(op)
    requires op.GetFh? || op.PutRootFh? || op.Lookup? || op.PutFh? || op.Remove? || op.DestroySession?
             || op.ReclaimComplete? || op.GetAttr?
    ensures FieldsOk(Args(op)) && Be32(Code(op)) + EncodeFields(Args(op)) == OpImage(op)
  {
    Numbers();
    hide Be32, EncodeFields;
    EncodeNil();
    match op
    case Lookup(x) => EncodeOne(Opaque(x));
    case PutFh(x) => EncodeOne(Opaque(x));
    case Remove(x) => EncodeOne(Opaque(x));
    case DestroySession(x) =>
      WholeFixed(x);
      EncodeOne(Fixed(x));
    case ReclaimComplete(w) => EncodeOne(U32(w));
    case GetAttr(w) => EncodeTwo(U32(1), U32(w));
    case _ =>
  }

  lemma TransferOnTheWire(op: Op)
    requires OpOk(op) && (op.Read? || op.Write?)
    ensures FieldsOk(Args(op)) && Be32(Code(op)) + EncodeFields(Args(op)) == OpImage(op)
  {
    Numbers();
    hide Be32, Be64, EncodeFields, SidFields, EncodeSid, Counted;
    SidOnTheWire(op.sid);
    match op
    case Read(sid, offset, count) =>
      EncodeTwo(U64(offset), U32(count));
      EncodeAppend(SidFields(sid), [U64(offset), U32(count)]);
    case Write(sid, offset, stable, data) =>
      CountedIs(data);
      EncodeThree(U64(offset), U32(stable), Opaque(data));
      EncodeAppend(SidFields(sid), [U64(offset), U32(stable), Opaque(data)]);
  }

  lemma CountedIs(x: seq<u8>)
    requires Short(x)
    ensures FieldOk(Opaque(x)) && Encode(Opaque(x)) == Counted(x)
  {
  }

  lemma LockUOnTheWire(op: Op)
    requires OpOk(op) && op.LockU?
    ensures FieldsOk(Args(op)) && Be32(Code(op)) + EncodeFields(Args(op)) == OpImage(op)
  {
    Numbers();
    hide Be32, Be64, EncodeFields, SidFields, EncodeSid;
    SidOnTheWire(op.sid);
    var a, b := [U32(op.kind), U32(op.lockSeqid)], [U64(op.offset), U64(op.length)];
    EncodeTwo(a[0], a[1]);
    EncodeTwo(b[0], b[1]);
    EncodeAppend(a, SidFields(op.sid));
    EncodeAppend(a + SidFields(op.sid), b);
  }

  lemma LockOnTheWire(op: Op)
    requires OpOk(op) && op.Lock?
    ensures FieldsOk(Args(op)) && Be32(Code(op)) + EncodeFields(Args(op)) == OpImage(op)
  {
    Numbers();
    hide Be32, Be64, EncodeFields, SidFields, EncodeSid, Counted;
    SidOnTheWire(op.sid);
    WholeFixed(op.client);
    CountedIs(op.owner);
    var a := [U32(op.kind), U32(op.reclaim), U64(op.offset), U64(op.length), U32(1)];
    var b := [U32(op.lockSeqid), Fixed(op.client), Opaque(op.owner)];
    EncodeFive(a[0], a[1], a[2], a[3], a[4]);
    EncodeSnoc(a, U32(op.openSeqid));
    EncodeThree(b[0], b[1], b[2]);
    var front := a + [U32(op.openSeqid)];
    EncodeAppend(front, SidFields(op.sid));
    EncodeAppend(front + SidFields(op.sid), b);
    assert Args(op) == front + SidFields(op.sid) + b;
  }

  lemma HowOnTheWire(how: OpenHow)
    requires how.CreateUnchecked? ==> Short(how.attrs)
    ensures FieldsOk(HowFields(how)) && EncodeFields(HowFields(how)) == HowImage(how)
  {
    Numbers();
    hide Be32, EncodeFields, Counted;
    match how
    case NoCreate => EncodeOne(U32(0));
    case CreateUnchecked(m0, m1, attrs) =>
      CountedIs(attrs);
      var a := [U32(1), U32(0), U32(2), U32(m0), U32(m1)];
      EncodeFive(a[0], a[1], a[2], a[3], a[4]);
      EncodeSnoc(a, Opaque(attrs));
      assert HowFields(how) == a + [Opaque(attrs)];
  }

  lemma OpenOnTheWire(op: Op)
    requires OpOk(op) && op.Open?
    ensures FieldsOk(Args(op)) && Be32(Code(op)) + EncodeFields(Args(op)) == OpImage(op)
  {
    Numbers();
    hide Be32, EncodeFields, Counted, HowFields, HowImage;
    HowOnTheWire(op.how);
    WholeFixed(op.client);
    CountedIs(op.owner);
    CountedIs(op.name);
    var a := [U32(op.openSeqid), U32(op.access), U32(op.deny), Fixed(op.client), Opaque(op.owner)];
    var b := [U32(0), Opaque(op.name)];
    EncodeFive(a[0], a[1], a[2], a[3], a[4]);
    EncodeTwo(b[0], b[1]);
    EncodeAppend(a, HowFields(op.how));
    EncodeAppend(a + HowFields(op.how), b);
  }

  lemma ExchangeIdOnTheWire(op: Op)
    requires OpOk(op) && op.ExchangeId?
    ensures FieldsOk(Args(op)) && Be32(Code(op)) + EncodeFields(Args(op)) == OpImage(op)
  {
    Numbers();
    hide Be32, Be64, EncodeFields, Counted;
    WholeFixed(op.verifier);
    CountedIs(op.ownerId);
    CountedIs(op.domain);
    CountedIs(op.product);
    var a := [Fixed(op.verifier), Opaque(op.ownerId), U32(op.flags), U32(0), U32(1)];
    var b, d := [Opaque(op.domain), Opaque(op.product)], [U64(op.seconds), U32(op.nanos)];
    EncodeFive(a[0], a[1], a[2], a[3], a[4]);
    EncodeTwo(b[0], b[1]);
    EncodeTwo(d[0], d[1]);
    EncodeAppend(a, b);
    EncodeAppend(a + b, d);
    assert Args(op) == a + b + d;
  }

  lemma ChannelOnTheWire(c: Channel)
    ensures FieldsOk(ChannelFields(c)) && EncodeFields(ChannelFields(c)) == ChannelImage(c)
  {
    Numbers();
    hide Be32, EncodeFields;
    var a := [U32(c.headerPad), U32(c.maxRequest), U32(c.maxResponse), U32(c.maxCached), U32(c.maxOps)];
    var b := [U32(c.maxRequests), U32(0)];
    EncodeFive(a[0], a[1], a[2], a[3], a[4]);
    EncodeTwo(b[0], b[1]);
    EncodeAppend(a, b);
    assert ChannelFields(c) == a + b;
  }

  lemma CreateSessionOnTheWire(op: Op)
    requires OpOk(op) && op.CreateSession?
    ensures FieldsOk(Args(op)) && Be32(Code(op)) + EncodeFields(Args(op)) == OpImage(op)
  {
    Numbers();
    hide Be32, EncodeFields, ChannelFields, ChannelImage;
    WholeFixed(op.client);
    ChannelOnTheWire(op.fore);
    ChannelOnTheWire(op.back);
    var a, b := [Fixed(op.client), U32(op.createSeq), U32(op.flags)], [U32(op.program), U32(1), U32(0)];
    EncodeThree(a[0], a[1], a[2]);
    EncodeThree(b[0], b[1], b[2]);
    EncodeAppend(a, ChannelFields(op.fore));
    EncodeAppend(a + ChannelFields(op.fore), ChannelFields(op.back));
    EncodeAppend(a + ChannelFields(op.fore) + ChannelFields(op.back), b);
  }

  /** Every operation is encoded as exactly these bytes. */
  lemma OpOnTheWire(op: Op)
    requires OpOk(op)
    ensures FieldsOk(OpFields(op)) && EncodeFields(OpFields(op)) == OpImage(op)
  {
    hide Be32, EncodeFields, Args, OpImage, OpOk;
    ArgsOk(op);
    CodeEncoded(Code(op));
    EncodeCons(U32(Code(op)), Args(op));
    Numbers();
    match op
    case Sequence(_, _, _, _, _) => SequenceOnTheWire(op);
    case Read(_, _, _) => TransferOnTheWire(op);
    case Write(_, _, _, _) => TransferOnTheWire(op);
    case Lock(_, _, _, _, _, _, _, _, _) => LockOnTheWire(op);
    case LockU(_, _, _, _, _) => LockUOnTheWire(op);
    case Open(_, _, _, _, _, _, _) => OpenOnTheWire(op);
    case ExchangeId(_, _, _, _, _, _, _) => ExchangeIdOnTheWire(op);
    case CreateSession(_, _, _, _, _, _) => CreateSessionOnTheWire(op);
    case _ => ShortOnTheWire(op);
  }

  // ---------- The whole record ----------

  function OpsImage(ops: seq<Op>): seq<u8>
    requires OpsOk(ops)
  {
    if ops == [] then [] else OpImage(ops[0]) + OpsImage(ops[1..])
  }

  lemma {:induction false} OpsOnTheWire(ops: seq<Op>)
    requires OpsOk(ops)
    ensures Body(ops) == OpsImage(ops)
  {
    hide OpOk, OpFields, OpImage, Encode, FieldOk;
    OpsFieldsOk(ops);
    if ops != [] {
      OpsOnTheWire(ops[1..]);
      OpsFieldsOk(ops[1..]);
      OpOnTheWire(ops[0]);
      EncodeAppend(OpFields(ops[0]), OpsFields(ops[1..]));
    }
  }

  // CALL, RPC version 2, program 100003, version 4, COMPOUND.
  const PROGRAM_BYTES: seq<u8> := [0, 0, 0, 0, 0, 0, 0, 2, 0, 1, 0x86, 0xa3, 0, 0, 0, 4, 0, 0, 0, 1]

  // Stamp, machine name "ip-192-168-1-40", uid, gid, and no more groups.
  const CRED_BYTES: seq<u8> :=
    [0x11, 0x1f, 0xf2, 0x74]
    + ([0, 0, 0, 15] + [105, 112, 45, 49, 57, 50, 45, 49, 54, 56, 45, 49, 45, 52, 48] + [0])
    + [0, 0, 0, 0] + [0, 0, 0, 0] + [0, 0, 0, 0]

  /** The call; AUTH_SYS with 36 bytes of credential; AUTH_NONE; an empty tag; minor version 1. */
  const HEADER_BYTES: seq<u8> :=
    PROGRAM_BYTES + ([0, 0, 0, 1, 0, 0, 0, 36] + CRED_BYTES + [0, 0, 0, 0, 0, 0, 0, 0, 0, 0, 0, 0]) + [0, 0, 0, 1]

  lemma HeaderNumbers()
    ensures Be32(NFS_PROGRAM) == [0, 1, 0x86, 0xa3] && Be32(4) == [0, 0, 0, 4] && Be32(36) == [0, 0, 0, 36]
    ensures Be32(0x111ff274) == [0x11, 0x1f, 0xf2, 0x74] && Be32(15) == [0, 0, 0, 15]
  {
  }

  lemma ProgramOnTheWire()
    ensures FieldsOk(FIRST_FIVE) && EncodeFields(FIRST_FIVE) == PROGRAM_BYTES
  {
    Numbers();
    HeaderNumbers();
    hide EncodeFields, Be32;
    EncodeFive(U32(0), U32(2), U32(NFS_PROGRAM), U32(4), U32(1));
  }

  lemma CredOnTheWire()
    ensures CredBytes() == CRED_BYTES
  {
    Numbers();
    HeaderNumbers();
    CredIs36Bytes();
    hide CredBytes, Be32;
    assert MACHINE == [105, 112, 45, 49, 57, 50, 45, 49, 54, 56, 45, 49, 45, 52, 48];
  }

  lemma AuthOnTheWire(cred: seq<u8>)
    requires |cred| == 36
    ensures FieldsOk(NextFive(cred))
    ensures EncodeFields(NextFive(cred)) == [0, 0, 0, 1, 0, 0, 0, 36] + cred + [0, 0, 0, 0, 0, 0, 0, 0, 0, 0, 0, 0]
  {
    Numbers();
    HeaderNumbers();
    hide EncodeFields, Be32;
    CountedIs(cred);
    CountedIs([]);
    assert Zeros(Fill(36)) == [] && Zeros(Fill(0)) == [];
    EncodeFive(U32(1), Opaque(cred), U32(0), Opaque([]), Opaque([]));
  }

  lemma HeaderOnTheWire()
    ensures HeaderRest() == HEADER_BYTES
  {
    HeaderOk(0);
    CredIs36Bytes();
    CredOnTheWire();
    Numbers();
    var cred := CredBytes();
    hide CredBytes, EncodeFields, Be32, CRED_BYTES, PROGRAM_BYTES, FIRST_FIVE, NextFive;
    TailOk(cred);
    ProgramOnTheWire();
    AuthOnTheWire(cred);
    EncodeAppend(FIRST_FIVE, NextFive(cred));
    CodeEncoded(1);
    EncodeSnoc(FIRST_FIVE + NextFive(cred), U32(1));
  }

  /** A call, byte for byte: the mark of a last fragment with the length of what follows, the xid, the header, the
      number of operations, and the operations. */
  lemma CallOnTheWire(xid: u32, ops: seq<Op>)
    requires OpsOk(ops) && Fits(ops)
    ensures var n := 88 + |OpsImage(ops)|;
      && n < 0x8000_0000
      && EncodeCall(xid, ops) == Be32(0x8000_0000 + n) + (Be32(xid) + HEADER_BYTES + Be32(|ops|) + OpsImage(ops))
  {
    hide Be32, HEADER_BYTES;
    OpsOnTheWire(ops);
    HeaderShape(xid);
    HeaderOnTheWire();
  }

  // ---------- What the client asks for, in numbers ----------

  function Ascii(s: string): seq<u8>
    requires forall i | 0 <= i < |s| :: s[i] < 128 as char
  {
    seq(|s|, i requires 0 <= i < |s| => s[i] as int)
  }

  /** Who the client says it is. */
  lemma Names()
    ensures AUTHOR == Ascii("edu.berkeley") && VERSION == Ascii("NFS for Serverless v. 0.1-snapshot")
    ensures MACHINE == Ascii("ip-192-168-1-40")
  {
  }

  /** SEQUENCE is always for slot 0 of one slot, and never asks for the answer to be kept. */
  lemma SequenceInNumbers(session: seq<u8>, seqid: u32)
    requires |session| == 16
    ensures OpImage(Seq(session, seqid))
            == [0, 0, 0, 53] + session + Be32(seqid) + [0, 0, 0, 0] + [0, 0, 0, 0] + [0, 0, 0, 0]
  {
    Numbers();
    hide Be32;
  }

  /** file_size asks for attribute 4, `size`, and nothing else; write_chunk asks for a stable write (FILE_SYNC4). */
  lemma TransfersInNumbers(sid: Stateid, offset: u64, data: seq<u8>)
    requires SidOk(sid) && Short(data)
    ensures OpImage(GetAttr(ATTR_SIZE)) == [0, 0, 0, 9, 0, 0, 0, 1, 0, 0, 0, 0x10]
    ensures OpImage(Write(sid, offset, FILE_SYNC, data))
            == [0, 0, 0, 38] + EncodeSid(sid) + (Be64(offset) + [0, 0, 0, 2] + Counted(data))
  {
    Numbers();
    assert Be32(0x10) == [0, 0, 0, 0x10];
    hide Be32;
  }

  /** OPEN: for reading (1) or for both (3), denying nothing, by name; a new file is created unchecked, with attribute
      33 alone set, its mode, to 0644. */
  lemma OpenInNumbers(c: Client, name: seq<u8>, writable: bool, create: bool)
    requires c.Shaped() && Short(name)
    ensures OpOk(OpenOp(c, name, writable, create))
    ensures OpImage(OpenOp(c, name, writable, create))
            == [0, 0, 0, 18]
               + ([0, 0, 0, 0] + (if writable then [0, 0, 0, 3] else [0, 0, 0, 1]) + [0, 0, 0, 0] + c.clientid
                  + Counted(c.owner))
               + (if create then
                    [0, 0, 0, 1, 0, 0, 0, 0, 0, 0, 0, 2] + [0, 0, 0, 0] + [0, 0, 0, 2] + [0, 0, 0, 4, 0, 0, 1, 0xa4]
                  else [0, 0, 0, 0])
               + ([0, 0, 0, 0] + Counted(name))
  {
    Numbers();
    ModeCounted();
    assert Be32(3) == [0, 0, 0, 3];
    hide Be32, Counted;
  }

  lemma ModeCounted()
    ensures Counted(Be32(0x1a4)) == [0, 0, 0, 4, 0, 0, 1, 0xa4]
  {
    assert Be32(0x1a4) == [0, 0, 1, 0xa4] && Be32(4) == [0, 0, 0, 4];
    assert Zeros(Fill(4)) == [];
  }

  /** CREATE_SESSION: the client id and sequence id given, persistence asked for, the same limits both ways, callback
      program 0x7b, and AUTH_NONE for callbacks. */
  lemma CreateSessionInNumbers(client: seq<u8>, seqid: u32, limits: Channel)
    requires |client| == 8
    ensures OpImage(CreateSession(client, seqid, 1, limits, limits, 0x7b))
            == [0, 0, 0, 43] + (client + Be32(seqid) + [0, 0, 0, 1]) + ChannelImage(limits) + ChannelImage(limits)
               + ([0, 0, 0, 0x7b] + [0, 0, 0, 1] + [0, 0, 0, 0])
  {
    Numbers();
    assert Be32(0x7b) == [0, 0, 0, 0x7b];
    hide Be32, ChannelImage;
  }
}
