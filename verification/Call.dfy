/** Whole calls: typed operations read back from the wire, the COMPOUND, and the RPC record around it. */
module Call {
  import opened Bytes
  import opened Wire

  datatype Option<T> = None | Some(value: T)

  // ---------- Typed operations ----------

  function Word(f: Field): u32 { if f.U32? then f.w else 0 }
  function Long(f: Field): u64 { if f.U64? then f.d else 0 }
  function Data(f: Field): seq<u8> { match f case Opaque(x) => x case Fixed(x) => x case _ => [] }

  function SidAt(fs: seq<Field>, i: nat): Stateid
    requires i + 1 < |fs|
  {
    Stateid(Word(fs[i]), Data(fs[i + 1]))
  }

  function ChannelAt(fs: seq<Field>, i: nat): Channel
    requires i + 5 < |fs|
  {
    Channel(Word(fs[i]), Word(fs[i + 1]), Word(fs[i + 2]), Word(fs[i + 3]), Word(fs[i + 4]), Word(fs[i + 5]))
  }

  /** The operation that decoded arguments stand for. */
  function Typed(code: u32, fs: seq<Field>): Option<Op> {
    var n := |fs|;
    if code == OP_SEQUENCE && n == 5 then
      Some(Sequence(Data(fs[0]), Word(fs[1]), Word(fs[2]), Word(fs[3]), Word(fs[4])))
    else if code == OP_PUTFH && n == 1 then Some(PutFh(Data(fs[0])))
    else if code == OP_PUTROOTFH && n == 0 then Some(PutRootFh)
    else if code == OP_GETFH && n == 0 then Some(GetFh)
    else if code == OP_LOOKUP && n == 1 then Some(Lookup(Data(fs[0])))
    else if code == OP_GETATTR && n == 2 then Some(GetAttr(Word(fs[1])))
    else if code == OP_READ && n == 4 then Some(Read(SidAt(fs, 0), Long(fs[2]), Word(fs[3])))
    else if code == OP_WRITE && n == 5 then Some(Write(SidAt(fs, 0), Long(fs[2]), Word(fs[3]), Data(fs[4])))
    else if code == OP_LOCK && n == 11 then
      Some(Lock(Word(fs[0]), Word(fs[1]), Long(fs[2]), Long(fs[3]), Word(fs[5]), SidAt(fs, 6), Word(fs[8]), Data(fs[9]),
                Data(fs[10])))
    else if code == OP_LOCKU && n == 6 then
      Some(LockU(Word(fs[0]), Word(fs[1]), SidAt(fs, 2), Long(fs[4]), Long(fs[5])))
    else if code == OP_OPEN && n == 8 then
      Some(Open(Word(fs[0]), Word(fs[1]), Word(fs[2]), Data(fs[3]), Data(fs[4]), NoCreate, Data(fs[7])))
    else if code == OP_OPEN && n == 13 then
      Some(Open(Word(fs[0]), Word(fs[1]), Word(fs[2]), Data(fs[3]), Data(fs[4]),
                CreateUnchecked(Word(fs[8]), Word(fs[9]), Data(fs[10])), Data(fs[12])))
    else if code == OP_REMOVE && n == 1 then Some(Remove(Data(fs[0])))
    else if code == OP_EXCHANGE_ID && n == 9 then
      Some(ExchangeId(Data(fs[0]), Data(fs[1]), Word(fs[2]), Data(fs[5]), Data(fs[6]), Long(fs[7]), Word(fs[8])))
    else if code == OP_CREATE_SESSION && n == 20 then
      Some(CreateSession(Data(fs[0]), Word(fs[1]), Word(fs[2]), ChannelAt(fs, 3), ChannelAt(fs, 10), Word(fs[17])))
    else if code == OP_DESTROY_SESSION && n == 1 then Some(DestroySession(Data(fs[0])))
    else if code == OP_RECLAIM_COMPLETE && n == 1 then Some(ReclaimComplete(Word(fs[0])))
    else None
  }

  lemma TypedRoundTrip(op: Op)
    ensures Typed(Code(op), Args(op)) == Some(op)
  {
  }

  function OpFields(op: Op): seq<Field> {
    [U32(Code(op))] + Args(op)
  }

  function DecodeOp(s: seq<u8>): (p: Parsed<Op>) {
    var (code, rest) :- TakeU32(s);
    var (fs, rest) :- DecodeArgs(code, [], rest);
    match Typed(code, fs)
    case None => Malformed
    case Some(op) => Parsed(op, rest)
  }

  lemma ArgsOk(op: Op)
    requires OpOk(op)
    ensures FieldsOk(Args(op)) && FieldsOk(OpFields(op))
  {
    hide Schema;
    ArgsConform(op);
    forall i | 0 <= i < |Args(op)| ensures FieldOk(Args(op)[i]) {
    }
  }

  lemma OpRoundTrip(op: Op, rest: seq<u8>)
    requires OpOk(op)
    ensures FieldsOk(OpFields(op))
    ensures DecodeOp(EncodeFields(OpFields(op)) + rest) == Parsed(op, rest)
  {
    hide Code, Args, DecodeArgs, Encode, Typed, OpOk, FieldOk, Schema, Conforms;
    ArgsOk(op);
    ArgsConform(op);
    TypedRoundTrip(op);
    var fs := Args(op);
    CodeEncoded(Code(op));
    EncodeCons(U32(Code(op)), fs);
    var tail := EncodeFields(fs) + rest;
    assert EncodeFields(OpFields(op)) + rest == Be32(Code(op)) + tail;
    TakeU32Encoded(Code(op), tail);
    ArgsRoundTrip(Code(op), fs, 0, rest);
    assert fs[..0] == [] && fs[0..] == fs;
  }

  lemma CodeEncoded(w: u32)
    ensures FieldOk(U32(w)) && Encode(U32(w)) == Be32(w)
  {
  }

  // ---------- The operation list ----------

  predicate OpsOk(ops: seq<Op>) {
    |ops| < U32_SIZE && forall i | 0 <= i < |ops| :: OpOk(ops[i])
  }

  function OpsFields(ops: seq<Op>): seq<Field> {
    if ops == [] then [] else OpFields(ops[0]) + OpsFields(ops[1..])
  }

  function DecodeOps(n: nat, s: seq<u8>): Parsed<seq<Op>> {
    if n == 0 then Parsed([], s)
    else
      var (op, rest) :- DecodeOp(s);
      var (ops, rest) :- DecodeOps(n - 1, rest);
      Parsed([op] + ops, rest)
  }

  lemma {:induction false} OpsFieldsOk(ops: seq<Op>)
    requires OpsOk(ops)
    ensures FieldsOk(OpsFields(ops))
  {
    hide OpOk, OpFields, FieldOk;
    if ops != [] {
      OpsFieldsOk(ops[1..]);
      ArgsOk(ops[0]);
    }
  }

  lemma {:induction false} OpsFieldsSnoc(ops: seq<Op>, op: Op)
    ensures OpsFields(ops + [op]) == OpsFields(ops) + OpFields(op)
  {
    hide OpFields;
    if ops == [] {
      assert ops + [op] == [op] && [op][1..] == [];
    } else {
      assert (ops + [op])[1..] == ops[1..] + [op];
      OpsFieldsSnoc(ops[1..], op);
    }
  }

  lemma {:induction false} OpsRoundTrip(ops: seq<Op>, rest: seq<u8>)
    requires OpsOk(ops)
    ensures FieldsOk(OpsFields(ops))
    ensures DecodeOps(|ops|, EncodeFields(OpsFields(ops)) + rest) == Parsed(ops, rest)
  {
    hide OpOk, OpFields, FieldOk, DecodeOp, Encode, EncodeFields;
    OpsFieldsOk(ops);
    if ops == [] {
      EncodeNil();
      assert EncodeFields([]) + rest == rest;
    } else {
      var op, more := ops[0], ops[1..];
      OpsFieldsOk(more);
      ArgsOk(op);
      EncodeAppend(OpFields(op), OpsFields(more));
      var tail := EncodeFields(OpsFields(more)) + rest;
      assert EncodeFields(OpsFields(ops)) + rest == EncodeFields(OpFields(op)) + tail;
      OpRoundTrip(op, tail);
      OpsRoundTrip(more, rest);
      assert [op] + more == ops;
    }
  }

  // ---------- The RPC call ----------

  datatype Cred = Cred(stamp: u32, machine: seq<u8>, uid: u32, gid: u32)

  datatype RpcCall = RpcCall(xid: u32, cred: Cred, minor: u32, ops: seq<Op>)

  const NFS_PROGRAM: u32 := 0x186a3
  const LAST_FRAGMENT := 0x8000_0000

  // What the client always claims to be.
  const MACHINE: seq<u8> := [105, 112, 45, 49, 57, 50, 45, 49, 54, 56, 45, 49, 45, 52, 48]  // "ip-192-168-1-40"
  const CLIENT_CRED := Cred(0x111ff274, MACHINE, 0, 0)

  function KindsOf(fs: seq<Field>): seq<Kind> {
    seq(|fs|, i requires 0 <= i < |fs| => KindOf(fs[i]))
  }

  function DecodeKinds(kinds: seq<Kind>, s: seq<u8>): Parsed<seq<Field>> {
    if kinds == [] then Parsed([], s)
    else
      var (f, rest) :- DecodeField(kinds[0], s);
      var (fs, rest) :- DecodeKinds(kinds[1..], rest);
      Parsed([f] + fs, rest)
  }

  lemma {:induction false} KindsRoundTrip(fs: seq<Field>, rest: seq<u8>)
    requires FieldsOk(fs)
    ensures DecodeKinds(KindsOf(fs), EncodeFields(fs) + rest) == Parsed(fs, rest)
  {
    hide FieldOk, DecodeField, Encode;
    if fs == [] {
      assert EncodeFields(fs) + rest == rest;
    } else {
      var f, more := fs[0], fs[1..];
      assert fs == [f] + more;
      EncodeCons(f, more);
      var tail := EncodeFields(more) + rest;
      assert EncodeFields(fs) + rest == Encode(f) + tail;
      FieldRoundTrip(f, tail);
      KindsRoundTrip(more, rest);
      assert KindsOf(fs)[1..] == KindsOf(more);
    }
  }

  /** authsys_parms of RFC 5531, appendix A, with no auxiliary groups. */
  function CredFields(c: Cred): seq<Field> {
    [U32(c.stamp), Opaque(c.machine), U32(c.uid), U32(c.gid), U32(0)]
  }

  const CRED_KINDS: seq<Kind> := [KU32, KOpaque, KU32, KU32, KU32]

  function DecodeCred(s: seq<u8>): Option<Cred> {
    match DecodeKinds(CRED_KINDS, s)
    case Malformed => None
    case Parsed(fs, rest) =>
      if |fs| == 5 && rest == [] && fs[4] == U32(0) then Some(Cred(Word(fs[0]), Data(fs[1]), Word(fs[2]), Word(fs[3])))
      else None
  }

  /** The header: xid, CALL, RPC version 2, program, version 4, procedure COMPOUND, AUTH_SYS credential,
      AUTH_NONE verifier, then the empty tag and the minor version of the COMPOUND. */
  function HeaderFields(xid: u32, cred: seq<u8>): seq<Field> {
    [U32(xid)] + HeaderTail(cred)
  }

  function HeaderTail(cred: seq<u8>): seq<Field> {
    [U32(0), U32(2), U32(NFS_PROGRAM), U32(4), U32(1)]
    + [U32(1), Opaque(cred), U32(0), Opaque([]), Opaque([])]
    + [U32(1)]
  }

  const HEADER_KINDS: seq<Kind> :=
    [KU32, KU32, KU32, KU32, KU32, KU32, KU32, KOpaque, KU32, KOpaque, KOpaque, KU32]

  /** The decoder: the record mark counts the whole rest, every constant is checked, and nothing is left over. */
  function DecodeCall(s: seq<u8>): Option<RpcCall> {
    match TakeU32(s)
    case Malformed => None
    case Parsed(mark, record) =>
      if mark != LAST_FRAGMENT + |record| then None
      else
        match DecodeKinds(HEADER_KINDS, record)
        case Malformed => None
        case Parsed(h, rest) =>
          if |h| != 12 || h != HeaderFields(Word(h[0]), Data(h[7])) then None
          else
            match (DecodeCred(Data(h[7])), TakeU32(rest))
            case (Some(cred), Parsed(count, rest)) =>
              (match DecodeOps(count, rest)
               case Malformed => None
               case Parsed(ops, rest) =>
                 if rest == [] then Some(RpcCall(Word(h[0]), cred, Word(h[11]), ops)) else None)
            case _ => None
  }

  function CredBytes(): seq<u8> {
    EncodeFields(CredFields(CLIENT_CRED))
  }

  lemma EncodeOne(a: Field)
    requires FieldOk(a)
    ensures EncodeFields([a]) == Encode(a)
  {
    hide Encode, FieldOk, EncodeFields;
    EncodeNil();
    EncodeSnoc([], a);
    assert [] + [a] == [a] && [] + Encode(a) == Encode(a);
  }

  lemma EncodeTwo(a: Field, b: Field)
    requires FieldOk(a) && FieldOk(b)
    ensures EncodeFields([a, b]) == Encode(a) + Encode(b)
  {
    hide Encode, FieldOk, EncodeFields;
    EncodeNil();
    EncodeSnoc([], a);
    EncodeSnoc([a], b);
    assert [] + [a] == [a] && [a] + [b] == [a, b] && [] + Encode(a) == Encode(a);
  }

  lemma EncodeThree(a: Field, b: Field, c: Field)
    requires FieldOk(a) && FieldOk(b) && FieldOk(c)
    ensures EncodeFields([a, b, c]) == Encode(a) + Encode(b) + Encode(c)
  {
    hide Encode, FieldOk, EncodeFields;
    EncodeTwo(a, b);
    EncodeSnoc([a, b], c);
    assert [a, b] + [c] == [a, b, c];
  }

  lemma {:induction false} EncodeFive(a: Field, b: Field, c: Field, d: Field, e: Field)
    requires FieldOk(a) && FieldOk(b) && FieldOk(c) && FieldOk(d) && FieldOk(e)
    ensures EncodeFields([a, b, c, d, e]) == Encode(a) + Encode(b) + Encode(c) + Encode(d) + Encode(e)
  {
    hide Encode, FieldOk, EncodeFields;
    EncodeNil();
    EncodeSnoc([], a);
    EncodeSnoc([a], b);
    EncodeSnoc([a, b], c);
    EncodeSnoc([a, b, c], d);
    EncodeSnoc([a, b, c, d], e);
    assert [] + [a] == [a] && [a] + [b] == [a, b] && [a, b] + [c] == [a, b, c];
    assert [a, b, c] + [d] == [a, b, c, d] && [a, b, c, d] + [e] == [a, b, c, d, e];
    assert [] + Encode(a) == Encode(a);
  }

  lemma EncodeNil()
    ensures EncodeFields([]) == []
  {
  }

  /** The credential body is exactly the 36 bytes announced. */
  lemma CredIs36Bytes()
    ensures FieldsOk(CredFields(CLIENT_CRED)) && |CredBytes()| == 36
    ensures CredBytes() == Be32(0x111ff274) + (Be32(15) + MACHINE + [0]) + Be32(0) + Be32(0) + Be32(0)
    ensures DecodeCred(CredBytes()) == Some(CLIENT_CRED)
  {
    var c := CLIENT_CRED;
    EncodeFive(U32(c.stamp), Opaque(c.machine), U32(c.uid), U32(c.gid), U32(0));
    assert Zeros(Fill(15)) == [0];
    KindsRoundTrip(CredFields(c), []);
    assert KindsOf(CredFields(c)) == CRED_KINDS;
    assert CredBytes() + [] == CredBytes();
  }

  const FIRST_FIVE: seq<Field> := [U32(0), U32(2), U32(NFS_PROGRAM), U32(4), U32(1)]

  function NextFive(cred: seq<u8>): seq<Field> {
    [U32(1), Opaque(cred), U32(0), Opaque([]), Opaque([])]
  }

  lemma TailOk(cred: seq<u8>)
    requires Short(cred)
    ensures FieldsOk(FIRST_FIVE) && FieldsOk(NextFive(cred)) && FieldsOk(FIRST_FIVE + NextFive(cred))
            && FieldsOk(HeaderTail(cred))
    ensures HeaderTail(cred) == FIRST_FIVE + NextFive(cred) + [U32(1)]
  {
    assert FieldsOk(FIRST_FIVE);
    assert FieldsOk(NextFive(cred));
  }

  lemma HeaderKinds(xid: u32, cred: seq<u8>)
    ensures KindsOf(HeaderFields(xid, cred)) == HEADER_KINDS
  {
    var fs := HeaderFields(xid, cred);
    assert forall i | 0 <= i < 12 :: KindOf(fs[i]) == HEADER_KINDS[i];
  }

  lemma HeaderOk(xid: u32)
    ensures FieldsOk(HeaderTail(CredBytes())) && FieldsOk(HeaderFields(xid, CredBytes()))
  {
    CredIs36Bytes();
    hide CredBytes;
    TailOk(CredBytes());
    hide HeaderTail;
    CodeEncoded(xid);
  }

  function Header(xid: u32): seq<u8> {
    HeaderOk(xid);
    EncodeFields(HeaderFields(xid, CredBytes()))
  }

  // All of the header but its xid, which no request changes.
  function HeaderRest(): seq<u8> {
    HeaderOk(0);
    EncodeFields(HeaderTail(CredBytes()))
  }

  lemma HeaderShape(xid: u32)
    ensures Header(xid) == Be32(xid) + HeaderRest()
    ensures |HeaderRest()| == 80
    ensures HeaderRest()[52..76] == Zeros(24)
  {
    HeaderOk(xid);
    CodeEncoded(xid);
    EncodeCons(U32(xid), HeaderTail(CredBytes()));
    HeaderRestShape();
  }

  lemma NextFiveShape(cred: seq<u8>, front: seq<u8>)
    requires |front| == 24 && cred == front + Zeros(12)
    ensures FieldsOk(NextFive(cred))
    ensures EncodeFields(NextFive(cred)) == (Be32(1) + Be32(36) + front) + Zeros(24)
  {
    hide EncodeFields;
    assert FieldOk(Opaque(cred));
    EncodeFive(U32(1), Opaque(cred), U32(0), Opaque([]), Opaque([]));
    assert Zeros(Fill(36)) == [] && Zeros(Fill(0)) == [] && Be32(0) == Zeros(4);
    assert Encode(Opaque(cred)) == Be32(36) + cred;
    assert Encode(Opaque([])) == Zeros(4);
    assert Zeros(12) + Zeros(4) + Zeros(4) + Zeros(4) == Zeros(24);
  }

  lemma CredFront() returns (front: seq<u8>)
    ensures |front| == 24 && CredBytes() == front + Zeros(12)
  {
    CredIs36Bytes();
    hide CredBytes;
    front := Be32(0x111ff274) + (Be32(15) + MACHINE + [0]);
    assert Be32(0) == Zeros(4) && Zeros(4) + Zeros(4) + Zeros(4) == Zeros(12);
    assert CredBytes() == front + (Zeros(4) + Zeros(4) + Zeros(4));
  }

  lemma HeaderRestShape()
    ensures |HeaderRest()| == 80 && HeaderRest()[52..76] == Zeros(24)
  {
    HeaderOk(0);
    var front := CredFront();
    var cred := CredBytes();
    hide CredBytes, EncodeFields;
    TailOk(cred);
    hide HeaderTail, NextFive, FIRST_FIVE;
    FirstFiveIs20Bytes();
    NextFiveShape(cred, front);
    EncodeAppend(FIRST_FIVE, NextFive(cred));
    CodeEncoded(1);
    EncodeSnoc(FIRST_FIVE + NextFive(cred), U32(1));
    var before := EncodeFields(FIRST_FIVE) + (Be32(1) + Be32(36) + front);
    assert |before| == 52;
    assert HeaderRest() == before + Zeros(24) + Be32(1);
  }

  lemma FirstFiveIs20Bytes()
    ensures FieldsOk(FIRST_FIVE) && |EncodeFields(FIRST_FIVE)| == 20
  {
    hide EncodeFields;
    EncodeFive(U32(0), U32(2), U32(NFS_PROGRAM), U32(4), U32(1));
  }

  function Body(ops: seq<Op>): seq<u8>
    requires OpsOk(ops)
  {
    OpsFieldsOk(ops);
    EncodeFields(OpsFields(ops))
  }

  /** The record: mark, header, operation count, operations. */
  function EncodeCall(xid: u32, ops: seq<Op>): seq<u8>
    requires OpsOk(ops) && Fits(ops)
  {
    var record := Header(xid) + Be32(|ops|) + Body(ops);
    HeaderShape(xid);
    Be32(LAST_FRAGMENT + |record|) + record
  }

  predicate Fits(ops: seq<Op>)
    requires OpsOk(ops)
  {
    88 + |Body(ops)| < LAST_FRAGMENT
  }

  /** Every request the client encodes is read back as exactly the call it stands for. */
  lemma CallRoundTrip(xid: u32, ops: seq<Op>)
    requires OpsOk(ops) && Fits(ops)
    ensures DecodeCall(EncodeCall(xid, ops)) == Some(RpcCall(xid, CLIENT_CRED, 1, ops))
  {
    hide DecodeKinds, DecodeOps, EncodeFields, CredBytes, Encode, DecodeCred, FieldOk, OpOk;
    CredIs36Bytes();
    HeaderOk(xid);
    HeaderShape(xid);
    var body := Body(ops);
    var record := Header(xid) + Be32(|ops|) + body;
    TakeU32Encoded(LAST_FRAGMENT + |record|, record);
    var counted := Be32(|ops|) + body;
    assert record == Header(xid) + counted;
    HeaderKinds(xid, CredBytes());
    KindsRoundTrip(HeaderFields(xid, CredBytes()), counted);
    TakeU32Encoded(|ops|, body);
    OpsRoundTrip(ops, []);
    assert body + [] == body;
  }
}
