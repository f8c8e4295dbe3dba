/** Building requests in place: allocate_rpc, the push_* functions over a growable buffer, and rpc_send,
    proved to put on the wire exactly the encoding of the intended operation list. */
module Rpc {
  import opened Bytes
  import opened Buffer
  import opened Wire
  import opened Call
  import opened Replay

  const INITIAL_CAPACITY: nat := 16384
  // What an empty request already takes: mark, header, operation count.
  const PROLOGUE: nat := 92

  /** struct client: one connection to a server, with its two buffers. */
  class Client {
    var xid: u32
    var clientid: seq<u8>
    var session: seq<u8>
    var sequence: u32
    var serverSequence: u32
    var verifier: seq<u8>
    var owner: seq<u8>          // the open- and lock-owner string
    var maxreq: u32
    var maxresp: u32
    var maxops: u32
    var maxreqs: u32
    var rootFhLen: nat
    var rootFh: seq<u8>         // always FHSIZE bytes, of which rootFhLen are meaningful
    const forward: ByteBuffer
    const reverse: ByteBuffer

    ghost predicate Shaped()
      reads this
    {
      && |clientid| == 8 && |session| == 16 && |verifier| == 8 && |owner| < 1024
      && |rootFh| == FHSIZE && rootFhLen <= FHSIZE
    }

    ghost predicate Valid()
      reads this, forward, reverse
    {
      && Shaped()
      && forward != reverse && forward.contents != reverse.contents
      && forward.Valid() && reverse.Valid()
      && forward.contents.Length >= INITIAL_CAPACITY && reverse.contents.Length >= INITIAL_CAPACITY
    }

    constructor (xid: u32, clientid: seq<u8>, session: seq<u8>, verifier: seq<u8>, owner: seq<u8>,
                 maxreq: u32, maxresp: u32, maxops: u32, maxreqs: u32, rootFh: seq<u8>, rootFhLen: nat)
      requires |clientid| == 8 && |session| == 16 && |verifier| == 8 && |owner| < 1024
      requires |rootFh| == FHSIZE && rootFhLen <= FHSIZE
      ensures Valid() && fresh(forward) && fresh(reverse) && fresh(forward.contents) && fresh(reverse.contents)
      ensures this.xid == xid && this.session == session && this.clientid == clientid && this.verifier == verifier
      ensures this.owner == owner && sequence == 0 && serverSequence == 0
      ensures this.maxreq == maxreq && this.maxresp == maxresp && this.maxops == maxops && this.maxreqs == maxreqs
      ensures this.rootFh == rootFh && this.rootFhLen == rootFhLen
    {
      this.xid, this.clientid, this.session, this.verifier, this.owner := xid, clientid, session, verifier, owner;
      this.maxreq, this.maxresp, this.maxops, this.maxreqs := maxreq, maxresp, maxops, maxreqs;
      this.rootFh, this.rootFhLen := rootFh, rootFhLen;
      sequence, serverSequence := 0, 0;
      forward := new ByteBuffer(INITIAL_CAPACITY);
      reverse := new ByteBuffer(INITIAL_CAPACITY);
    }
  }

  // `b` holds `s`, and has room to spare.
  ghost predicate Reads(b: ByteBuffer, s: seq<u8>)
    reads b, b.contents
  {
    && b.Valid() && b.start == 0 && b.end < 1000 && b.Amortised() && b.contents.Length >= INITIAL_CAPACITY
    && b.Contents() == s
  }

  // `b` holds `lead` and then the header fields `fs`.
  ghost predicate Holds(b: ByteBuffer, lead: seq<u8>, fs: seq<Field>)
    reads b, b.contents
  {
    FieldsOk(fs) && Reads(b, lead + EncodeFields(fs))
  }

  lemma HoldsMore(b: ByteBuffer, lead: seq<u8>, fs: seq<Field>, f: Field)
    requires FieldsOk(fs) && FieldOk(f) && Reads(b, lead + EncodeFields(fs) + Encode(f))
    ensures Holds(b, lead, fs + [f])
  {
    hide EncodeFields, Encode, FieldOk;
    EncodeSnoc(fs, f);
    assert lead + EncodeFields(fs) + Encode(f) == lead + (EncodeFields(fs) + Encode(f));
  }

  method PushHeaderWord(b: ByteBuffer, w: u32, ghost lead: seq<u8>, ghost fs: seq<Field>)
    returns (ghost fs': seq<Field>)
    requires Holds(b, lead, fs) && b.end < 900
    modifies b, b.contents
    ensures Holds(b, lead, fs') && fs' == fs + [U32(w)]
    ensures b.end == old(b.end) + 4 && b.contents == old(b.contents)
  {
    hide EncodeFields, Be32;
    b.PushBe32(w);
    CodeEncoded(w);
    HoldsMore(b, lead, fs, U32(w));
    fs' := fs + [U32(w)];
  }

  lemma EmptyEncoded()
    ensures Encode(Opaque([])) == Be32(0)
  {
    assert Zeros(Fill(0)) == [];
  }

  // A zero length: an opaque with no bytes.
  method PushHeaderEmpty(b: ByteBuffer, ghost lead: seq<u8>, ghost fs: seq<Field>) returns (ghost fs': seq<Field>)
    requires Holds(b, lead, fs) && b.end < 900
    modifies b, b.contents
    ensures Holds(b, lead, fs') && fs' == fs + [Opaque([])]
    ensures b.end == old(b.end) + 4 && b.contents == old(b.contents)
  {
    hide EncodeFields, Encode, Be32;
    b.PushBe32(0);
    EmptyEncoded();
    HoldsMore(b, lead, fs, Opaque([]));
    fs' := fs + [Opaque([])];
  }

  lemma Regroup(len: seq<u8>, stamp: seq<u8>, machine: seq<u8>, zero: seq<u8>)
    ensures len + (stamp + machine + zero + zero + zero) == len + stamp + machine + zero + zero + zero
  {
  }

  lemma RegroupAfter(before: seq<u8>, len: seq<u8>, stamp: seq<u8>, machine: seq<u8>, zero: seq<u8>)
    ensures before + len + stamp + machine + zero + zero + zero == before + (len + stamp + machine + zero + zero + zero)
  {
  }

  lemma CredEncoded()
    ensures FieldOk(Opaque(CredBytes()))
    ensures Encode(Opaque(CredBytes()))
            == Be32(36) + Be32(0x111ff274) + (Be32(15) + MACHINE + Zeros(Fill(15))) + Be32(0) + Be32(0) + Be32(0)
  {
    hide Be32, CredBytes, Encode, Zeros, Fill, EncodeFields, DecodeCred, CredFields;
    CredIs36Bytes();
    CredPads();
    OpaqueEncoded(CredBytes());
    var c, stamp, machine := CredBytes(), Be32(0x111ff274), Be32(15) + MACHINE + [0];
    Regroup(Be32(36), stamp, machine, Be32(0));
    assert Be32(36) + c + [] == Be32(36) + c;
  }

  lemma CredPads()
    ensures Zeros(Fill(36)) == [] && Zeros(Fill(15)) == [0]
  {
  }

  lemma OpaqueEncoded(x: seq<u8>)
    requires Short(x)
    ensures FieldOk(Opaque(x)) && Encode(Opaque(x)) == Be32(|x|) + x + Zeros(Fill(|x|))
  {
  }

  lemma FixedEncoded(x: seq<u8>)
    requires x != []
    ensures FieldOk(Fixed(x)) && Encode(Fixed(x)) == x + Zeros(Fill(|x|))
  {
  }

  method PushWord(b: ByteBuffer, w: u32, ghost s: seq<u8>)
    requires Reads(b, s) && b.end < 990
    modifies b, b.contents
    ensures Reads(b, s + Be32(w)) && b.end == old(b.end) + 4 && b.contents == old(b.contents)
  {
    hide Be32;
    b.PushBe32(w);
  }

  method PushMachine(b: ByteBuffer, ghost s: seq<u8>)
    requires Reads(b, s) && b.end < 970
    modifies b, b.contents
    ensures Reads(b, s + (Be32(15) + MACHINE + Zeros(Fill(15)))) && b.end == old(b.end) + 20
    ensures b.contents == old(b.contents)
  {
    hide Be32, Zeros;
    b.PushString(MACHINE);
  }

  // The credential: its length, stamp, machine name, uid, gid, and no auxiliary groups.
  method PushCred(b: ByteBuffer, ghost lead: seq<u8>, ghost fs: seq<Field>) returns (ghost fs': seq<Field>)
    requires Holds(b, lead, fs) && b.end < 900
    modifies b, b.contents
    ensures Holds(b, lead, fs') && fs' == fs + [Opaque(CredBytes())]
    ensures b.end == old(b.end) + 40 && b.contents == old(b.contents)
  {
    hide EncodeFields, Encode, CredBytes, Be32, Zeros, Reads, FieldsOk;
    var stamp := 0x111ff274;
    ghost var s, machine := lead + EncodeFields(fs), Be32(15) + MACHINE + Zeros(Fill(15));
    PushWord(b, 36, s);
    PushWord(b, stamp, s + Be32(36));
    PushMachine(b, s + Be32(36) + Be32(stamp));
    PushWord(b, 0, s + Be32(36) + Be32(stamp) + machine);
    PushWord(b, 0, s + Be32(36) + Be32(stamp) + machine + Be32(0));
    PushWord(b, 0, s + Be32(36) + Be32(stamp) + machine + Be32(0) + Be32(0));
    CredEncoded();
    RegroupAfter(s, Be32(36), Be32(stamp), machine, Be32(0));
    HoldsMore(b, lead, fs, Opaque(CredBytes()));
    fs' := fs + [Opaque(CredBytes())];
  }

  // The RPC header and the start of the COMPOUND, word by word as allocate_rpc pushes them.
  method PushHeader(b: ByteBuffer, xid: u32)
    requires b.Valid() && b.start == 0 && b.end == 4 && b.Amortised() && b.contents.Length >= INITIAL_CAPACITY
    modifies b, b.contents
    ensures b.Valid() && b.start == 0 && b.end == 88 && b.Amortised()
    ensures b.contents == old(b.contents)
    ensures b.Contents() == old(b.Contents()) + Header(xid)
  {
    hide CredBytes, EncodeFields, Be32, Holds, HeaderFields;
    ghost var lead := b.Contents();
    HoldsNothing(b);
    ghost var fs := PushHeaderWord(b, xid, lead, []);
    fs := PushHeaderWord(b, 0, lead, fs);               // CALL
    fs := PushHeaderWord(b, 2, lead, fs);               // RPC version
    fs := PushHeaderWord(b, NFS_PROGRAM, lead, fs);
    fs := PushHeaderWord(b, 4, lead, fs);               // program version
    fs := PushHeaderWord(b, 1, lead, fs);               // COMPOUND
    fs := PushHeaderWord(b, 1, lead, fs);               // AUTH_SYS
    fs := PushCred(b, lead, fs);
    fs := PushHeaderWord(b, 0, lead, fs);               // AUTH_NONE verifier
    fs := PushHeaderEmpty(b, lead, fs);
    fs := PushHeaderEmpty(b, lead, fs);                 // tag
    fs := PushHeaderWord(b, 1, lead, fs);               // minor version
    HeaderIsList(xid, CredBytes());
    HoldsMeans(b, lead, fs);
  }

  // The mark and the count are left to be filled in; the space for the count is taken without a check.
  method PushPrologue(b: ByteBuffer, xid: u32)
    requires b.Valid() && b.contents.Length >= INITIAL_CAPACITY
    modifies b, b.contents
    ensures b.Valid() && b.start == 0 && b.end == PROLOGUE && b.Amortised() && b.contents == old(b.contents)
    ensures b.Contents()[4..88] == Header(xid)
  {
    hide Header, Be32;
    b.start, b.end, b.copied := 0, 0, 0;
    b.PushBe32(0);
    PushHeader(b, xid);
    ghost var before := b.Contents();
    b.end := b.end + 4;
    assert b.Contents()[4..88] == before[4..88] == Header(xid);
  }

  lemma HeaderIsList(xid: u32, cred: seq<u8>)
    ensures HeaderFields(xid, cred)
            == [] + [U32(xid)] + [U32(0)] + [U32(2)] + [U32(NFS_PROGRAM)] + [U32(4)] + [U32(1)] + [U32(1)]
               + [Opaque(cred)] + [U32(0)] + [Opaque([])] + [Opaque([])] + [U32(1)]
  {
  }

  lemma HoldsMeans(b: ByteBuffer, lead: seq<u8>, fs: seq<Field>)
    requires Holds(b, lead, fs)
    ensures b.Valid() && b.start == 0 && b.Amortised() && FieldsOk(fs) && b.Contents() == lead + EncodeFields(fs)
  {
  }

  lemma HoldsNothing(b: ByteBuffer)
    requires b.Valid() && b.start == 0 && b.end == 4 && b.Amortised() && b.contents.Length >= INITIAL_CAPACITY
    ensures Holds(b, b.Contents(), [])
  {
  }

  lemma RawEncoded(x: seq<u8>)
    requires x != [] && |x| % 4 == 0
    ensures FieldOk(Fixed(x)) && Encode(Fixed(x)) == x
  {
    assert Zeros(Fill(|x|)) == [];
  }

  predicate StartsWithSequence(ops: seq<Op>) {
    |ops| > 0 && ops[0].Sequence? && ops[0] == Seq(ops[0].session, ops[0].seqid)
  }

  const AUTHOR: seq<u8> := [101, 100, 117, 46, 98, 101, 114, 107, 101, 108, 101, 121]  // "edu.berkeley"
  // "NFS for Serverless v. 0.1-snapshot"
  const VERSION: seq<u8> := [78, 70, 83, 32, 102, 111, 114, 32, 83, 101, 114, 118, 101, 114, 108, 101, 115, 115,
                             32, 118, 46, 32, 48, 46, 49, 45, 115, 110, 97, 112, 115, 104, 111, 116]

  lemma ExchangeIdFills()
    ensures Fill(16) == 0 && |AUTHOR| == 12 && Fill(12) == 0 && |VERSION| == 34 && Fill(34) == 2
  {
  }

  function Attrs(c: Client): Channel
    reads c
  {
    Channel(0, c.maxreq, c.maxresp, 1024 * 1024, c.maxops, c.maxreqs)
  }

  function How(create: bool): OpenHow {
    if create then CreateUnchecked(0, 2, Be32(0x1a4)) else NoCreate
  }

  lemma PairAfter(before: seq<u8>, x: seq<u8>, y: seq<u8>)
    ensures before + x + y == before + (x + y)
  {
  }

  lemma ModeEncoded()
    ensures FieldOk(Opaque(Be32(0x1a4))) && Encode(Opaque(Be32(0x1a4))) == Be32(4) + Be32(0x1a4)
  {
    assert Zeros(Fill(4)) == [];
  }

  function NewLocker(client: seq<u8>, owner: seq<u8>, s: Stateid): seq<Field> {
    [U32(1), U32(0)] + SidFields(s) + [U32(0), Fixed(client), Opaque(owner)]
  }

  lemma LockParts(kind: u32, offset: u64, length: u64, s: Stateid, client: seq<u8>, owner: seq<u8>)
    ensures [U32(OP_LOCK), U32(kind), U32(0), U64(offset), U64(length)] + NewLocker(client, owner, s)
            == OpFields(Lock(kind, 0, offset, length, 0, s, 0, client, owner))
  {
  }

  lemma SequenceParts(session: seq<u8>, seqid: u32)
    ensures [U32(OP_SEQUENCE), Fixed(session), U32(seqid)] + [U32(0), U32(0), U32(0)] == OpFields(Seq(session, seqid))
  {
  }

  lemma ReadParts(s: Stateid, offset: u64, length: u32)
    ensures [U32(OP_READ)] + (SidFields(s) + [U64(offset), U32(length)]) == OpFields(Read(s, offset, length))
  {
  }

  lemma WriteParts(s: Stateid, offset: u64, stable: u32, data: seq<u8>)
    ensures [U32(OP_WRITE)] + (SidFields(s) + [U64(offset), U32(stable), Opaque(data)])
            == OpFields(Write(s, offset, stable, data))
  {
  }

  lemma LockUParts(kind: u32, s: Stateid, offset: u64, length: u64)
    ensures [U32(OP_LOCKU), U32(kind), U32(0)] + (SidFields(s) + [U64(offset), U64(length)])
            == OpFields(LockU(kind, 0, s, offset, length))
  {
  }

  const IMPLEMENTATION: seq<Field> := [U32(1), Opaque(AUTHOR), Opaque(VERSION), U64(0), U32(0)]

  lemma ExchangeIdParts(verifier: seq<u8>, owner: seq<u8>)
    ensures [U32(OP_EXCHANGE_ID), Fixed(verifier), Opaque(owner), U32(0), U32(0)] + IMPLEMENTATION
            == OpFields(ExchangeId(verifier, owner, 0, AUTHOR, VERSION, 0, 0))
  {
  }

  function SessionFields(attrs: Channel): seq<Field> {
    ChannelFields(attrs) + ChannelFields(attrs) + [U32(0x7b), U32(1), U32(0)]
  }

  lemma CreateSessionParts(client: seq<u8>, createSeq: u32, attrs: Channel)
    ensures [U32(OP_CREATE_SESSION), Fixed(client), U32(createSeq), U32(1)] + SessionFields(attrs)
            == OpFields(CreateSession(client, createSeq, 1, attrs, attrs, 0x7b))
  {
  }

  function OpenRest(client: seq<u8>, owner: seq<u8>, create: bool, name: seq<u8>): seq<Field> {
    [Fixed(client), Opaque(owner)] + HowFields(How(create)) + [U32(0), Opaque(name)]
  }

  lemma OpenParts(access: u32, client: seq<u8>, owner: seq<u8>, create: bool, name: seq<u8>)
    ensures [U32(OP_OPEN), U32(0), U32(access), U32(0)] + OpenRest(client, owner, create, name)
            == OpFields(Open(0, access, 0, client, owner, How(create), name))
  {
  }

  /** struct rpc: a request under construction in one of the client's buffers. */
  class Request {
    const b: ByteBuffer
    var opcountloc: nat
    var opcount: nat
    ghost var xid: u32
    ghost var fields: seq<Field>  // everything pushed after the operation count
    ghost var ops: seq<Op>        // the operations pushed so far

    // The buffer holds a mark to be filled in, the header, a count to be filled in, and the fields.
    ghost predicate Raw()
      reads this, b, b.contents
    {
      && b.Valid() && b.start == 0 && PROLOGUE <= b.end
      && opcountloc == 88
      && FieldsOk(fields)
      && b.Contents()[4..88] == Header(xid)
      && b.Contents()[PROLOGUE..] == EncodeFields(fields)
    }

    ghost predicate Valid()
      reads this, b, b.contents
    {
      Raw() && opcount == |ops| && fields == OpsFields(ops)
    }

    // Nothing was written but this request and its buffer, which may have been reallocated.
    twostate predicate Grown(n: nat)
      reads this, b
    {
      && (b.contents == old(b.contents) || fresh(b.contents))
      && b.contents.Length >= old(b.contents.Length)
      && b.end == old(b.end) + n
      && xid == old(xid)
    }

    /** allocate_rpc: empty the buffer and push everything up to the operation count. */
    constructor Allocate(c: Client, b: ByteBuffer)
      requires b.Valid() && b.contents.Length >= INITIAL_CAPACITY
      modifies c`xid, b, b.contents
      ensures this.b == b && Valid() && ops == [] && xid == c.xid == Next32(old(c.xid)) && b.end == PROLOGUE
      ensures b.contents == old(b.contents) && b.Amortised()
    {
      this.b := b;
      opcountloc, opcount, fields, ops := 88, 0, [], [];
      xid := Next32(c.xid);
      new;
      hide EncodeFields, Header, Be32;
      EncodeNil();
      c.xid := Next32(c.xid);
      PushPrologue(b, c.xid);
    }

    // ---------- Single fields ----------

    lemma Pushed(before: seq<u8>, f: Field)
      requires b.Valid() && b.start == 0 && opcountloc == 88 && FieldsOk(fields) && FieldOk(f)
      requires |before| >= PROLOGUE && before[4..88] == Header(xid) && before[PROLOGUE..] == EncodeFields(fields)
      requires b.Contents() == before + Encode(f)
      ensures FieldsOk(fields + [f])
      ensures b.Contents()[4..88] == Header(xid) && b.Contents()[PROLOGUE..] == EncodeFields(fields + [f])
    {
      hide Encode, FieldOk, EncodeFields, Header;
      EncodeSnoc(fields, f);
      assert b.Contents()[4..88] == before[4..88];
      assert b.Contents()[PROLOGUE..] == before[PROLOGUE..] + Encode(f);
    }

    method PushBe32(w: u32)
      requires Raw() && b.end + 4 < LIMIT
      modifies b, b.contents, this`fields
      ensures Raw() && Grown(4) && fields == old(fields) + [U32(w)]
    {
      hide Header;
      b.PushBe32(w);
      CodeEncoded(w);
      Pushed(old(b.Contents()), U32(w));
      fields := fields + [U32(w)];
    }

    method PushBe64(d: u64)
      requires Raw() && b.end + 8 < LIMIT
      modifies b, b.contents, this`fields
      ensures Raw() && Grown(8) && fields == old(fields) + [U64(d)]
    {
      hide Header;
      b.PushBe64(d);
      Pushed(old(b.Contents()), U64(d));
      fields := fields + [U64(d)];
    }

    method PushBoolean(x: bool)
      requires Raw() && b.end + 4 < LIMIT
      modifies b, b.contents, this`fields
      ensures Raw() && Grown(4) && fields == old(fields) + [U32(if x then 1 else 0)]
    {
      PushBe32(if x then 1 else 0);
    }

    method PushString(x: seq<u8>)
      requires Raw() && b.end + |x| + 8 < LIMIT
      modifies b, b.contents, this`fields
      ensures Raw() && Grown(4 + |x| + Fill(|x|)) && fields == old(fields) + [Opaque(x)]
    {
      hide Header, Encode, FieldOk, EncodeFields, Be32, Zeros;
      OpaqueEncoded(x);
      b.PushString(x);
      Pushed(old(b.Contents()), Opaque(x));
      fields := fields + [Opaque(x)];
    }

    /** push_session_id, push_client_id and the verifier: raw bytes, a multiple of four of them. */
    method PushRaw(x: seq<u8>)
      requires Raw() && b.end + |x| < LIMIT && x != [] && |x| % 4 == 0
      modifies b, b.contents, this`fields
      ensures Raw() && Grown(|x|) && fields == old(fields) + [Fixed(x)]
    {
      hide Header, Encode, FieldOk;
      b.PushBytes(x);
      RawEncoded(x);
      Pushed(old(b.Contents()), Fixed(x));
      fields := fields + [Fixed(x)];
    }

    method PushFixedString(x: seq<u8>)
      requires Raw() && b.end + |x| + 8 < LIMIT && x != []
      modifies b, b.contents, this`fields
      ensures Raw() && Grown(|x| + Fill(|x|)) && fields == old(fields) + [Fixed(x)]
    {
      hide Header, Encode, FieldOk, EncodeFields, Zeros;
      FixedEncoded(x);
      b.PushFixedString(x);
      Pushed(old(b.Contents()), Fixed(x));
      fields := fields + [Fixed(x)];
    }

    method PushOp(code: u32)
      requires Raw() && b.end + 4 < LIMIT
      modifies b, b.contents, this`fields, this`opcount
      ensures Raw() && Grown(4) && fields == old(fields) + [U32(code)] && opcount == old(opcount) + 1
    {
      PushBe32(code);
      opcount := opcount + 1;
    }

    // ---------- Whole operations ----------

    // The fields of `op` are complete: it joins the list.
    ghost method Finish(op: Op)
      requires Raw() && fields == OpsFields(ops) + OpFields(op) && opcount == |ops| + 1
      modifies this`ops
      ensures Valid() && ops == old(ops) + [op]
    {
      hide Header;
      OpsFieldsSnoc(ops, op);
      ops := ops + [op];
    }

    // The same for fields that were pushed in two parts.
    ghost method FinishParts(op: Op, base: seq<Field>, a: seq<Field>, rest: seq<Field>)
      requires Raw() && base == OpsFields(ops) && opcount == |ops| + 1
      requires fields == base + a + rest && a + rest == OpFields(op)
      modifies this`ops
      ensures Valid() && ops == old(ops) + [op]
    {
      hide Header, Raw, OpFields;
      assert base + a + rest == base + (a + rest);
      Finish(op);
    }

    // Always slot 0, the only one, and nothing to be cached.
    method PushSlot()
      requires Raw() && b.end + 12 < LIMIT
      modifies b, b.contents, this`fields
      ensures Raw() && Grown(12) && fields == old(fields) + [U32(0), U32(0), U32(0)]
    {
      hide Header, Raw;
      PushBe32(0);  // slot
      PushBe32(0);  // highest slot
      PushBe32(0);  // cache this
    }

    method PushSequence(c: Client)
      requires Valid() && c.Shaped() && b.end + 40 < LIMIT
      modifies b, b.contents, this`fields, this`opcount, this`ops, c`sequence
      ensures Valid() && Grown(36) && c.sequence == Next32(old(c.sequence))
      ensures ops == old(ops) + [Seq(c.session, old(c.sequence))]
    {
      hide Header, Raw, OpFields, OpsFields;
      ghost var base := fields;
      PushOp(OP_SEQUENCE);
      PushRaw(c.session);
      PushBe32(c.sequence);
      ghost var a := [U32(OP_SEQUENCE), Fixed(c.session), U32(c.sequence)];
      assert fields == base + a;
      PushSlot();
      SequenceParts(c.session, c.sequence);
      FinishParts(Seq(c.session, c.sequence), base, a, [U32(0), U32(0), U32(0)]);
      c.sequence := Next32(c.sequence);
    }

    method PushPutFh(fh: seq<u8>)
      requires Valid() && b.end + |fh| + 16 < LIMIT
      modifies b, b.contents, this`fields, this`opcount, this`ops
      ensures Valid() && Grown(8 + |fh| + Fill(|fh|)) && ops == old(ops) + [PutFh(fh)]
    {
      hide Header, Raw, Fill;
      PushOp(OP_PUTFH);
      PushString(fh);
      Finish(PutFh(fh));
    }

    method PushPutRootFh()
      requires Valid() && b.end + 4 < LIMIT
      modifies b, b.contents, this`fields, this`opcount, this`ops
      ensures Valid() && Grown(4) && ops == old(ops) + [PutRootFh]
    {
      hide Header, Raw, Fill;
      PushOp(OP_PUTROOTFH);
      Finish(PutRootFh);
    }

    method PushGetFh()
      requires Valid() && b.end + 4 < LIMIT
      modifies b, b.contents, this`fields, this`opcount, this`ops
      ensures Valid() && Grown(4) && ops == old(ops) + [GetFh]
    {
      hide Header, Raw, Fill;
      PushOp(OP_GETFH);
      Finish(GetFh);
    }

    method PushLookup(name: seq<u8>)
      requires Valid() && b.end + |name| + 16 < LIMIT
      modifies b, b.contents, this`fields, this`opcount, this`ops
      ensures Valid() && Grown(8 + |name| + Fill(|name|)) && ops == old(ops) + [Lookup(name)]
    {
      hide Header, Raw, Fill;
      PushOp(OP_LOOKUP);
      PushString(name);
      Finish(Lookup(name));
    }

    method PushRemove(name: seq<u8>)
      requires Valid() && b.end + |name| + 16 < LIMIT
      modifies b, b.contents, this`fields, this`opcount, this`ops
      ensures Valid() && Grown(8 + |name| + Fill(|name|)) && ops == old(ops) + [Remove(name)]
    {
      hide Header, Raw, Fill;
      PushOp(OP_REMOVE);
      PushString(name);
      Finish(Remove(name));
    }

    method PushGetAttr(mask: u32)
      requires Valid() && b.end + 12 < LIMIT
      modifies b, b.contents, this`fields, this`opcount, this`ops
      ensures Valid() && Grown(12) && ops == old(ops) + [GetAttr(mask)]
    {
      hide Header, Raw, Fill;
      PushOp(OP_GETATTR);
      PushBe32(1);
      PushBe32(mask);
      Finish(GetAttr(mask));
    }

    method PushStateid(s: Stateid)
      requires Raw() && SidOk(s) && b.end + 24 < LIMIT
      modifies b, b.contents, this`fields
      ensures Raw() && Grown(16) && fields == old(fields) + SidFields(s)
    {
      hide Header, Raw, Fill;
      PushBe32(s.seqid);
      PushFixedString(s.other);
    }

    method PushOwner(c: Client)
      requires Raw() && c.Shaped() && b.end + 8 + |c.owner| + 8 < LIMIT
      modifies b, b.contents, this`fields
      ensures Raw() && Grown(12 + |c.owner| + Fill(|c.owner|))
              && fields == old(fields) + [Fixed(c.clientid), Opaque(c.owner)]
    {
      hide Header, Raw, Fill;
      PushRaw(c.clientid);
      PushString(c.owner);
    }

    method PushRead(s: Stateid, offset: u64, length: u32)
      requires Valid() && SidOk(s) && b.end + 48 < LIMIT
      modifies b, b.contents, this`fields, this`opcount, this`ops
      ensures Valid() && Grown(32) && ops == old(ops) + [Read(s, offset, length)]
    {
      hide Header, Raw, Fill, OpFields, OpsFields, SidFields;
      ghost var base := fields;
      PushOp(OP_READ);
      PushStateid(s);
      PushBe64(offset);
      PushBe32(length);
      ghost var rest := SidFields(s) + [U64(offset), U32(length)];
      assert fields == base + [U32(OP_READ)] + rest;
      ReadParts(s, offset, length);
      FinishParts(Read(s, offset, length), base, [U32(OP_READ)], rest);
    }

    method PushWrite(s: Stateid, offset: u64, stable: u32, data: seq<u8>)
      requires Valid() && SidOk(s) && b.end + |data| + 48 < LIMIT
      modifies b, b.contents, this`fields, this`opcount, this`ops
      ensures Valid() && Grown(36 + |data| + Fill(|data|)) && ops == old(ops) + [Write(s, offset, stable, data)]
    {
      hide Header, Raw, Fill, OpFields, OpsFields, SidFields;
      ghost var base := fields;
      PushOp(OP_WRITE);
      PushStateid(s);
      PushBe64(offset);
      PushBe32(stable);
      PushString(data);
      ghost var rest := SidFields(s) + [U64(offset), U32(stable), Opaque(data)];
      assert fields == base + [U32(OP_WRITE)] + rest;
      WriteParts(s, offset, stable, data);
      FinishParts(Write(s, offset, stable, data), base, [U32(OP_WRITE)], rest);
    }

    // open_to_lock_owner4: the arm of the LOCK union for a new lock owner.
    method PushNewLocker(c: Client, s: Stateid)
      requires Raw() && c.Shaped() && SidOk(s) && b.end + |c.owner| + 60 < LIMIT
      modifies b, b.contents, this`fields
      ensures Raw() && Grown(40 + |c.owner| + Fill(|c.owner|))
      ensures fields == old(fields) + NewLocker(c.clientid, c.owner, s)
    {
      hide Header, Raw, Fill;
      PushBoolean(true);
      PushBe32(0);
      PushStateid(s);
      PushBe32(0);
      PushOwner(c);
    }

    /** The LOCK of lock_range: always a new lock owner, with the open stateid. */
    method PushRange(kind: u32, offset: u64, length: u64)
      requires Raw() && b.end + 24 < LIMIT
      modifies b, b.contents, this`fields
      ensures Raw() && Grown(24) && fields == old(fields) + [U32(kind), U32(0), U64(offset), U64(length)]
    {
      hide Header, Raw;
      PushBe32(kind);
      PushBoolean(false);  // reclaim
      PushBe64(offset);
      PushBe64(length);
    }

    method PushLock(c: Client, kind: u32, offset: u64, length: u64, s: Stateid)
      requires Valid() && c.Shaped() && SidOk(s) && b.end + |c.owner| + 100 < LIMIT
      modifies b, b.contents, this`fields, this`opcount, this`ops
      ensures Valid() && Grown(68 + |c.owner| + Fill(|c.owner|))
      ensures ops == old(ops) + [Lock(kind, 0, offset, length, 0, s, 0, c.clientid, c.owner)]
    {
      hide Header, Raw, Fill, NewLocker, OpFields, OpsFields;
      ghost var base := fields;
      PushOp(OP_LOCK);
      PushRange(kind, offset, length);
      ghost var a := [U32(OP_LOCK), U32(kind), U32(0), U64(offset), U64(length)];
      assert fields == base + a;
      PushNewLocker(c, s);
      LockParts(kind, offset, length, s, c.clientid, c.owner);
      FinishParts(Lock(kind, 0, offset, length, 0, s, 0, c.clientid, c.owner), base, a,
                  NewLocker(c.clientid, c.owner, s));
    }

    method PushLockU(kind: u32, s: Stateid, offset: u64, length: u64)
      requires Valid() && SidOk(s) && b.end + 60 < LIMIT
      modifies b, b.contents, this`fields, this`opcount, this`ops
      ensures Valid() && Grown(44) && ops == old(ops) + [LockU(kind, 0, s, offset, length)]
    {
      hide Header, Raw, Fill, OpFields, OpsFields, SidFields;
      ghost var base := fields;
      PushOp(OP_LOCKU);
      PushBe32(kind);
      PushBe32(0);
      ghost var a := [U32(OP_LOCKU), U32(kind), U32(0)];
      assert fields == base + a;
      PushStateid(s);
      PushBe64(offset);
      PushBe64(length);
      ghost var rest := SidFields(s) + [U64(offset), U64(length)];
      assert fields == base + a + rest;
      LockUParts(kind, s, offset, length);
      FinishParts(LockU(kind, 0, s, offset, length), base, a, rest);
    }

    method PushReclaimComplete()
      requires Valid() && b.end + 8 < LIMIT
      modifies b, b.contents, this`fields, this`opcount, this`ops
      ensures Valid() && Grown(8) && ops == old(ops) + [ReclaimComplete(0)]
    {
      hide Header, Raw, Fill;
      PushOp(OP_RECLAIM_COMPLETE);
      PushBe32(0);
      Finish(ReclaimComplete(0));
    }

    method PushDestroySession(c: Client)
      requires Valid() && c.Shaped() && b.end + 24 < LIMIT
      modifies b, b.contents, this`fields, this`opcount, this`ops
      ensures Valid() && Grown(20) && ops == old(ops) + [DestroySession(c.session)]
    {
      hide Header, Raw, Fill;
      PushOp(OP_DESTROY_SESSION);
      PushRaw(c.session);
      Finish(DestroySession(c.session));
    }

    method PushExchangeId(c: Client, coOwnerId: seq<u8>)
      requires Valid() && c.Shaped() && |coOwnerId| == 16 && b.end + 200 < LIMIT
      modifies b, b.contents, this`fields, this`opcount, this`ops
      ensures Valid() && Grown(112) && ops == old(ops) + [ExchangeId(c.verifier, coOwnerId, 0, AUTHOR, VERSION, 0, 0)]
    {
      hide Header, Raw, Fill, OpFields, OpsFields;
      ghost var base := fields;
      ExchangeIdFills();
      PushOp(OP_EXCHANGE_ID);
      PushRaw(c.verifier);
      PushString(coOwnerId);
      PushBe32(0);  // flags
      PushBe32(0);  // SP4_NONE
      ghost var a := [U32(OP_EXCHANGE_ID), Fixed(c.verifier), Opaque(coOwnerId), U32(0), U32(0)];
      assert fields == base + a;
      PushImplementation();
      ExchangeIdParts(c.verifier, coOwnerId);
      FinishParts(ExchangeId(c.verifier, coOwnerId, 0, AUTHOR, VERSION, 0, 0), base, a, IMPLEMENTATION);
    }

    // One client_impl_id4.
    method PushImplementation()
      requires Raw() && b.end + 100 < LIMIT
      modifies b, b.contents, this`fields
      ensures Raw() && Grown(72)
      ensures fields == old(fields) + IMPLEMENTATION
    {
      hide Header, Raw, Fill;
      ExchangeIdFills();
      PushBe32(1);
      PushString(AUTHOR);
      PushString(VERSION);
      PushBe64(0);
      PushBe32(0);
    }

    method PushChannelAttrs(c: Client)
      requires Raw() && b.end + 32 < LIMIT
      modifies b, b.contents, this`fields
      ensures Raw() && Grown(28) && fields == old(fields) + ChannelFields(Attrs(c))
    {
      hide Header, Raw, Fill;
      PushBe32(0);            // header pad size
      PushBe32(c.maxreq);
      PushBe32(c.maxresp);
      PushBe32(1024 * 1024);  // maximum cached response
      PushBe32(c.maxops);
      PushBe32(c.maxreqs);
      PushBe32(0);            // no RDMA
    }

    method PushCreateSession(c: Client)
      requires Valid() && c.Shaped() && b.end + 100 < LIMIT
      modifies b, b.contents, this`fields, this`opcount, this`ops
      ensures Valid() && Grown(88)
      ensures ops == old(ops) + [CreateSession(c.clientid, c.serverSequence, 1, Attrs(c), Attrs(c), 0x7b)]
    {
      hide Header, Raw, Fill, Attrs, ChannelFields, OpFields, OpsFields, SessionFields;
      ghost var base := fields;
      PushOp(OP_CREATE_SESSION);
      PushRaw(c.clientid);
      PushBe32(c.serverSequence);
      PushBe32(1);  // CREATE_SESSION4_FLAG_PERSIST
      ghost var a := [U32(OP_CREATE_SESSION), Fixed(c.clientid), U32(c.serverSequence), U32(1)];
      assert fields == base + a;
      PushChannels(c);
      CreateSessionParts(c.clientid, c.serverSequence, Attrs(c));
      FinishParts(CreateSession(c.clientid, c.serverSequence, 1, Attrs(c), Attrs(c), 0x7b), base, a,
                  SessionFields(Attrs(c)));
    }

    // Fore and back channel, callback program, and one callback flavor: none.
    method PushChannels(c: Client)
      requires Raw() && b.end + 80 < LIMIT
      modifies b, b.contents, this`fields
      ensures Raw() && Grown(68) && fields == old(fields) + SessionFields(Attrs(c))
    {
      hide Header, Raw, Attrs, ChannelFields;
      PushChannelAttrs(c);
      PushChannelAttrs(c);
      PushBe32(0x7b);
      PushBe32(1);
      PushBe32(0);
    }

    // The mode a new file is given, pushed as the words of an attribute list.
    method PushMode()
      requires Raw() && b.end + 12 < LIMIT
      modifies b, b.contents, this`fields
      ensures Raw() && Grown(8) && fields == old(fields) + [Opaque(Be32(0x1a4))]
    {
      hide Header, Be32, EncodeFields, Encode;
      ghost var before := b.Contents();
      b.PushBe32(4);
      b.PushBe32(0x1a4);
      ModeEncoded();
      PairAfter(before, Be32(4), Be32(0x1a4));
      Pushed(before, Opaque(Be32(0x1a4)));
      fields := fields + [Opaque(Be32(0x1a4))];
    }

    // openflag4: do not create, or create unchecked with mode 0644.
    method PushHow(create: bool)
      requires Raw() && b.end + 40 < LIMIT
      modifies b, b.contents, this`fields
      ensures Raw() && Grown(if create then 28 else 4) && fields == old(fields) + HowFields(How(create))
    {
      hide Header, Raw, Fill;
      if create {
        PushBe32(1);  // OPEN4_CREATE
        PushBe32(0);  // UNCHECKED4
        PushBe32(2);
        PushBe32(0);
        PushBe32(2);
        PushMode();
      } else {
        PushBe32(0);  // OPEN4_NOCREATE
      }
    }

    // Owner, how to open, and the claim.
    method PushOpenRest(c: Client, name: seq<u8>, create: bool)
      requires Raw() && c.Shaped() && b.end + |c.owner| + |name| + 100 < LIMIT
      modifies b, b.contents, this`fields
      ensures Raw() && Grown(20 + |c.owner| + Fill(|c.owner|) + |name| + Fill(|name|) + if create then 28 else 4)
      ensures fields == old(fields) + OpenRest(c.clientid, c.owner, create, name)
    {
      hide Header, Raw, Fill, HowFields, How;
      PushOwner(c);
      PushHow(create);
      PushBe32(0);  // CLAIM_NULL
      PushString(name);
    }

    method PushOpen(c: Client, name: seq<u8>, access: u32, create: bool)
      requires Valid() && c.Shaped() && b.end + |c.owner| + |name| + 120 < LIMIT
      modifies b, b.contents, this`fields, this`opcount, this`ops
      ensures Valid()
      ensures Grown(36 + |c.owner| + Fill(|c.owner|) + |name| + Fill(|name|) + if create then 28 else 4)
      ensures ops == old(ops) + [Open(0, access, 0, c.clientid, c.owner, How(create), name)]
    {
      hide Header, Raw, Fill, OpenRest, OpFields, OpsFields;
      ghost var base := fields;
      PushOp(OP_OPEN);
      PushBe32(0);  // seqid
      PushBe32(access);
      PushBe32(0);  // deny nothing
      ghost var a := [U32(OP_OPEN), U32(0), U32(access), U32(0)];
      assert fields == base + a;
      PushOpenRest(c, name, create);
      ghost var rest := OpenRest(c.clientid, c.owner, create, name);
      OpenParts(access, c.clientid, c.owner, create, name);
      FinishParts(Open(0, access, 0, c.clientid, c.owner, How(create), name), base, a, rest);
    }

    // ---------- Onto the wire ----------

    // The buffer holds the finished record of `ops`.
    ghost predicate Complete()
      reads this, b, b.contents
    {
      && b.Valid() && b.start == 0 && opcountloc == 88 && opcount == |ops|
      && OpsOk(ops) && Fits(ops) && b.Contents() == EncodeCall(xid, ops)
    }

    lemma CompleteShape()
      requires Complete()
      ensures |b.Contents()| == PROLOGUE + |Body(ops)|
      ensures b.Contents()[4..88] == Header(xid) && b.Contents()[PROLOGUE..] == Body(ops)
    {
      hide Header, Body, OpOk;
      HeaderShape(xid);
      var body := Body(ops);
      var record := Header(xid) + Be32(|ops|) + body;
      assert b.Contents() == Be32(LAST_FRAGMENT + |record|) + Header(xid) + Be32(|ops|) + body;
    }

    /** rpc_send: fill in operation count and record mark, and put the window of the buffer on the wire.  A
        finished request is read by the decoder as exactly the operations that were pushed. */
    method Send() returns (wire: seq<u8>)
      requires b.Valid() && opcountloc == 88 && opcount < U32_SIZE && PROLOGUE <= b.contents.Length
      modifies b.contents
      ensures wire == b.Contents()
      ensures old(Valid() && OpsOk(ops)) && b.end < LIMIT ==>
                && Valid() && Complete() && wire == EncodeCall(xid, ops)
                && DecodeCall(wire) == Some(RpcCall(xid, CLIENT_CRED, 1, ops))
    {
      hide Header, EncodeFields, OpOk, Be32, DecodeCall, EncodeCall;
      ghost var all := b.contents[..];
      b.Poke(opcountloc, Be32(opcount));
      b.Poke(0, Be32((LAST_FRAGMENT + b.Length() + U32_SIZE - 4) % U32_SIZE));
      wire := b.contents[b.start..b.end];
      if old(Valid() && OpsOk(ops)) && b.end < LIMIT {
        Poked(all, b.contents[..], Be32(opcount), Be32(LAST_FRAGMENT + b.end - 4), b.end);
        Sent(old(b.Contents()), Be32(opcount), Be32(LAST_FRAGMENT + b.end - 4));
        CallRoundTrip(xid, ops);
      }
    }

    lemma Poked(before: seq<u8>, after: seq<u8>, count: seq<u8>, mark: seq<u8>, end: nat)
      requires PROLOGUE <= end <= |before| && |count| == |mark| == 4
      requires after == mark + (before[..88] + count + before[92..])[4..]
      ensures after[..end] == mark + before[..end][4..88] + count + before[..end][PROLOGUE..]
    {
      var r := mark + before[4..88] + count + before[92..];
      assert (before[..88] + count + before[92..])[4..] == before[4..88] + count + before[92..];
      assert after == r;
      assert r[..end] == mark + before[4..88] + count + before[92..end];
      assert before[..end][4..88] == before[4..88] && before[..end][PROLOGUE..] == before[92..end];
    }

    /** replay_rpc, at the offset where the session id really stands: take the next sequence id and the next
        xid, and patch session, sequence id and xid into the record as it stands.  If that is a finished call that
        starts with SEQUENCE, it becomes the same call under the new session. */
    method Replay(c: Client)
      requires c.Shaped() && b.Valid() && SESSION_OFFSET + 20 <= b.contents.Length
      modifies b.contents, c`sequence, c`xid, this`xid, this`ops, this`fields
      ensures c.sequence == Next32(old(c.sequence)) && c.xid == Next32(old(c.xid))
      ensures b.Valid()
      ensures old(Complete() && StartsWithSequence(ops)) ==>
                && Valid() && Complete() && xid == c.xid
                && ops == [Seq(c.session, old(c.sequence))] + old(ops[1..])
    {
      hide EncodeCall, OpsOk, Fits, StartsWithSequence, Patch, Be32, EncodeFields, OpsFields;
      ghost var all, record, calls := b.contents[..], b.Contents(), Complete() && StartsWithSequence(ops);
      PatchInPlace(c.session, c.sequence, Next32(c.xid));
      c.sequence := Next32(c.sequence);
      c.xid := Next32(c.xid);
      if calls {
        assert record == all[..b.end];
        Rebuilt(xid, ops, c.xid, c.session, old(c.sequence));
        PatchedWindow(all, b.end, c.session, old(c.sequence), c.xid);
        xid, ops := c.xid, [Seq(c.session, old(c.sequence))] + ops[1..];
        fields := OpsFields(ops);
        CompleteIsValid();
      }
    }

    method PatchInPlace(session: seq<u8>, seqid: u32, xid: u32)
      requires |session| == 16 && SESSION_OFFSET + 20 <= b.contents.Length
      modifies b.contents
      ensures b.contents[..] == Patch(old(b.contents[..]), SESSION_OFFSET, session, seqid, xid)
    {
      hide Be32;
      b.Poke(SESSION_OFFSET, session);
      b.Poke(SESSION_OFFSET + 16, Be32(seqid));
      b.Poke(4, Be32(xid));
    }

    lemma Rebuilt(xid: u32, ops: seq<Op>, xid': u32, session': seq<u8>, seqid': u32)
      requires OpsOk(ops) && Fits(ops) && StartsWithSequence(ops) && |session'| == 16
      ensures ops != [] && |EncodeCall(xid, ops)| >= SESSION_OFFSET + 20
      ensures OpsOk([Seq(session', seqid')] + ops[1..]) && Fits([Seq(session', seqid')] + ops[1..])
      ensures Patch(EncodeCall(xid, ops), SESSION_OFFSET, session', seqid', xid')
              == EncodeCall(xid', [Seq(session', seqid')] + ops[1..])
    {
      hide EncodeCall, Fits, Patch;
      var first, more := ops[0], ops[1..];
      assert OpOk(first);
      assert ops == [Seq(first.session, first.seqid)] + more;
      ReplayIsRebuild(xid, first.session, first.seqid, more, xid', session', seqid');
    }

    // The patches stay inside the window.
    lemma PatchedWindow(all: seq<u8>, end: nat, session: seq<u8>, seqid: u32, xid: u32)
      requires |session| == 16 && SESSION_OFFSET + 20 <= end <= |all|
      ensures Patch(all, SESSION_OFFSET, session, seqid, xid)[..end]
              == Patch(all[..end], SESSION_OFFSET, session, seqid, xid)
    {
      hide Be32, Overlay;
      OverlayPrefix(all, SESSION_OFFSET, session, end);
      var one := Overlay(all, SESSION_OFFSET, session);
      OverlayPrefix(one, SESSION_OFFSET + 16, Be32(seqid), end);
      OverlayPrefix(Overlay(one, SESSION_OFFSET + 16, Be32(seqid)), 4, Be32(xid), end);
    }

    lemma CompleteIsValid()
      requires Complete() && fields == OpsFields(ops)
      ensures Valid()
    {
      hide Header, Body, OpOk, EncodeCall;
      CompleteShape();
      OpsFieldsOk(ops);
      BodyIsFields();
    }

    lemma BodyIsFields()
      requires OpsOk(ops)
      ensures FieldsOk(OpsFields(ops)) && Body(ops) == EncodeFields(OpsFields(ops))
    {
      OpsFieldsOk(ops);
    }

    lemma SentRecord(before: seq<u8>, xid: u32, ops: seq<Op>)
      requires OpsOk(ops) && PROLOGUE <= |before| < LIMIT
      requires before[4..88] == Header(xid) && before[PROLOGUE..] == Body(ops)
      ensures Fits(ops)
      ensures Be32(LAST_FRAGMENT + |before| - 4) + before[4..88] + Be32(|ops|) + before[PROLOGUE..]
              == EncodeCall(xid, ops)
    {
      hide Header, OpOk, Be32, Body;
      HeaderShape(xid);
      var record := Header(xid) + Be32(|ops|) + Body(ops);
      assert |record| == |before| - 4;
      var mark := Be32(LAST_FRAGMENT + |before| - 4);
      assert mark + before[4..88] + Be32(|ops|) + before[PROLOGUE..] == mark + record;
    }

    lemma Sent(before: seq<u8>, count: seq<u8>, mark: seq<u8>)
      requires b.Valid() && b.start == 0 && PROLOGUE <= b.end < LIMIT && opcountloc == 88 && opcount == |ops|
               && OpsOk(ops)
      requires FieldsOk(fields) && fields == OpsFields(ops) && |before| == b.end
      requires before[4..88] == Header(xid) && before[PROLOGUE..] == EncodeFields(fields)
      requires count == Be32(opcount) && mark == Be32(LAST_FRAGMENT + b.end - 4)
      requires b.Contents() == mark + before[4..88] + count + before[PROLOGUE..]
      ensures Valid() && Complete()
    {
      hide Header, EncodeFields, OpOk, Be32, EncodeCall, Fits, Body, OpsFields;
      BodyIsFields();
      SentRecord(before, xid, ops);
      CompleteIsValid();
    }
  }
}
