/** What a server sends for an operation that succeeded, byte by byte as RFC 5661, section 18, lays it out, and that the
    XDR decoder reads every one of these results for what it is, whatever follows. */
module Resok {
  import opened Bytes
  import opened Wire
  import opened Call

  // ---------- Pieces ----------

  // A variable-length opaque or string (RFC 4506, section 4.10).
  function Counted(x: seq<u8>): seq<u8>
    requires Short(x)
  {
    Be32(|x|) + x + Zeros(Fill(|x|))
  }

  /** stateid4 */
  function EncodeSid(s: Stateid): seq<u8> {
    Be32(s.seqid) + s.other
  }

  function Be32s(ws: seq<u32>): (r: seq<u8>)
    ensures |r| == 4 * |ws|
  {
    if ws == [] then [] else Be32(ws[0]) + Be32s(ws[1..])
  }

  /** bitmap4 */
  function Bitmap(ws: seq<u32>): seq<u8>
    requires |ws| < U32_SIZE
  {
    Be32(|ws|) + Be32s(ws)
  }

  // ---------- EXCHANGE_ID (section 18.35.2) ----------

  datatype Impl = Impl(domain: seq<u8>, name: seq<u8>, seconds: u64, nanos: u32)

  datatype ExchangeAnswer = ExchangeAnswer(clientid: seq<u8>, seqid: u32, flags: u32, minorId: u64, majorId: seq<u8>,
                                           scope: seq<u8>, impls: seq<Impl>)

  predicate ExchangeOk(a: ExchangeAnswer) {
    && |a.clientid| == 8 && Short(a.majorId) && Short(a.scope) && |a.impls| <= 1
    && forall i | 0 <= i < |a.impls| :: Short(a.impls[i].domain) && Short(a.impls[i].name)
  }

  /** Client id, sequence id, flags; then no state protection, the server's owner and scope, and at most one
      implementation. */
  function EncodeExchange(a: ExchangeAnswer): seq<u8>
    requires ExchangeOk(a)
  {
    a.clientid + Be32(a.seqid) + Be32(a.flags) + ExchangeRest(a)
  }

  function ExchangeRest(a: ExchangeAnswer): seq<u8>
    requires ExchangeOk(a)
  {
    [0, 0, 0, 0] + Be64(a.minorId) + Counted(a.majorId) + Counted(a.scope)
    + if a.impls == [] then [0, 0, 0, 0]
      else
        var i := a.impls[0];
        [0, 0, 0, 1] + Counted(i.domain) + Counted(i.name) + Be64(i.seconds) + Be32(i.nanos)
  }

  // ---------- CREATE_SESSION (section 18.36.2) ----------

  /** channel_attrs4, with at most one RDMA word. */
  datatype Limits = Limits(headerPad: u32, maxRequest: u32, maxResponse: u32, maxCached: u32, maxOps: u32,
                           maxRequests: u32, rdma: seq<u32>)

  datatype SessionAnswer = SessionAnswer(session: seq<u8>, seqid: u32, flags: u32, fore: Limits, back: Limits)

  predicate SessionOk(a: SessionAnswer) {
    |a.session| == 16 && |a.fore.rdma| <= 1 && |a.back.rdma| <= 1
  }

  function EncodeLimits(l: Limits): seq<u8>
    requires |l.rdma| <= 1
  {
    Be32(l.headerPad) + Be32(l.maxRequest) + Be32(l.maxResponse) + Be32(l.maxCached) + Be32(l.maxOps)
    + Be32(l.maxRequests) + Be32(|l.rdma|) + Be32s(l.rdma)
  }

  function EncodeSession(a: SessionAnswer): seq<u8>
    requires SessionOk(a)
  {
    a.session + Be32(a.seqid) + Be32(a.flags) + EncodeLimits(a.fore) + EncodeLimits(a.back)
  }

  // ---------- READ, GETATTR, GETFH (sections 18.22.2, 18.7.2, 18.8.2) ----------

  function EncodeRead(eof: bool, data: seq<u8>): seq<u8>
    requires Short(data)
  {
    (if eof then [0, 0, 0, 1] else [0, 0, 0, 0]) + Counted(data)
  }

  /** The attribute `size`, number 4, alone: a bitmap of one word, and eight bytes of value (section 5.6). */
  function EncodeSize(size: u64): seq<u8> {
    [0, 0, 0, 1, 0, 0, 0, 0x10, 0, 0, 0, 8] + Be64(size)
  }

  /** nfs_fh4: at most 128 bytes. */
  function EncodeHandle(fh: seq<u8>): seq<u8>
    requires |fh| <= 128
  {
    Counted(fh)
  }

  // ---------- OPEN (section 18.16.2) ----------

  datatype OpenAnswer = OpenAnswer(sid: Stateid, atomic: bool, before: u64, after: u64, flags: u32, attrs: seq<u32>)

  predicate OpenAnswerOk(a: OpenAnswer) {
    SidOk(a.sid) && |a.attrs| < U32_SIZE
  }

  /** Stateid, change information, flags, the attributes that were set, and no delegation. */
  function EncodeOpen(a: OpenAnswer): seq<u8>
    requires OpenAnswerOk(a)
  {
    EncodeSid(a.sid) + (if a.atomic then [0, 0, 0, 1] else [0, 0, 0, 0]) + Be64(a.before) + Be64(a.after)
    + Be32(a.flags) + Bitmap(a.attrs) + [0, 0, 0, 0]
  }

  // ---------- Which bodies are such results ----------

  ghost predicate IsExchange(body: seq<u8>) {
    exists a :: ExchangeOk(a) && body == EncodeExchange(a)
  }

  ghost predicate IsSession(body: seq<u8>) {
    exists a :: SessionOk(a) && body == EncodeSession(a)
  }

  ghost predicate IsSid(body: seq<u8>) {
    exists s :: SidOk(s) && body == EncodeSid(s)
  }

  ghost predicate IsRead(body: seq<u8>) {
    exists eof, data :: Short(data) && body == EncodeRead(eof, data)
  }

  ghost predicate IsSize(body: seq<u8>) {
    exists size :: body == EncodeSize(size)
  }

  ghost predicate IsHandle(body: seq<u8>) {
    exists fh: seq<u8> :: |fh| <= 128 && body == EncodeHandle(fh)
  }

  ghost predicate IsOpen(body: seq<u8>) {
    exists a :: OpenAnswerOk(a) && body == EncodeOpen(a)
  }

  // ---------- What the client reads of them ----------

  const EXCHANGE_ID_KINDS: seq<Kind> := [KFixed(8), KU32, KU32]
  const CREATE_SESSION_KINDS: seq<Kind> := [KFixed(16), KU32, KU32] + KCHANNEL
  const SID_KINDS: seq<Kind> := [KU32, KFixed(12)]
  const READ_KINDS: seq<Kind> := [KU32, KOpaque]
  const CHANGE_KINDS: seq<Kind> := [KU32, KU64, KU64, KU32, KU32]
  const DELEGATE_NONE: u32 := 0

  function Expect(v: u32, s: seq<u8>): Parsed<u32> {
    var (w, rest) :- TakeU32(s);
    if w == v then Parsed(w, rest) else Malformed
  }

  /** parse_open without a delegation: the stateid, change information, flags, a bitmap of attributes set, and the kind
      of delegation. */
  function DecodeOpen(s: seq<u8>): Parsed<Stateid> {
    var (sid, s) :- DecodeKinds(SID_KINDS, s);
    var (change, s) :- DecodeKinds(CHANGE_KINDS, s);
    if |sid| != 2 || |change| != 5 then Malformed
    else
      var n := 4 * Word(change[4]);
      if |s| < n then Malformed
      else
        var (kind, s) :- Expect(DELEGATE_NONE, s[n..]);
        Parsed(SidAt(sid, 0), s)
  }

  lemma ExpectEncoded(v: u32, w: u32, rest: seq<u8>)
    ensures Expect(v, Be32(w) + rest) == if v == w then Parsed(v, rest) else Malformed
  {
    hide Be32, TakeU32;
    TakeU32Encoded(w, rest);
  }

  // Fields that were encoded one after the other, and what follows them.
  lemma Decodes(fs: seq<Field>, kinds: seq<Kind>, s: seq<u8>, rest: seq<u8>)
    requires FieldsOk(fs) && KindsOf(fs) == kinds && s == EncodeFields(fs) + rest
    ensures DecodeKinds(kinds, s) == Parsed(fs, rest)
  {
    KindsRoundTrip(fs, rest);
  }

  lemma WholeFixed(x: seq<u8>)
    requires x != [] && |x| % 4 == 0
    ensures FieldOk(Fixed(x)) && Encode(Fixed(x)) == x
  {
    assert x + Zeros(0) == x;
  }

  lemma ZeroIsZero()
    ensures Be32(0) == [0, 0, 0, 0] && Be32(1) == [0, 0, 0, 1]
  {
  }

  /** An EXCHANGE_ID result is read as its client id, its sequence id and its flags. */
  lemma ExchangeReads(a: ExchangeAnswer, tail: seq<u8>)
    requires ExchangeOk(a)
    ensures DecodeKinds(EXCHANGE_ID_KINDS, EncodeExchange(a) + tail)
            == Parsed([Fixed(a.clientid), U32(a.seqid), U32(a.flags)], ExchangeRest(a) + tail)
  {
    hide ExchangeRest, Be32, EncodeFields, Encode;
    var f, g, h := Fixed(a.clientid), U32(a.seqid), U32(a.flags);
    WholeFixed(a.clientid);
    CodeEncoded(a.seqid);
    CodeEncoded(a.flags);
    EncodeThree(f, g, h);
    var rest := ExchangeRest(a) + tail;
    assert EncodeExchange(a) + tail == a.clientid + Be32(a.seqid) + Be32(a.flags) + rest;
    Decodes([f, g, h], EXCHANGE_ID_KINDS, EncodeExchange(a) + tail, rest);
  }

  function LimitFields(l: Limits): seq<Field>
    requires |l.rdma| <= 1
  {
    [U32(l.headerPad), U32(l.maxRequest), U32(l.maxResponse), U32(l.maxCached), U32(l.maxOps)]
    + [U32(l.maxRequests), U32(|l.rdma|)]
  }

  lemma LimitsEncoded(l: Limits)
    requires |l.rdma| <= 1
    ensures FieldsOk(LimitFields(l)) && KindsOf(LimitFields(l)) == KCHANNEL
    ensures EncodeLimits(l) == EncodeFields(LimitFields(l)) + Be32s(l.rdma)
  {
    hide Be32, EncodeFields, Encode, Be32s;
    var a, b, c, d, e := U32(l.headerPad), U32(l.maxRequest), U32(l.maxResponse), U32(l.maxCached), U32(l.maxOps);
    EncodeFive(a, b, c, d, e);
    EncodeTwo(U32(l.maxRequests), U32(|l.rdma|));
    EncodeAppend([a, b, c, d, e], [U32(l.maxRequests), U32(|l.rdma|)]);
    CodeEncoded(l.headerPad);
    CodeEncoded(l.maxRequest);
    CodeEncoded(l.maxResponse);
    CodeEncoded(l.maxCached);
    CodeEncoded(l.maxOps);
    CodeEncoded(l.maxRequests);
    CodeEncoded(|l.rdma|);
  }

  function SessionAnswerFields(a: SessionAnswer): seq<Field>
    requires SessionOk(a)
  {
    [Fixed(a.session), U32(a.seqid), U32(a.flags)] + LimitFields(a.fore)
  }

  /** A CREATE_SESSION result is read as its session id, its sequence id, its flags, and the fore channel's limits. */
  lemma SessionReads(a: SessionAnswer, tail: seq<u8>)
    requires SessionOk(a)
    ensures DecodeKinds(CREATE_SESSION_KINDS, EncodeSession(a) + tail)
            == Parsed(SessionAnswerFields(a), Be32s(a.fore.rdma) + EncodeLimits(a.back) + tail)
  {
    hide Be32, EncodeFields, Encode, Be32s, EncodeLimits, LimitFields;
    var f, g, h := Fixed(a.session), U32(a.seqid), U32(a.flags);
    WholeFixed(a.session);
    CodeEncoded(a.seqid);
    CodeEncoded(a.flags);
    EncodeThree(f, g, h);
    LimitsEncoded(a.fore);
    EncodeAppend([f, g, h], LimitFields(a.fore));
    var front := a.session + Be32(a.seqid) + Be32(a.flags);
    var rest := Be32s(a.fore.rdma) + EncodeLimits(a.back) + tail;
    assert EncodeSession(a) + tail == front + EncodeFields(LimitFields(a.fore)) + rest;
    Decodes(SessionAnswerFields(a), CREATE_SESSION_KINDS, EncodeSession(a) + tail, rest);
  }

  /** A stateid is read as itself. */
  lemma SidReads(s: Stateid, tail: seq<u8>)
    requires SidOk(s)
    ensures DecodeKinds(SID_KINDS, EncodeSid(s) + tail) == Parsed([U32(s.seqid), Fixed(s.other)], tail)
  {
    hide Be32, EncodeFields, Encode;
    CodeEncoded(s.seqid);
    WholeFixed(s.other);
    EncodeTwo(U32(s.seqid), Fixed(s.other));
    Decodes([U32(s.seqid), Fixed(s.other)], SID_KINDS, EncodeSid(s) + tail, tail);
  }

  /** A READ result is read as its end-of-file mark and its data. */
  lemma ReadReads(eof: bool, data: seq<u8>, tail: seq<u8>)
    requires Short(data)
    ensures DecodeKinds(READ_KINDS, EncodeRead(eof, data) + tail)
            == Parsed([U32(if eof then 1 else 0), Opaque(data)], tail)
  {
    hide Be32, EncodeFields;
    var f, g := U32(if eof then 1 else 0), Opaque(data);
    ZeroIsZero();
    CodeEncoded(f.w);
    EncodeTwo(f, g);
    Decodes([f, g], READ_KINDS, EncodeRead(eof, data) + tail, tail);
  }

  /** A file handle is read as its length and its bytes. */
  lemma HandleReads(fh: seq<u8>, tail: seq<u8>)
    requires |fh| <= 128
    ensures TakeU32(EncodeHandle(fh) + tail) == Parsed(|fh|, fh + Zeros(Fill(|fh|)) + tail)
  {
    hide Be32, TakeU32;
    assert EncodeHandle(fh) + tail == Be32(|fh|) + (fh + Zeros(Fill(|fh|)) + tail);
    TakeU32Encoded(|fh|, fh + Zeros(Fill(|fh|)) + tail);
  }

  // What stands behind the stateid of an OPEN result.
  lemma ChangeReads(a: OpenAnswer, rest: seq<u8>)
    requires OpenAnswerOk(a)
    ensures var s := (if a.atomic then [0, 0, 0, 1] else [0, 0, 0, 0]) + Be64(a.before) + Be64(a.after)
              + Be32(a.flags) + Be32(|a.attrs|) + rest;
      DecodeKinds(CHANGE_KINDS, s)
      == Parsed([U32(if a.atomic then 1 else 0), U64(a.before), U64(a.after), U32(a.flags), U32(|a.attrs|)], rest)
  {
    hide Be32, Be64, EncodeFields;
    var f, g, h, i, j := U32(if a.atomic then 1 else 0), U64(a.before), U64(a.after), U32(a.flags), U32(|a.attrs|);
    ZeroIsZero();
    EncodeFive(f, g, h, i, j);
    var s := (if a.atomic then [0, 0, 0, 1] else [0, 0, 0, 0]) + Be64(a.before) + Be64(a.after)
             + Be32(a.flags) + Be32(|a.attrs|) + rest;
    Decodes([f, g, h, i, j], CHANGE_KINDS, s, rest);
  }

  /** An OPEN result, with a bitmap of any length, is read as its stateid, and nothing of what follows it is taken. */
  lemma OpenReads(a: OpenAnswer, tail: seq<u8>)
    requires OpenAnswerOk(a)
    ensures DecodeOpen(EncodeOpen(a) + tail) == Parsed(a.sid, tail)
  {
    hide Be32, Be64, Expect, DecodeKinds, Be32s, EncodeSid;
    var words := Be32s(a.attrs);
    var rest := words + [0, 0, 0, 0] + tail;
    var change := (if a.atomic then [0, 0, 0, 1] else [0, 0, 0, 0]) + Be64(a.before) + Be64(a.after)
                  + Be32(a.flags) + Be32(|a.attrs|) + rest;
    assert EncodeOpen(a) + tail == EncodeSid(a.sid) + change;
    SidReads(a.sid, change);
    ChangeReads(a, rest);
    assert rest[4 * |a.attrs|..] == [0, 0, 0, 0] + tail;
    ZeroIsZero();
    ExpectEncoded(DELEGATE_NONE, 0, tail);
  }
}
