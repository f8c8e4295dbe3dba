/** Scanning replies in place: parse_rpc, read_until and the status of the operation asked for, proved against
    an encoder of COMPOUND replies (RFC 5531, section 9; RFC 5661, sections 16.2.2 and 18). */
module Reply {
  import opened Bytes
  import opened Buffer
  import opened Wire
  import opened Call
  import opened Resok

  const BADSESSION: u32 := 10052
  const SEQ_MISORDERED: u32 := 10063

  // ---------- What a server sends ----------

  // The result of one operation: its code, its status, and the body its status calls for.
  datatype Res = Res(op: u32, status: u32, body: seq<u8>)

  datatype Message =
    | Compound(xid: u32, status: u32, results: seq<Res>)
    | Unexecuted(xid: u32, acceptStat: u32, detail: seq<u8>)  // accepted, but the call never ran
    | Denied(xid: u32, detail: seq<u8>)

  function EncodeRes(r: Res): seq<u8> {
    Be32(r.op) + Be32(r.status) + r.body
  }

  function EncodeResults(rs: seq<Res>): seq<u8> {
    if rs == [] then [] else EncodeRes(rs[0]) + EncodeResults(rs[1..])
  }

  /** The record behind the mark: REPLY; then MSG_ACCEPTED, an AUTH_NONE verifier, SUCCESS, and the COMPOUND's
      status, empty tag and results; or one of the two ways a call fails before it runs. */
  function EncodeReply(m: Message): seq<u8>
    requires m.Compound? ==> |m.results| < U32_SIZE
  {
    Be32(m.xid) + Be32(1) +
    match m
    case Compound(_, status, results) =>
      Be32(0) + Be32(0) + Be32(0) + Be32(0) + Be32(status) + Be32(0) + Be32(|results|) + EncodeResults(results)
    case Unexecuted(_, stat, detail) => Be32(0) + Be32(0) + Be32(0) + Be32(stat) + detail
    case Denied(_, detail) => Be32(1) + detail
  }

  // ---------- What the client reads, as a function of the bytes ----------

  // Overrun: the source skips bytes without a check and has left the reply.
  datatype Scan = Found(rest: seq<u8>) | Stopped(badSession: bool) | Overrun

  // parse_rpc up to the COMPOUND: our xid, REPLY, accepted, no verifier, SUCCESS.
  function Accepted(xid: u32, s: seq<u8>): Parsed<u32> {
    var (_, s) :- Expect(xid, s);
    var (_, s) :- Expect(1, s);
    var (_, s) :- Expect(0, s);
    var (_, s) :- Expect(0, s);
    var (_, s) :- Expect(0, s);
    Expect(0, s)
  }

  /** parse_rpc: the COMPOUND's status, with the tag read too when that is zero. */
  function Head(xid: u32, s: seq<u8>): Parsed<u32> {
    var (_, s) :- Accepted(xid, s);
    var (status, s) :- TakeU32(s);
    if status == 0 then Expect(0, s) else Parsed(status, s)
  }

  // The results read_until passes over, and nothing else.
  predicate Empty(op: u32) {
    op == OP_PUTFH || op == OP_PUTROOTFH || op == OP_LOOKUP
  }

  /** read_until behind the operation count: from one operation code to the next, as far as `which`. */
  function Until(which: u32, s: seq<u8>): (r: Scan)
    ensures r != Stopped(true)
    decreases |s|, 0
  {
    match TakeU32(s)
    case Malformed => Stopped(false)
    case Parsed(op, s) => UntilAfter(which, op, s)
  }

  function UntilAfter(which: u32, op: u32, s: seq<u8>): (r: Scan)
    ensures r != Stopped(true)
    decreases |s|, 1
  {
    if op == which then Found(s)
    else
      match TakeU32(s)
      case Malformed => Stopped(false)
      case Parsed(code, s) => UntilPast(which, op, code, s)
  }

  function UntilPast(which: u32, op: u32, code: u32, s: seq<u8>): (r: Scan)
    ensures r != Stopped(true)
    decreases |s|, 1
  {
    if code != 0 then Stopped(false)
    else if Empty(op) then Until(which, s)
    else if op != OP_SEQUENCE then Stopped(false)
    else if |s| >= 36 then Until(which, s[36..])
    else if 16 <= |s| < 20 then Stopped(false)
    else Overrun
  }

  /** Everything base_transact does with a reply. */
  function Listen(xid: u32, which: u32, s: seq<u8>): Scan {
    match Head(xid, s)
    case Malformed => Stopped(false)
    case Parsed(status, s) =>
      if status != 0 then Stopped(status == BADSESSION)
      else
        match TakeU32(s)
        case Malformed => Stopped(false)
        case Parsed(_, s) =>
          match Until(which, s)
          case Found(s) => if Expect(0, s).Parsed? then Found(s[4..]) else Stopped(false)
          case other => other
  }

  // ---------- The scanner, in place ----------

  datatype Outcome<T> = Got(value: T) | Error {
    predicate IsFailure() { Error? }
    function PropagateFailure<U>(): Outcome<U> requires Error? { Error }
    function Extract(): T requires Got? { value }
  }

  // What reading leaves alone.
  twostate predicate Kept(b: ByteBuffer)
    reads b
  {
    b.Valid() && b.contents == old(b.contents) && b.end == old(b.end)
  }

  method ReadBeu32(b: ByteBuffer) returns (r: Outcome<u32>)
    requires b.Valid()
    modifies b`start
    ensures Kept(b)
    ensures match TakeU32(old(b.Contents()))
            case Malformed => r == Error && b.start == old(b.start)
            case Parsed(w, rest) => r == Got(w) && b.Contents() == rest && b.start == old(b.start) + 4
  {
    if b.end - b.start < 4 {
      return Error;
    }
    ghost var all := b.Contents();
    r := Got(FromBe32(b.contents[b.start..b.start + 4]));
    b.start := b.start + 4;
    assert all[..4] == b.contents[b.start - 4..b.start] && all[4..] == b.Contents();
  }

  method ReadBeu64(b: ByteBuffer) returns (r: Outcome<u64>)
    requires b.Valid()
    modifies b`start
    ensures Kept(b)
    ensures match DecodeField(KU64, old(b.Contents()))
            case Malformed => r == Error && b.start == old(b.start)
            case Parsed(f, rest) => r == Got(f.d) && b.Contents() == rest
  {
    if b.end - b.start < 8 {
      return Error;
    }
    ghost var all := b.Contents();
    var high := FromBe32(b.contents[b.start..b.start + 4]);
    var low := FromBe32(b.contents[b.start + 4..b.start + 8]);
    r := Got(high * U32_SIZE + low);
    b.start := b.start + 8;
    assert all[..8][..4] == b.contents[b.start - 8..b.start - 4] && all[..8][4..] == b.contents[b.start - 4..b.start];
    assert all[8..] == b.Contents();
  }

  method ReadBuffer(b: ByteBuffer, len: nat) returns (r: Outcome<seq<u8>>)
    requires b.Valid()
    modifies b`start
    ensures Kept(b)
    ensures if |old(b.Contents())| < len then r == Error && b.start == old(b.start)
            else r == Got(old(b.Contents())[..len]) && b.Contents() == old(b.Contents())[len..]
  {
    if b.Length() < len {
      return Error;
    }
    ghost var all := b.Contents();
    r := Got(b.contents[b.start..b.start + len]);
    b.start := b.start + len;
    assert all[..len] == r.value && all[len..] == b.Contents();
  }

  method VerifyAndAdv(b: ByteBuffer, v: u32) returns (r: Outcome<u32>)
    requires b.Valid()
    modifies b`start
    ensures Kept(b)
    ensures match Expect(v, old(b.Contents()))
            case Malformed => r == Error
            case Parsed(w, rest) => r == Got(w) && b.Contents() == rest
  {
    var w :- ReadBeu32(b);
    r := if w == v then Got(w) else Error;
  }

  method ParseRpc(b: ByteBuffer, xid: u32) returns (r: Outcome<u32>, badSession: bool)
    requires b.Valid()
    modifies b`start
    ensures Kept(b)
    ensures match Head(xid, old(b.Contents()))
            case Malformed => r == Error && !badSession
            case Parsed(status, rest) =>
              if status == 0 then r == Got(0) && b.Contents() == rest && !badSession
              else r == Error && (badSession <==> status == BADSESSION)
  {
    hide Accepted, TakeU32;
    badSession := false;
    var _ :- ParseAccepted(b, xid);
    var status :- ReadBeu32(b);
    if status != 0 {
      badSession := status == BADSESSION;
      return Error, badSession;
    }
    var _ :- VerifyAndAdv(b, 0);  // tag
    r := Got(0);
  }

  // The part of parse_rpc that knows nothing of the COMPOUND.
  method ParseAccepted(b: ByteBuffer, xid: u32) returns (r: Outcome<u32>)
    requires b.Valid()
    modifies b`start
    ensures Kept(b)
    ensures match Accepted(xid, old(b.Contents()))
            case Malformed => r == Error
            case Parsed(w, rest) => r == Got(w) && b.Contents() == rest
  {
    hide TakeU32;
    var _ :- VerifyAndAdv(b, xid);
    var _ :- VerifyAndAdv(b, 1);  // REPLY
    var rpcStatus :- ReadBeu32(b);
    if rpcStatus != 0 {
      return Error;
    }
    var _ :- VerifyAndAdv(b, 0);
    var _ :- VerifyAndAdv(b, 0);
    r := VerifyAndAdv(b, 0);
  }

  lemma TakesFour(s: seq<u8>)
    ensures |s| < 4 ==> TakeU32(s) == Malformed
    ensures |s| >= 4 ==> TakeU32(s).Parsed? && TakeU32(s).rest == s[4..]
  {
  }

  /** The body of a SEQUENCE result: session id, sequence id, and four words, of which only the sequence id is read
      with a check. */
  method SkipSequence(b: ByteBuffer) returns (r: Outcome<u32>, overrun: bool)
    requires b.Valid()
    modifies b`start
    ensures Kept(b) && (r.Got? <==> |old(b.Contents())| >= 36) && (r.Got? ==> b.Contents() == old(b.Contents())[36..])
    ensures overrun <==> |old(b.Contents())| < 16 || 20 <= |old(b.Contents())| < 36
  {
    hide TakeU32;
    overrun := b.Length() < 16;
    if overrun {
      return Error, overrun;
    }
    ghost var body := b.Contents();
    b.start := b.start + 16;
    assert b.Contents() == body[16..];
    TakesFour(body[16..]);
    r := ReadBeu32(b);
    if r == Error {
      return;
    }
    overrun := b.Length() < 16;
    if overrun {
      return Error, overrun;
    }
    b.start := b.start + 16;
    assert b.Contents() == body[36..];
  }

  method ReadUntil(b: ByteBuffer, which: u32) returns (r: Outcome<u32>, overrun: bool)
    requires b.Valid()
    modifies b`start
    ensures Kept(b)
    ensures match TakeU32(old(b.Contents()))
            case Malformed => r == Error && !overrun
            case Parsed(_, s) =>
              match Until(which, s)
              case Found(rest) => r == Got(which) && b.Contents() == rest && !overrun
              case Stopped(_) => r == Error && !overrun
              case Overrun => r == Error && overrun
  {
    hide TakeU32;
    overrun := false;
    var opcount :- ReadBeu32(b);
    ghost var s := b.Contents();
    while true
      invariant Kept(b) && !overrun
      invariant Until(which, b.Contents()) == Until(which, s)
      decreases b.end - b.start
    {
      var op :- ReadBeu32(b);
      assert Until(which, s) == UntilAfter(which, op, b.Contents());
      if op == which {
        return Got(op), overrun;
      }
      var code :- ReadBeu32(b);
      assert Until(which, s) == UntilPast(which, op, code, b.Contents());
      if code != 0 {
        return Error, overrun;
      }
      if op == OP_SEQUENCE {
        r, overrun := SkipSequence(b);
        if r == Error {
          return;
        }
      } else if op == OP_PUTROOTFH || op == OP_PUTFH || op == OP_LOOKUP {
      } else {
        return Error, overrun;
      }
    }
  }

  // The part of base_transact behind read_response.
  method Hear(b: ByteBuffer, xid: u32, which: u32) returns (ok: bool, badSession: bool, overrun: bool)
    requires b.Valid()
    modifies b`start
    ensures Kept(b)
    ensures match Listen(xid, which, old(b.Contents()))
            case Found(rest) => ok && !badSession && !overrun && b.Contents() == rest
            case Stopped(bad) => !ok && !overrun && badSession == bad
            case Overrun => !ok && overrun && !badSession
  {
    hide Head, Until;
    ok, overrun := false, false;
    var head;
    head, badSession := ParseRpc(b, xid);
    if head == Error {
      return;
    }
    var found;
    found, overrun := ReadUntil(b, which);
    if found == Error {
      return;
    }
    var code := ReadBeu32(b);
    ok := code == Got(0);
  }

  // ---------- Well-formed replies ----------

  /** The body of a successful result is what section 18 of RFC 5661 calls for.  What the client does not look at is
      left open. */
  ghost predicate BodyOk(op: u32, body: seq<u8>) {
    && (op == OP_SEQUENCE ==> |body| == 36)
    && (op == OP_PUTFH || op == OP_PUTROOTFH || op == OP_LOOKUP || op == OP_RECLAIM_COMPLETE ==> body == [])
    && (op == OP_EXCHANGE_ID ==> IsExchange(body))
    && (op == OP_CREATE_SESSION ==> IsSession(body))
    && (op == OP_LOCK || op == OP_LOCKU ==> IsSid(body))
    && (op == OP_READ ==> IsRead(body))
    && (op == OP_OPEN ==> IsOpen(body))
    && (op == OP_GETFH ==> IsHandle(body))
  }

  /** A COMPOUND reply answers an operation list: results in order, all but the last successful, the last one's
      status being that of the whole, and all operations present if that is zero (RFC 5661, section 16.2.3). */
  ghost predicate Answers(codes: seq<u32>, status: u32, results: seq<Res>) {
    && |results| <= |codes|
    && (forall i | 0 <= i < |results| :: results[i].op == codes[i])
    && (forall i | 0 <= i < |results| :: results[i].status == 0 ==> BodyOk(results[i].op, results[i].body))
    && (forall i | 0 <= i < |results| - 1 :: results[i].status == 0)
    && (results != [] ==> results[|results| - 1].status == status)
    && (status == 0 ==> |results| == |codes|)
  }

  // Operation `which` stands at `t`, behind operations that read_until passes over.
  predicate TargetAt(codes: seq<u32>, which: u32, t: nat) {
    && t < |codes| && codes[t] == which
    && forall i | 0 <= i < t :: codes[i] != which && (codes[i] == OP_SEQUENCE || Empty(codes[i]))
  }

  ghost predicate Skippable(r: Res, which: u32) {
    r.op != which && r.status == 0 && (r.op == OP_SEQUENCE || Empty(r.op)) && BodyOk(r.op, r.body)
  }

  lemma {:induction false} UntilReaches(which: u32, results: seq<Res>, t: nat, tail: seq<u8>)
    requires t < |results| && results[t].op == which
    requires forall i | 0 <= i < t :: Skippable(results[i], which)
    ensures Until(which, EncodeResults(results) + tail)
            == Found(Be32(results[t].status) + results[t].body + (EncodeResults(results[t + 1..]) + tail))
  {
    hide Be32, TakeU32;
    var r, more := results[0], results[1..];
    var behind := EncodeResults(more) + tail;
    var s := EncodeResults(results) + tail;
    assert s == Be32(r.op) + (Be32(r.status) + (r.body + behind));
    TakeU32Encoded(r.op, Be32(r.status) + (r.body + behind));
    if t == 0 {
      assert Be32(r.status) + (r.body + behind) == Be32(r.status) + r.body + behind;
    } else {
      TakeU32Encoded(r.status, r.body + behind);
      assert Until(which, s) == UntilPast(which, r.op, r.status, r.body + behind);
      assert (r.body + behind)[|r.body|..] == behind;
      UntilReaches(which, more, t - 1, tail);
      assert more[t - 1] == results[t] && more[t..] == results[t + 1..];
    }
  }

  lemma HeadEncoded(m: Message, xid: u32)
    requires m.Compound? && |m.results| < U32_SIZE
    ensures Head(xid, EncodeReply(m)) ==
            if xid != m.xid then Malformed
            else if m.status == 0 then Parsed(0, Be32(|m.results|) + EncodeResults(m.results))
            else Parsed(m.status, Be32(0) + Be32(|m.results|) + EncodeResults(m.results))
  {
    hide Be32, Expect, TakeU32, EncodeResults;
    var last := Be32(|m.results|) + EncodeResults(m.results);
    var s6 := Be32(m.status) + (Be32(0) + last);
    var s2 := Be32(0) + (Be32(0) + (Be32(0) + (Be32(0) + s6)));
    assert EncodeReply(m) == Be32(m.xid) + (Be32(1) + s2);
    ExpectEncoded(xid, m.xid, Be32(1) + s2);
    ExpectEncoded(1, 1, s2);
    ExpectEncoded(0, 0, Be32(0) + (Be32(0) + (Be32(0) + s6)));
    ExpectEncoded(0, 0, Be32(0) + (Be32(0) + s6));
    ExpectEncoded(0, 0, Be32(0) + s6);
    ExpectEncoded(0, 0, s6);
    TakeU32Encoded(m.status, Be32(0) + last);
    ExpectEncoded(0, 0, last);
    assert Be32(0) + Be32(|m.results|) + EncodeResults(m.results) == Be32(0) + last;
  }

  lemma HeadRefuses(m: Message, xid: u32)
    requires m.Denied? || (m.Unexecuted? && m.acceptStat != 0)
    ensures Head(xid, EncodeReply(m)) == Malformed
  {
    hide Be32, Expect, TakeU32;
    match m
    case Denied(_, detail) =>
      assert EncodeReply(m) == Be32(m.xid) + (Be32(1) + (Be32(1) + detail));
      ExpectEncoded(xid, m.xid, Be32(1) + (Be32(1) + detail));
      ExpectEncoded(1, 1, Be32(1) + detail);
      ExpectEncoded(0, 1, detail);
    case Unexecuted(_, stat, detail) =>
      var s5 := Be32(stat) + detail;
      var s2 := Be32(0) + (Be32(0) + (Be32(0) + s5));
      assert EncodeReply(m) == Be32(m.xid) + (Be32(1) + s2);
      ExpectEncoded(xid, m.xid, Be32(1) + s2);
      ExpectEncoded(1, 1, s2);
      ExpectEncoded(0, 0, Be32(0) + (Be32(0) + s5));
      ExpectEncoded(0, 0, Be32(0) + s5);
      ExpectEncoded(0, 0, s5);
      ExpectEncoded(0, stat, detail);
  }

  /** For every well-formed successful reply whose operations before the target are SEQUENCE, PUTFH, PUTROOTFH
      and LOOKUP, the scan leaves the cursor at the first byte of the target's body. */
  lemma ScanReachesBody(xid: u32, codes: seq<u32>, results: seq<Res>, which: u32, t: nat)
    requires Answers(codes, 0, results) && TargetAt(codes, which, t) && |results| < U32_SIZE
    ensures Listen(xid, which, EncodeReply(Compound(xid, 0, results)))
            == Found(results[t].body + EncodeResults(results[t + 1..]))
  {
    hide Be32, Head, Until, EncodeResults, EncodeReply, TakeU32, IsExchange, IsSession, IsSid, IsRead, IsOpen, IsHandle;
    HeadEncoded(Compound(xid, 0, results), xid);
    TakeU32Encoded(|results|, EncodeResults(results));
    UntilReaches(which, results, t, []);
    assert EncodeResults(results) + [] == EncodeResults(results);
    var rest := results[t].body + EncodeResults(results[t + 1..]);
    assert Be32(0) + results[t].body + (EncodeResults(results[t + 1..]) + []) == Be32(0) + rest;
    ExpectEncoded(0, 0, rest);
    assert (Be32(0) + rest)[4..] == rest;
  }

  /** Exactly when the scan succeeds, and exactly when it reports a bad session; it never leaves the reply. */
  lemma ScanVerdict(m: Message, xid: u32, codes: seq<u32>, which: u32, t: nat)
    requires m.Compound? ==> Answers(codes, m.status, m.results) && |m.results| < U32_SIZE
    requires m.Unexecuted? ==> m.acceptStat != 0
    requires TargetAt(codes, which, t)
    ensures Listen(xid, which, EncodeReply(m)).Found? <==> m.Compound? && m.xid == xid && m.status == 0
    ensures Listen(xid, which, EncodeReply(m)) == Stopped(true)
            <==> m.Compound? && m.xid == xid && m.status == BADSESSION
    ensures Listen(xid, which, EncodeReply(m)) != Overrun
  {
    hide Head, Until, EncodeReply;
    if m.Compound? {
      HeadEncoded(m, xid);
      if m.xid == xid && m.status == 0 {
        ScanReachesBody(xid, codes, m.results, which, t);
      }
    } else {
      HeadRefuses(m, xid);
    }
  }

  // ---------- The bad session, on the wire ----------

  /** An accepted reply with our xid whose COMPOUND has status 00 00 27 44, NFS4ERR_BADSESSION, is taken for a bad
      session, whatever follows; with any other status but success it is not. */
  lemma BadSessionOnTheWire(xid: u32, which: u32, status: seq<u8>, tail: seq<u8>)
    requires |status| == 4
    ensures var s := Be32(xid) + [0, 0, 0, 1] + Zeros(16) + status + tail;
      status != [0, 0, 0, 0] ==> Listen(xid, which, s) == Stopped(status == [0, 0, 0x27, 0x44])
  {
    hide Until, Expect, TakeU32, FromBe32, Be32;
    var s := Be32(xid) + [0, 0, 0, 1] + Zeros(16) + status + tail;
    var w := FromBe32(status);
    FromBe32RoundTrip(status);
    Be32RoundTrip(BADSESSION);
    StatusBytes();
    assert s == Be32(xid) + [0, 0, 0, 1] + Zeros(16) + (status + tail);
    AcceptedEncoded(xid, status + tail, s);
    TakeU32Encoded(w, tail);
  }

  lemma StatusBytes()
    ensures Be32(0) == [0, 0, 0, 0] && Be32(1) == [0, 0, 0, 1] && Be32(BADSESSION) == [0, 0, 0x27, 0x44]
    ensures Be32(SEQ_MISORDERED) == [0, 0, 0x27, 0x4f]
  {
  }

  lemma AcceptedEncoded(xid: u32, rest: seq<u8>, s: seq<u8>)
    requires s == Be32(xid) + [0, 0, 0, 1] + Zeros(16) + rest
    ensures Accepted(xid, s) == Parsed(0, rest)
  {
    hide Be32, Expect, TakeU32;
    StatusBytes();
    var s5 := Be32(0) + rest;
    var s3 := Be32(0) + (Be32(0) + s5);
    assert s == Be32(xid) + (Be32(1) + (Be32(0) + s3));
    ExpectEncoded(xid, xid, Be32(1) + (Be32(0) + s3));
    ExpectEncoded(1, 1, Be32(0) + s3);
    ExpectEncoded(0, 0, s3);
    ExpectEncoded(0, 0, Be32(0) + s5);
    ExpectEncoded(0, 0, s5);
    ExpectEncoded(0, 0, rest);
  }
}
