/** Reading the bodies of results: the parse_* functions, against the XDR decoder. */
module Results {
  import opened Bytes
  import opened Buffer
  import opened Wire
  import opened Call
  import opened Rpc
  import opened Reply
  import opened Resok

  // ---------- One field at a time ----------

  // Reading a field leaves `b` in front of the remaining kinds.
  twostate predicate Stepped(b: ByteBuffer, kinds: seq<Kind>, f: Field)
    reads b, b.contents
  {
    && kinds != []
    && Kept(b)
    && old(b.Valid())
    && match DecodeKinds(kinds, old(b.Contents()))
       case Malformed => DecodeKinds(kinds[1..], b.Contents()) == Malformed
       case Parsed(fs, rest) => fs != [] && fs[0] == f && DecodeKinds(kinds[1..], b.Contents()) == Parsed(fs[1..], rest)
  }

  method ReadWord(b: ByteBuffer, ghost kinds: seq<Kind>) returns (r: Outcome<u32>)
    requires b.Valid() && kinds != [] && kinds[0] == KU32
    modifies b`start
    ensures Kept(b)
    ensures if r.Got? then Stepped(b, kinds, U32(r.value)) else DecodeKinds(kinds, old(b.Contents())) == Malformed
  {
    hide TakeU32;
    r := ReadBeu32(b);
  }

  /** A memcpy of `n` bytes, which the source does not check. */
  method CopyRaw(b: ByteBuffer, n: nat, ghost kinds: seq<Kind>) returns (x: seq<u8>)
    requires b.Valid() && kinds != [] && kinds[0] == KFixed(n) && n > 0 && n % 4 == 0
    requires |b.Contents()| >= n
    modifies b`start
    ensures Kept(b) && Stepped(b, kinds, Fixed(x)) && |x| == n
  {
    hide TakePadded;
    FixedDecoded(n, b.Contents());
    var all := ReadBuffer(b, n);
    x := all.value;
  }

  lemma FixedDecoded(n: nat, s: seq<u8>)
    requires n > 0 && n % 4 == 0
    ensures DecodeField(KFixed(n), s) == if |s| >= n then Parsed(Fixed(s[..n]), s[n..]) else Malformed
  {
    assert Fill(n) == 0;
    if |s| >= n {
      assert s[n..n + Fill(n)] == [] == Zeros(0);
    }
  }

  lemma LastFixed(n: nat, s: seq<u8>)
    requires n > 0 && n % 4 == 0
    ensures DecodeKinds([KFixed(n)], s) == if |s| >= n then Parsed([Fixed(s[..n])], s[n..]) else Malformed
  {
    hide DecodeField;
    FixedDecoded(n, s);
    if |s| >= n {
      NothingLeft(s[n..]);
      assert [KFixed(n)][1..] == [];
      assert [Fixed(s[..n])] + [] == [Fixed(s[..n])];
    }
  }

  method ReadLong(b: ByteBuffer, ghost kinds: seq<Kind>) returns (r: Outcome<u64>)
    requires b.Valid() && kinds != [] && kinds[0] == KU64
    modifies b`start
    ensures Kept(b)
    ensures if r.Got? then Stepped(b, kinds, U64(r.value)) else DecodeKinds(kinds, old(b.Contents())) == Malformed
  {
    LongIsLong(b.Contents());
    hide DecodeField;
    r := ReadBeu64(b);
  }

  lemma LongIsLong(s: seq<u8>)
    ensures DecodeField(KU64, s).Parsed? ==> DecodeField(KU64, s).value == U64(DecodeField(KU64, s).value.d)
  {
  }

  // ---------- Bodies ----------

  lemma EightBytes(s: seq<u8>)
    requires |s| == 8
    ensures DecodeField(KU64, s) == Parsed(U64(FromBe64(s)), [])
  {
    hide FromBe64;
    assert s[..8] == s;
  }

  /** What file_size reads: the last eight bytes of the reply. */
  method ParseSize(b: ByteBuffer) returns (size: u64)
    requires b.Valid() && |b.Contents()| >= 8
    modifies b`start
    ensures Kept(b) && size == FromBe64(old(b.Contents())[|old(b.Contents())| - 8..])
  {
    hide FromBe64, DecodeField;
    ghost var all := b.Contents();
    b.start := b.end - 8;
    ghost var last := b.Contents();
    assert last == all[|all| - 8..];
    EightBytes(last);
    var v := ReadBeu64(b);
    size := v.value;
  }

  method ParseStateid(b: ByteBuffer) returns (r: Outcome<Stateid>)
    requires b.Valid()
    modifies b`start
    ensures Kept(b)
    ensures match DecodeKinds(SID_KINDS, old(b.Contents()))
            case Malformed => r == Error
            case Parsed(fs, rest) => |fs| == 2 && r == Got(SidAt(fs, 0)) && b.Contents() == rest
  {
    hide DecodeField, DecodeKinds;
    assert SID_KINDS[1..] == [KFixed(12)];
    var seqid :- ReadWord(b, SID_KINDS);
    LastFixed(12, b.Contents());
    var other :- ReadBuffer(b, 12);
    r := Got(Stateid(seqid, other));
  }

  // The words of an OPEN result behind its stateid; the last is the length of the bitmap.
  method ParseChange(b: ByteBuffer) returns (r: Outcome<u32>)
    requires b.Valid()
    modifies b`start
    ensures Kept(b)
    ensures match DecodeKinds(CHANGE_KINDS, old(b.Contents()))
            case Malformed => r == Error
            case Parsed(fs, rest) => |fs| == 5 && r == Got(Word(fs[4])) && b.Contents() == rest
  {
    hide DecodeField, DecodeKinds;
    ghost var k1, k2, k3, k4 := [KU64, KU64, KU32, KU32], [KU64, KU32, KU32], [KU32, KU32], [KU32];
    assert CHANGE_KINDS[1..] == k1 && k1[1..] == k2 && k2[1..] == k3 && k3[1..] == k4 && k4[1..] == [];
    var _ :- ReadWord(b, CHANGE_KINDS);  // atomic
    var _ :- ReadLong(b, k1);            // before
    var _ :- ReadLong(b, k2);            // after
    var _ :- ReadWord(b, k3);            // flags
    r := ReadWord(b, k4);
    NothingLeft(b.Contents());
  }

  /** parse_open, as far as it goes without a delegation.  The bitmap is skipped without a check; `beyond` marks that
      this leaves the reply, or that there is a delegation. */
  method ParseOpen(b: ByteBuffer) returns (r: Outcome<Stateid>, beyond: bool)
    requires b.Valid()
    modifies b`start
    ensures Kept(b)
    ensures match DecodeOpen(old(b.Contents()))
            case Malformed => r == Error
            case Parsed(sid, rest) => r == Got(sid) && SidOk(sid) && b.Contents() == rest && !beyond
  {
    hide DecodeKinds, TakeU32;
    beyond := false;
    SidIsOkIfAny(b.Contents());
    var sid :- ParseStateid(b);
    var n :- ParseChange(b);
    var bitmap: int := 4 * (n as int);
    if b.Length() < bitmap {
      return Error, true;
    }
    ghost var behind := b.Contents();
    b.start := b.start + bitmap;
    assert b.Contents() == behind[bitmap..];
    var kind :- ReadBeu32(b);
    if kind != DELEGATE_NONE {
      return Error, true;
    }
    r := Got(sid);
  }

  lemma SidIsOkIfAny(body: seq<u8>)
    ensures DecodeKinds(SID_KINDS, body).Parsed? ==>
      |DecodeKinds(SID_KINDS, body).value| == 2 && SidOk(SidAt(DecodeKinds(SID_KINDS, body).value, 0))
  {
    hide DecodeKinds;
    if DecodeKinds(SID_KINDS, body).Parsed? {
      SidIsOk(body);
    }
  }

  lemma SidIsOk(body: seq<u8>)
    requires DecodeKinds(SID_KINDS, body).Parsed?
    ensures |DecodeKinds(SID_KINDS, body).value| == 2 && SidOk(SidAt(DecodeKinds(SID_KINDS, body).value, 0))
  {
    hide TakeU32;
    assert SID_KINDS[1..] == [KFixed(12)];
    LastFixed(12, TakeU32(body).rest);
  }

  // ---------- What the client has taken from a result ----------

  ghost predicate GotHandle(body: seq<u8>, fh: seq<u8>) {
    |fh| <= 128 && body == EncodeHandle(fh)
  }

  // The handle stands at the start of the stored one.
  ghost predicate GotRoot(body: seq<u8>, before: seq<u8>, fh: seq<u8>, len: nat) {
    && len <= |fh| && len <= |before| && len <= 128
    && body == EncodeHandle(fh[..len]) && fh == fh[..len] + before[len..]
  }

  ghost predicate GotSid(body: seq<u8>, s: Stateid) {
    SidOk(s) && body == EncodeSid(s)
  }

  ghost predicate GotData(body: seq<u8>, data: seq<u8>) {
    Short(data) && exists eof :: body == EncodeRead(eof, data)
  }

  ghost predicate GotOpen(body: seq<u8>, s: Stateid) {
    exists a :: OpenAnswerOk(a) && body == EncodeOpen(a) && s == a.sid
  }

  ghost predicate GotClientId(body: seq<u8>, clientid: seq<u8>, seqid: u32) {
    exists a :: ExchangeOk(a) && body == EncodeExchange(a) && clientid == a.clientid && seqid == a.seqid
  }

  /** The GETFH result behind an OPEN: its code, its status, and the handle. */
  method ParseGetFh(b: ByteBuffer) returns (r: Outcome<seq<u8>>)
    requires b.Valid()
    modifies b`start
    ensures Kept(b)
    ensures match Expect(OP_GETFH, old(b.Contents()))
            case Malformed => r == Error
            case Parsed(_, s) =>
              match Expect(0, s)
              case Malformed => r == Error
              case Parsed(_, s) =>
                match TakeU32(s)
                case Malformed => r == Error
                case Parsed(n, s) => r == if n <= FHSIZE && n <= |s| then Got(s[..n]) else Error
  {
    hide TakeU32;
    var _ :- VerifyAndAdv(b, OP_GETFH);
    var _ :- VerifyAndAdv(b, 0);
    var n :- ReadBeu32(b);
    if n > FHSIZE {
      return Error;
    }
    r := ReadBuffer(b, n);
  }

  /** parse_exchange_id.  The client id is copied without a check; `overrun` marks that this leaves the reply. */
  method ParseExchangeId(c: Client, b: ByteBuffer) returns (r: Outcome<u32>, overrun: bool)
    requires b.Valid()
    modifies b`start, c`clientid, c`serverSequence
    ensures Kept(b) && (old(|c.clientid|) == 8 ==> |c.clientid| == 8)
    ensures overrun <==> |old(b.Contents())| < 8
    ensures match DecodeKinds(EXCHANGE_ID_KINDS, old(b.Contents()))
            case Malformed => r == Error
            case Parsed(fs, rest) =>
              && |fs| == 3 && r.Got? && b.Contents() == rest
              && c.clientid == Data(fs[0]) && c.serverSequence == Word(fs[1])
  {
    hide DecodeField;
    ghost var kinds := EXCHANGE_ID_KINDS;
    overrun := b.Length() < 8;
    if overrun {
      TooShort(8, EXCHANGE_ID_KINDS, b.Contents());
      return Error, overrun;
    }
    c.clientid := CopyRaw(b, 8, kinds);
    var seqid :- ReadWord(b, kinds[1..]);
    c.serverSequence := seqid;
    r := ReadWord(b, kinds[1..][1..]);  // flags
    assert kinds[1..][1..][1..] == [];
  }

  /** The root handle of get_root_fh: only as many bytes of the stored handle are replaced as the reply has. */
  method ParseRootFh(c: Client, b: ByteBuffer) returns (r: Outcome<seq<u8>>)
    requires b.Valid() && |c.rootFh| == FHSIZE && c.rootFhLen <= FHSIZE
    modifies b`start, c`rootFh, c`rootFhLen
    ensures Kept(b) && |c.rootFh| == FHSIZE && c.rootFhLen <= FHSIZE
    ensures match TakeU32(old(b.Contents()))
            case Malformed => r == Error
            case Parsed(n, s) =>
              if n <= FHSIZE && n <= |s| then
                r == Got(s[..n]) && c.rootFhLen == n && c.rootFh == s[..n] + old(c.rootFh)[n..]
              else r == Error
  {
    hide TakeU32;
    var n :- ReadBeu32(b);
    if n > FHSIZE {
      return Error;
    }
    c.rootFhLen := n;
    var fh :- ReadBuffer(b, n);
    c.rootFh := fh + c.rootFh[n..];
    r := Got(fh);
  }

  function Min(a: u32, b: u32): (r: u32)
    ensures r <= a && r <= b && (r == a || r == b)
  {
    if a > b then b else a
  }

  lemma TooShort(n: nat, kinds: seq<Kind>, s: seq<u8>)
    requires n > 0 && n % 4 == 0 && kinds != [] && kinds[0] == KFixed(n) && |s| < n
    ensures DecodeKinds(kinds, s) == Malformed
  {
    hide DecodeField;
    FixedDecoded(n, s);
  }

  /** parse_create_session: the session id, and limits lowered to what the server allows.  The session id is copied
      without a check; `overrun` marks that this leaves the reply. */
  method ParseCreateSession(c: Client, b: ByteBuffer) returns (r: Outcome<u32>, overrun: bool)
    requires b.Valid()
    modifies b`start, c`session, c`maxreq, c`maxresp, c`maxops, c`maxreqs
    ensures Kept(b) && (old(|c.session|) == 16 ==> |c.session| == 16)
    ensures overrun <==> |old(b.Contents())| < 16
    ensures match DecodeKinds(CREATE_SESSION_KINDS, old(b.Contents()))
            case Malformed => r == Error
            case Parsed(fs, rest) =>
              && |fs| == 10 && r.Got? && b.Contents() == rest
              && c.session == Data(fs[0])
              && c.maxreq == Min(old(c.maxreq), Word(fs[4])) && c.maxresp == Min(old(c.maxresp), Word(fs[5]))
              && c.maxops == Min(old(c.maxops), Word(fs[7])) && c.maxreqs == Min(old(c.maxreqs), Word(fs[8]))
  {
    hide DecodeField, DecodeKinds;
    ghost var k1 := [KU32, KU32] + KCHANNEL;
    assert CREATE_SESSION_KINDS[1..] == k1 && k1[1..] == [KU32] + KCHANNEL && k1[1..][1..] == KCHANNEL;
    overrun := b.Length() < 16;
    if overrun {
      TooShort(16, CREATE_SESSION_KINDS, b.Contents());
      return Error, overrun;
    }
    c.session := CopyRaw(b, 16, CREATE_SESSION_KINDS);
    var _ :- ReadWord(b, k1);      // sequence
    var _ :- ReadWord(b, k1[1..]); // flags
    r := ParseChannel(c, b);
  }

  // The fore channel, word by word.
  method ParseChannel(c: Client, b: ByteBuffer) returns (r: Outcome<u32>)
    requires b.Valid()
    modifies b`start, c`maxreq, c`maxresp, c`maxops, c`maxreqs
    ensures Kept(b)
    ensures match DecodeKinds(KCHANNEL, old(b.Contents()))
            case Malformed => r == Error
            case Parsed(fs, rest) =>
              && |fs| == 7 && r.Got? && b.Contents() == rest
              && c.maxreq == Min(old(c.maxreq), Word(fs[1])) && c.maxresp == Min(old(c.maxresp), Word(fs[2]))
              && c.maxops == Min(old(c.maxops), Word(fs[4])) && c.maxreqs == Min(old(c.maxreqs), Word(fs[5]))
  {
    hide DecodeField, DecodeKinds;
    WordsShrink();
    assert KCHANNEL == Words(7);
    var _ :- ReadWord(b, Words(7));  // header pad size
    var maxreq :- ReadWord(b, Words(6));
    c.maxreq := Min(c.maxreq, maxreq);
    var maxresp :- ReadWord(b, Words(5));
    c.maxresp := Min(c.maxresp, maxresp);
    r := ParseChannelLimits(c, b);
  }

  // The rest of the channel: limits on operations and requests.
  method ParseChannelLimits(c: Client, b: ByteBuffer) returns (r: Outcome<u32>)
    requires b.Valid()
    modifies b`start, c`maxops, c`maxreqs
    ensures Kept(b)
    ensures match DecodeKinds(Words(4), old(b.Contents()))
            case Malformed => r == Error
            case Parsed(fs, rest) =>
              && |fs| == 4 && r.Got? && b.Contents() == rest
              && c.maxops == Min(old(c.maxops), Word(fs[1])) && c.maxreqs == Min(old(c.maxreqs), Word(fs[2]))
  {
    hide DecodeField, DecodeKinds;
    WordsShrink();
    var _ :- ReadWord(b, Words(4));  // maximum cached response
    var maxops :- ReadWord(b, Words(3));
    c.maxops := Min(c.maxops, maxops);
    var maxreqs :- ReadWord(b, Words(2));
    c.maxreqs := Min(c.maxreqs, maxreqs);
    r := ReadWord(b, Words(1));      // RDMA
    NothingLeft(b.Contents());
  }

  function Words(n: nat): seq<Kind> {
    seq(n, _ => KU32)
  }

  lemma WordsShrink()
    ensures Words(7)[1..] == Words(6) && Words(6)[1..] == Words(5) && Words(5)[1..] == Words(4)
    ensures Words(4)[1..] == Words(3) && Words(3)[1..] == Words(2) && Words(2)[1..] == Words(1) && Words(1)[1..] == []
  {
  }

  lemma NothingLeft(s: seq<u8>)
    ensures DecodeKinds([], s) == Parsed([], s)
  {
  }
}
