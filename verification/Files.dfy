/** Operations on files: each builds its compound in the forward buffer and hands it to transact. */
module Files {
  import opened Bytes
  import opened Buffer
  import opened Wire
  import opened Call
  import opened Replay
  import opened Rpc
  import opened Reply
  import opened Resok
  import opened Results
  import opened Peer
  import opened Session

  const ATTR_SIZE: u32 := 16     // 1 << FATTR4_SIZE
  const FILE_SYNC: u32 := 2
  const ACCESS_READ: u32 := 1
  const ACCESS_BOTH: u32 := 3

  // ---------- Paths ----------

  function Lookups(path: seq<seq<u8>>): seq<Op> {
    seq(|path|, i requires 0 <= i < |path| => Lookup(path[i]))
  }

  /** One LOOKUP for each component, in order. */
  lemma LookupsInOrder(path: seq<seq<u8>>)
    ensures |Lookups(path)| == |path| && forall i | 0 <= i < |path| :: Lookups(path)[i] == Lookup(path[i])
  {
  }

  // An upper bound on what a path takes in a request.
  function PathRoom(path: seq<seq<u8>>): nat {
    if path == [] then 0 else PathRoom(path[..|path| - 1]) + |path[|path| - 1]| + 12
  }

  lemma {:induction false} RoomGrows(path: seq<seq<u8>>, i: nat)
    requires i <= |path|
    ensures PathRoom(path[..i]) <= PathRoom(path)
    ensures i < |path| ==> PathRoom(path[..i + 1]) == PathRoom(path[..i]) + |path[i]| + 12 <= PathRoom(path)
    decreases |path| - i
  {
    if i == |path| {
      assert path[..i] == path;
    } else {
      assert path[..i + 1][..i] == path[..i];
      RoomGrows(path, i + 1);
    }
  }

  // A request the size of which is known up to `room` bytes.
  twostate predicate Longer(r: Request, room: nat)
    reads r, r.b, r.b.contents
  {
    && r.Valid() && r.xid == old(r.xid) && r.b.end <= old(r.b.end) + room
    && (r.b.contents == old(r.b.contents) || fresh(r.b.contents)) && r.b.contents.Length >= old(r.b.contents.Length)
  }

  /** One LOOKUP for each component. */
  method PushLookups(r: Request, path: seq<seq<u8>>)
    requires r.Valid() && r.b.end + PathRoom(path) + 16 < LIMIT
    modifies r.b, r.b.contents, r`fields, r`opcount, r`ops
    ensures Longer(r, PathRoom(path)) && r.ops == old(r.ops) + Lookups(path)
  {
    hide Request.Raw, OpsFields;
    var i := 0;
    RoomGrows(path, 0);
    assert Lookups(path[..0]) == [];
    while i < |path|
      invariant 0 <= i <= |path|
      invariant Longer(r, PathRoom(path[..i])) && r.ops == old(r.ops) + Lookups(path[..i])
    {
      RoomGrows(path, i);
      r.PushLookup(path[i]);
      assert Lookups(path[..i + 1]) == Lookups(path[..i]) + [Lookup(path[i])];
      i := i + 1;
    }
    assert path[..i] == path;
  }

  /** push_resolution: from the server's root. */
  method PushResolution(r: Request, path: seq<seq<u8>>)
    requires r.Valid() && r.b.end + PathRoom(path) + 20 < LIMIT
    modifies r.b, r.b.contents, r`fields, r`opcount, r`ops
    ensures Longer(r, PathRoom(path) + 4) && r.ops == old(r.ops) + ([PutRootFh] + Lookups(path))
  {
    hide Request.Raw, OpsFields, Lookups, PathRoom;
    r.PushPutRootFh();
    PushLookups(r, path);
    assert old(r.ops) + [PutRootFh] + Lookups(path) == old(r.ops) + ([PutRootFh] + Lookups(path));
  }

  /** push_resolution_rfh: from the stored root handle, of which all FHSIZE bytes are sent.  That names the root
      exactly when its handle is as long as that. */
  method PushResolutionRfh(r: Request, c: Client, path: seq<seq<u8>>)
    requires r.Valid() && c.Shaped() && r.b.end + PathRoom(path) + 160 < LIMIT
    modifies r.b, r.b.contents, r`fields, r`opcount, r`ops
    ensures Longer(r, PathRoom(path) + 136) && r.ops == old(r.ops) + ([PutFh(c.rootFh)] + Lookups(path))
    ensures PutFh(c.rootFh) == PutFh(c.rootFh[..c.rootFhLen]) <==> c.rootFhLen == FHSIZE
  {
    hide Request.Raw, OpsFields, Lookups, PathRoom;
    assert Fill(FHSIZE) == 0;
    assert c.rootFh[..FHSIZE] == c.rootFh;
    r.PushPutFh(c.rootFh);
    PushLookups(r, path);
    assert old(r.ops) + [PutFh(c.rootFh)] + Lookups(path) == old(r.ops) + ([PutFh(c.rootFh)] + Lookups(path));
  }

  /** push_initial_path: walk to the directory and return the last component.  There is no last component of an
      empty path; the source panics then. */
  method PushInitialPath(r: Request, c: Client, path: seq<seq<u8>>) returns (final: seq<u8>)
    requires r.Valid() && c.Shaped() && r.b.end + PathRoom(path) + 160 < LIMIT && path != []
    modifies r.b, r.b.contents, r`fields, r`opcount, r`ops
    ensures Longer(r, PathRoom(path) + 136 - |path[|path| - 1]|) && final == path[|path| - 1]
    ensures r.ops == old(r.ops) + ([PutFh(c.rootFh)] + Lookups(path[..|path| - 1]))
  {
    hide Request.Raw, OpsFields, Lookups;
    RoomGrows(path, |path| - 1);
    PushResolutionRfh(r, c, path[..|path| - 1]);
    final := path[|path| - 1];
  }

  // ---------- What every builder leaves ----------

  lemma TargetBehind(front: seq<Op>, target: Op, behind: seq<Op>)
    requires forall i | 0 <= i < |front| ::
               front[i].Sequence? || front[i].PutFh? || front[i].PutRootFh? || front[i].Lookup?
    requires !target.Sequence? && !target.PutFh? && !target.PutRootFh? && !target.Lookup?
    ensures TargetAt(Codes(front + [target] + behind), Code(target), |front|)
  {
    var ops := front + [target] + behind;
    forall i | 0 <= i < |front| ensures Codes(ops)[i] == Code(front[i]) {
      assert ops[i] == front[i];
    }
    assert ops[|front|] == target;
  }

  // The compound `more` stands in the forward buffer behind the next SEQUENCE; operation `op` is its number `t`.
  twostate predicate Prepared(c: Client, new r: Request, op: u32, t: nat, more: seq<Op>)
    reads c, c.forward, c.forward.contents, c.reverse, r, r.b, r.b.contents
  {
    && c.Valid() && r.b == c.forward && (c.forward.contents == old(c.forward.contents) || fresh(c.forward.contents))
    && Sendable(c, r, op, t)
    && r.ops == [Seq(c.session, old(c.sequence))] + more && c.sequence == Next32(old(c.sequence))
  }

  // The bytes of the buffers may have moved.
  twostate predicate SameBuffers(c: Client)
    reads c.forward, c.reverse
  {
    && (c.forward.contents == old(c.forward.contents) || fresh(c.forward.contents))
    && (c.reverse.contents == old(c.reverse.contents) || fresh(c.reverse.contents))
  }

  lemma PreparedIsReady(c: Client, r: Request, op: u32, t: nat, session: seq<u8>, sequence: u32, more: seq<Op>)
    requires Sendable(c, r, op, t) && r.ops == [Seq(session, sequence)] + more
    requires c.session == session && c.sequence == Next32(sequence)
    ensures Ready(c, r, op, t, more)
  {
    assert r.ops[1..] == more;
  }

  /** struct file. */
  class File {
    const c: Client
    var filehandle: seq<u8>
    var latestSid: Stateid
    var openSid: Stateid

    ghost predicate Valid()
      reads this, c, c.forward, c.reverse
    {
      c.Valid() && |filehandle| <= FHSIZE && SidOk(latestSid) && SidOk(openSid)
    }

    constructor (c: Client)
      requires c.Valid()
      ensures Valid() && this.c == c && filehandle == []
    {
      this.c := c;
      filehandle := [];
      latestSid := Stateid(0, Zeros(12));
      openSid := Stateid(0, Zeros(12));
    }

    /** file_rpc. */
    method FileRpc() returns (r: Request)
      requires Valid()
      modifies c`xid, c`sequence, c.forward, c.forward.contents
      ensures fresh(r) && Valid() && r.b == c.forward && r.Valid() && r.xid == c.xid && r.b.end <= 400
      ensures c.forward.contents == old(c.forward.contents) || fresh(c.forward.contents)
      ensures r.ops == [Seq(c.session, old(c.sequence)), PutFh(filehandle)] && c.sequence == Next32(old(c.sequence))
    {
      hide OpsFields, Header, EncodeFields, Request.Raw;
      r := new Request.Allocate(c, c.forward);
      r.PushSequence(c);
      r.PushPutFh(filehandle);
      RawMeans(r);
    }

    // One more operation behind PUTFH.
    lemma OneMoreOp(session: seq<u8>, seqid: u32, op: Op, ops: seq<Op>)
      requires |session| == 16 && |filehandle| <= FHSIZE && OpOk(op)
      requires !op.Sequence? && !op.PutFh? && !op.PutRootFh? && !op.Lookup?
      requires ops == [Seq(session, seqid), PutFh(filehandle)] + [op]
      ensures OpsOk(ops) && TargetAt(Codes(ops), Code(op), 2) && ops == [Seq(session, seqid)] + [PutFh(filehandle), op]
    {
      hide TargetAt, Codes;
      var front := [Seq(session, seqid), PutFh(filehandle)];
      TargetBehind(front, op, []);
      assert front + [op] + [] == ops;
    }

    method NewRead(offset: u64, length: u32) returns (r: Request)
      requires Valid()
      modifies c`xid, c`sequence, c.forward, c.forward.contents
      ensures fresh(r) && Prepared(c, r, OP_READ, 2, [PutFh(filehandle), Read(latestSid, offset, length)])
    {
      hide OpsFields, Header, EncodeFields, Request.Raw, OpsOk, TargetAt, Codes;
      r := FileRpc();
      r.PushRead(latestSid, offset, length);
      OneMoreOp(c.session, old(c.sequence), Read(latestSid, offset, length), r.ops);
      RawMeans(r);
    }
  
    method NewWrite(offset: u64, data: seq<u8>) returns (r: Request)
      requires Valid() && |data| < LIMIT - 1024
      modifies c`xid, c`sequence, c.forward, c.forward.contents
      ensures fresh(r) && Prepared(c, r, OP_WRITE, 2, [PutFh(filehandle), Write(latestSid, offset, FILE_SYNC, data)])
    {
      hide OpsFields, Header, EncodeFields, Request.Raw, OpsOk, TargetAt, Codes;
      r := FileRpc();
      r.PushWrite(latestSid, offset, FILE_SYNC, data);
      OneMoreOp(c.session, old(c.sequence), Write(latestSid, offset, FILE_SYNC, data), r.ops);
      RawMeans(r);
    }

    method NewSize() returns (r: Request)
      requires Valid()
      modifies c`xid, c`sequence, c.forward, c.forward.contents
      ensures fresh(r) && Prepared(c, r, OP_GETATTR, 2, [PutFh(filehandle), GetAttr(ATTR_SIZE)])
    {
      hide OpsFields, Header, EncodeFields, Request.Raw, OpsOk, TargetAt, Codes;
      r := FileRpc();
      r.PushGetAttr(ATTR_SIZE);
      OneMoreOp(c.session, old(c.sequence), GetAttr(ATTR_SIZE), r.ops);
      RawMeans(r);
    }

    method NewLock(kind: u32, offset: u64, length: u64) returns (r: Request)
      requires Valid()
      modifies c`xid, c`sequence, c.forward, c.forward.contents
      ensures fresh(r)
      ensures Prepared(c, r, OP_LOCK, 2,
                       [PutFh(filehandle), Lock(kind, 0, offset, length, 0, openSid, 0, c.clientid, c.owner)])
    {
      hide OpsFields, Header, EncodeFields, Request.Raw, OpsOk, TargetAt, Codes;
      r := FileRpc();
      r.PushLock(c, kind, offset, length, openSid);
      OneMoreOp(c.session, old(c.sequence), Lock(kind, 0, offset, length, 0, openSid, 0, c.clientid, c.owner), r.ops);
      RawMeans(r);
    }

    method NewUnlock(kind: u32, offset: u64, length: u64) returns (r: Request)
      requires Valid()
      modifies c`xid, c`sequence, c.forward, c.forward.contents
      ensures fresh(r) && Prepared(c, r, OP_LOCKU, 2, [PutFh(filehandle), LockU(kind, 0, latestSid, offset, length)])
    {
      hide OpsFields, Header, EncodeFields, Request.Raw, OpsOk, TargetAt, Codes;
      r := FileRpc();
      r.PushLockU(kind, latestSid, offset, length);
      OneMoreOp(c.session, old(c.sequence), LockU(kind, 0, latestSid, offset, length), r.ops);
      RawMeans(r);
    }

    // ---------- Calls ----------

    // The answer to the operation behind PUTFH is the last one, and the cursor stands at its body.
    lemma LastBody(r: Request, tries: seq<Try>, f: Fate, op: Op)
      requires AtBody(c.reverse, f.results, 2) && Answering(r.ops, [PutFh(filehandle), op], tries, f)
      ensures |f.results| == 3 && BodyOk(Code(op), f.results[2].body) && c.reverse.Contents() == f.results[2].body
      ensures tries != [] && f == LastFate(tries)
    {
      hide BodyOk, SizesGiven;
      assert r.ops[2] == op && |r.ops| == 3;
      assert Codes(r.ops)[2] == Code(op);
      assert f.results[3..] == [];
    }

    lemma SizeIsGiven(r: Request, tries: seq<Try>, f: Fate)
      requires Answering(r.ops, [PutFh(filehandle), GetAttr(0x10)], tries, f) && |f.results| == 3
      ensures IsSize(f.results[2].body)
    {
      hide BodyOk, IsSize;
      assert r.ops[2] == r.ops[1..][1];
      assert f.results[2].status == 0;
    }

    lemma SidInLock(code: u32, body: seq<u8>)
      requires BodyOk(code, body) && (code == OP_LOCK || code == OP_LOCKU)
      ensures IsSid(body)
    {
      hide IsExchange, IsSession, IsSid, IsRead, IsOpen, IsHandle;
    }

    /** lock_range: the lock is asked for with the open stateid; the answer's stateid becomes the latest one. */
    method LockRange(link: Link, kind: u32, offset: u64, length: u64)
      returns (ok: bool, end: End, ghost tries: seq<Try>)
      requires Valid() && link.Valid()
      modifies this`latestSid, c, c.forward, c.forward.contents, c.reverse, c.reverse.contents, link
      ensures Valid() && SameBuffers(c)
      ensures Performed(link, old(StateOf(c, link)),
                    [PutFh(filehandle), Lock(kind, 0, offset, length, 0, openSid, 0, old(c.clientid), old(c.owner))],
                        tries, ok, end, StateOf(c, link))
      ensures ok ==> tries != [] && |LastFate(tries).results| == 3 && GotSid(LastFate(tries).results[2].body, latestSid)
      ensures !ok ==> latestSid == old(latestSid)
    {
      hide Sendable, Ready, Transacted, AtBody, Answering, BodyOk, OpsOk, TargetAt, Codes;
      ghost var op := Lock(kind, 0, offset, length, 0, openSid, 0, c.clientid, c.owner);
      ghost var session, sequence := c.session, c.sequence;
      var r := NewLock(kind, offset, length);
      PreparedIsReady(c, r, OP_LOCK, 2, session, sequence, [PutFh(filehandle), op]);
      ghost var f;
      ok, end, tries, f := Transact(c, link, r, OP_LOCK, 2, [PutFh(filehandle), op]);
      if ok {
        LastBody(r, tries, f, op);
        SidInLock(Code(op), f.results[2].body);
        TakeSid(f.results[2].body);
      }
    }

    /** unlock_range: with the latest stateid, which the answer replaces. */
    method UnlockRange(link: Link, kind: u32, offset: u64, length: u64)
      returns (ok: bool, end: End, ghost tries: seq<Try>)
      requires Valid() && link.Valid()
      modifies this`latestSid, c, c.forward, c.forward.contents, c.reverse, c.reverse.contents, link
      ensures Valid() && SameBuffers(c)
      ensures Performed(link, old(StateOf(c, link)),
                        [PutFh(filehandle), LockU(kind, 0, old(latestSid), offset, length)],
                        tries, ok, end, StateOf(c, link))
      ensures ok ==> tries != [] && |LastFate(tries).results| == 3 && GotSid(LastFate(tries).results[2].body, latestSid)
      ensures !ok ==> latestSid == old(latestSid)
    {
      hide Sendable, Ready, Transacted, AtBody, Answering, BodyOk, OpsOk, TargetAt, Codes;
      ghost var op := LockU(kind, 0, latestSid, offset, length);
      ghost var session, sequence := c.session, c.sequence;
      var r := NewUnlock(kind, offset, length);
      PreparedIsReady(c, r, OP_LOCKU, 2, session, sequence, [PutFh(filehandle), op]);
      ghost var f;
      ok, end, tries, f := Transact(c, link, r, OP_LOCKU, 2, [PutFh(filehandle), op]);
      if ok {
        LastBody(r, tries, f, op);
        SidInLock(Code(op), f.results[2].body);
        TakeSid(f.results[2].body);
      }
    }

    /** write_chunk: how much the server says it wrote is not looked at. */
    method WriteChunk(link: Link, data: seq<u8>, offset: u64)
      returns (ok: bool, end: End, ghost tries: seq<Try>)
      requires Valid() && link.Valid() && |data| < LIMIT - 1024
      modifies c, c.forward, c.forward.contents, c.reverse, c.reverse.contents, link
      ensures Valid() && SameBuffers(c)
      ensures Performed(link, old(StateOf(c, link)),
                        [PutFh(filehandle), Write(old(latestSid), offset, FILE_SYNC, data)],
                        tries, ok, end, StateOf(c, link))
      ensures latestSid == old(latestSid)
    {
      hide Sendable, Ready, Transacted, AtBody, Answering, BodyOk, OpsOk, TargetAt, Codes;
      ghost var op := Write(latestSid, offset, FILE_SYNC, data);
      ghost var session, sequence := c.session, c.sequence;
      var r := NewWrite(offset, data);
      PreparedIsReady(c, r, OP_WRITE, 2, session, sequence, [PutFh(filehandle), op]);
      ghost var f;
      ok, end, tries, f := Transact(c, link, r, OP_WRITE, 2, [PutFh(filehandle), op]);
    }

    /** read_chunk: as many bytes as the server sends. */
    method ReadChunk(link: Link, offset: u64, length: u32)
      returns (ok: bool, data: seq<u8>, end: End, ghost tries: seq<Try>)
      requires Valid() && link.Valid()
      modifies c, c.forward, c.forward.contents, c.reverse, c.reverse.contents, link
      ensures Valid() && SameBuffers(c)
      ensures Performed(link, old(StateOf(c, link)), [PutFh(filehandle), Read(old(latestSid), offset, length)],
                        tries, ok, end, StateOf(c, link))
      ensures ok ==> tries != [] && |LastFate(tries).results| == 3 && GotData(LastFate(tries).results[2].body, data)
    {
      hide Sendable, Ready, Transacted, AtBody, Answering, BodyOk, OpsOk, TargetAt, Codes;
      ghost var op := Read(latestSid, offset, length);
      ghost var session, sequence := c.session, c.sequence;
      var r := NewRead(offset, length);
      PreparedIsReady(c, r, OP_READ, 2, session, sequence, [PutFh(filehandle), op]);
      ghost var f;
      ok, end, tries, f := Transact(c, link, r, OP_READ, 2, [PutFh(filehandle), op]);
      data := [];
      if ok {
        LastBody(r, tries, f, op);
        data := TakeData(f.results[2].body);
      }
    }

    /** file_size: the size that the server answers. */
    method FileSize(link: Link)
      returns (ok: bool, size: u64, end: End, ghost tries: seq<Try>)
      requires Valid() && link.Valid()
      modifies c, c.forward, c.forward.contents, c.reverse, c.reverse.contents, link
      ensures Valid() && SameBuffers(c)
      ensures Performed(link, old(StateOf(c, link)), [PutFh(filehandle), GetAttr(ATTR_SIZE)],
                        tries, ok, end, StateOf(c, link))
      ensures ok ==> tries != [] && |LastFate(tries).results| == 3
      ensures ok ==> LastFate(tries).results[2].body == EncodeSize(size)
    {
      hide Sendable, Ready, Transacted, AtBody, Answering, BodyOk, OpsOk, TargetAt, Codes;
      ghost var op := GetAttr(ATTR_SIZE);
      ghost var session, sequence := c.session, c.sequence;
      var r := NewSize();
      PreparedIsReady(c, r, OP_GETATTR, 2, session, sequence, [PutFh(filehandle), op]);
      ghost var f;
      ok, end, tries, f := Transact(c, link, r, OP_GETATTR, 2, [PutFh(filehandle), op]);
      size := 0;
      if ok {
        LastBody(r, tries, f, op);
        SizeIsGiven(r, tries, f);
        size := TakeSize(f.results[2].body);
      }
    }

    method TakeData(ghost body: seq<u8>) returns (data: seq<u8>)
      requires Valid() && c.reverse.Contents() == body && BodyOk(OP_READ, body)
      modifies c.reverse`start
      ensures Valid() && GotData(body, data)
    {
      hide TakeU32, EncodeRead, BodyOk;
      ghost var eof, x := ReadBody(body);
      c.reverse.start := c.reverse.start + 4;  // end of file
      assert c.reverse.Contents() == body[4..];
      var n := ReadBeu32(c.reverse);
      data := c.reverse.contents[c.reverse.start..c.reverse.start + n.value];
      assert (x + Zeros(Fill(|x|)))[..|x|] == x;
      assert data == c.reverse.Contents()[..n.value];
    }

    lemma ReadBody(body: seq<u8>) returns (eof: bool, data: seq<u8>)
      requires BodyOk(OP_READ, body)
      ensures Short(data) && body == EncodeRead(eof, data)
      ensures |body| >= 4 && TakeU32(body[4..]) == Parsed(|data|, data + Zeros(Fill(|data|)))
    {
      hide TakeU32, IsExchange, IsSession, IsSid, IsOpen, IsHandle;
      eof, data :| Short(data) && body == EncodeRead(eof, data);
      assert body[4..] == Be32(|data|) + (data + Zeros(Fill(|data|)));
      TakeU32Encoded(|data|, data + Zeros(Fill(|data|)));
    }

    method TakeSize(ghost body: seq<u8>) returns (size: u64)
      requires Valid() && c.reverse.Contents() == body && IsSize(body)
      modifies c.reverse`start
      ensures Valid() && body == EncodeSize(size)
    {
      hide FromBe64, IsSize, EncodeSize;
      ghost var n := SizeBody(body);
      size := ParseSize(c.reverse);
    }

    lemma SizeBody(body: seq<u8>) returns (n: u64)
      requires IsSize(body)
      ensures body == EncodeSize(n) && |body| >= 8 && FromBe64(body[|body| - 8..]) == n
    {
      hide Be64, FromBe64;
      n :| body == EncodeSize(n);
      Be64RoundTrip(n);
      assert body[|body| - 8..] == Be64(n);
    }

    method TakeSid(ghost body: seq<u8>)
      requires Valid() && c.reverse.Contents() == body && IsSid(body)
      modifies this`latestSid, c.reverse`start
      ensures Valid() && GotSid(body, latestSid)
    {
      hide DecodeKinds, EncodeSid, IsSid;
      ghost var sid := SidBody(body);
      var s := ParseStateid(c.reverse);
      latestSid := s.value;
    }

    lemma SidBody(body: seq<u8>) returns (s: Stateid)
      requires IsSid(body)
      ensures SidOk(s) && body == EncodeSid(s)
      ensures DecodeKinds(SID_KINDS, body) == Parsed([U32(s.seqid), Fixed(s.other)], [])
    {
      hide DecodeKinds, EncodeSid;
      s :| SidOk(s) && body == EncodeSid(s);
      SidReads(s, []);
      assert body + [] == body;
    }
  }

  // ---------- Operations on paths ----------

  predicate Walks(op: Op) {
    op.Sequence? || op.PutFh? || op.PutRootFh? || op.Lookup?
  }

  lemma LookupsOk(path: seq<seq<u8>>)
    requires PathRoom(path) < LIMIT
    ensures |Lookups(path)| == |path| < LIMIT
    ensures forall i | 0 <= i < |path| :: Walks(Lookups(path)[i]) && OpOk(Lookups(path)[i])
  {
    RoomCounts(path);
    forall i | 0 <= i < |path| ensures |path[i]| < LIMIT {
      RoomGrows(path, i);
    }
  }

  // SEQUENCE, a place to start from, and LOOKUPs.
  lemma WalkTarget(session: seq<u8>, seqid: u32, root: Op, path: seq<seq<u8>>, op: Op, behind: seq<Op>, ops: seq<Op>)
    requires |session| == 16 && (root.PutRootFh? || (root.PutFh? && |root.fh| <= FHSIZE)) && OpOk(op) && !Walks(op)
    requires PathRoom(path) < LIMIT && (behind == [] || behind == [GetFh])
    requires ops == [Seq(session, seqid)] + ([root] + Lookups(path)) + ([op] + behind)
    ensures OpsOk(ops) && TargetAt(Codes(ops), Code(op), |path| + 2)
    ensures ops == [Seq(session, seqid)] + ([root] + Lookups(path) + [op] + behind)
  {
    LookupsOk(path);
    StartOk(session, seqid, root);
    WalkAny(Seq(session, seqid), root, Lookups(path), op, behind);
  }

  lemma WalkAny(first: Op, root: Op, lookups: seq<Op>, op: Op, behind: seq<Op>)
    requires OpOk(first) && Walks(first) && OpOk(root) && Walks(root)
    requires forall i | 0 <= i < |lookups| :: Walks(lookups[i]) && OpOk(lookups[i])
    requires |lookups| < LIMIT && |behind| <= 1
    requires OpOk(op) && !Walks(op) && forall i | 0 <= i < |behind| :: OpOk(behind[i])
    ensures var ops := [first] + ([root] + lookups) + ([op] + behind);
      && OpsOk(ops) && TargetAt(Codes(ops), Code(op), |lookups| + 2)
      && ops == [first] + ([root] + lookups + [op] + behind)
  {
    hide TargetAt, Codes, Code, OpOk, OpsOk, Walks;
    WalkShape(first, root, lookups, op, behind);
    WalkOk(first, root, lookups);
    var front := [first, root] + lookups;
    WalksToTarget(front, op, behind);
    AppendOk(front, [op] + behind);
  }

  lemma StartOk(session: seq<u8>, seqid: u32, root: Op)
    requires |session| == 16 && (root.PutRootFh? || (root.PutFh? && |root.fh| <= FHSIZE))
    ensures var first := Seq(session, seqid); OpOk(first) && Walks(first) && OpOk(root) && Walks(root) && OpOk(GetFh)
  {
  }

  lemma WalkOk(first: Op, root: Op, lookups: seq<Op>)
    requires OpOk(first) && Walks(first) && OpOk(root) && Walks(root)
    requires forall i | 0 <= i < |lookups| :: Walks(lookups[i]) && OpOk(lookups[i])
    ensures var front := [first, root] + lookups; forall i | 0 <= i < |front| :: Walks(front[i]) && OpOk(front[i])
  {
    hide Walks, OpOk;
  }

  lemma AppendOk(a: seq<Op>, b: seq<Op>)
    requires |a| + |b| < U32_SIZE
    requires (forall i | 0 <= i < |a| :: OpOk(a[i])) && (forall i | 0 <= i < |b| :: OpOk(b[i]))
    ensures OpsOk(a + b)
  {
    hide OpOk;
  }

  lemma WalkShape(first: Op, root: Op, lookups: seq<Op>, op: Op, behind: seq<Op>)
    ensures [first] + ([root] + lookups) + ([op] + behind) == [first, root] + lookups + ([op] + behind)
    ensures [first, root] + lookups + ([op] + behind) == [first, root] + lookups + [op] + behind
    ensures [first] + ([root] + lookups) + ([op] + behind) == [first] + ([root] + lookups + [op] + behind)
  {
  }

  lemma WalksToTarget(front: seq<Op>, op: Op, behind: seq<Op>)
    requires (forall i | 0 <= i < |front| :: Walks(front[i])) && !Walks(op)
    ensures TargetAt(Codes(front + [op] + behind), Code(op), |front|)
  {
    hide TargetAt, Codes;
    TargetBehind(front, op, behind);
  }

  lemma {:induction false} RoomCounts(path: seq<seq<u8>>)
    ensures |path| <= PathRoom(path)
  {
    if path != [] {
      RoomCounts(path[..|path| - 1]);
    }
  }

  /** exists: look the whole path up. */
  method NewExists(c: Client, path: seq<seq<u8>>) returns (r: Request)
    requires c.Valid() && PathRoom(path) < LIMIT - 4096
    modifies c`xid, c`sequence, c.forward, c.forward.contents
    ensures fresh(r) && Prepared(c, r, OP_GETFH, |path| + 2, [PutRootFh] + Lookups(path) + [GetFh] + [])
  {
    hide OpsFields, Header, EncodeFields, Request.Raw, OpsOk, TargetAt, Codes, Lookups, PathRoom;
    r := new Request.Allocate(c, c.forward);
    r.PushSequence(c);
    PushResolution(r, path);
    r.PushGetFh();
    assert r.ops == [Seq(c.session, old(c.sequence))] + ([PutRootFh] + Lookups(path)) + ([GetFh] + []);
    WalkTarget(c.session, old(c.sequence), PutRootFh, path, GetFh, [], r.ops);
    RawMeans(r);
  }

  /** delete: REMOVE the last component from its directory. */
  method NewRemove(c: Client, path: seq<seq<u8>>) returns (r: Request)
    requires c.Valid() && PathRoom(path) < LIMIT - 4096 && path != []
    modifies c`xid, c`sequence, c.forward, c.forward.contents
    ensures fresh(r)
    ensures Prepared(c, r, OP_REMOVE, |path| + 1,
                     [PutFh(c.rootFh)] + Lookups(path[..|path| - 1]) + [Remove(path[|path| - 1])] + [])
  {
    hide OpsFields, Header, EncodeFields, Request.Raw, OpsOk, TargetAt, Codes, Lookups;
    ghost var n := |path| - 1;
    RoomGrows(path, n);
    r := new Request.Allocate(c, c.forward);
    r.PushSequence(c);
    var final := PushInitialPath(r, c, path);
    r.PushRemove(final);
    assert r.ops == [Seq(c.session, old(c.sequence))] + ([PutFh(c.rootFh)] + Lookups(path[..n]))
           + ([Remove(path[n])] + []);
    WalkTarget(c.session, old(c.sequence), PutFh(c.rootFh), path[..n], Remove(path[n]), [], r.ops);
    RawMeans(r);
  }

  /** file_open_internal: OPEN the last component in its directory, and fetch the handle. */
  method NewOpen(c: Client, path: seq<seq<u8>>, writable: bool, create: bool) returns (r: Request)
    requires c.Valid() && PathRoom(path) < LIMIT - 4096 && path != []
    modifies c`xid, c`sequence, c.forward, c.forward.contents
    ensures fresh(r)
    ensures Prepared(c, r, OP_OPEN, |path| + 1,
                     [PutFh(c.rootFh)] + Lookups(path[..|path| - 1])
                     + [OpenOp(c, path[|path| - 1], writable, create)] + [GetFh])
  {
    hide OpsFields, Header, EncodeFields, Request.Raw, OpsOk, TargetAt, Codes, Lookups, OpenOp, How, PathRoom, Fill;
    ghost var n := |path| - 1;
    RoomGrows(path, n);
    r := new Request.Allocate(c, c.forward);
    r.PushSequence(c);
    var final := PushInitialPath(r, c, path);
    PushOpenGetFh(r, c, final, writable, create);
    OpenOpOk(c, path[n], writable, create);
    WalkTarget(c.session, old(c.sequence), PutFh(c.rootFh), path[..n], OpenOp(c, path[n], writable, create),
               [GetFh], r.ops);
    RawMeans(r);
  }

  method PushOpenGetFh(r: Request, c: Client, name: seq<u8>, writable: bool, create: bool)
    requires r.Valid() && c.Shaped() && r.b.end + |name| + 1300 < LIMIT
    modifies r.b, r.b.contents, r`fields, r`opcount, r`ops
    ensures Longer(r, |name| + 1200) && r.ops == old(r.ops) + ([OpenOp(c, name, writable, create)] + [GetFh])
  {
    hide OpsFields, Header, EncodeFields, Request.Raw, How;
    r.PushOpen(c, name, if writable then ACCESS_BOTH else ACCESS_READ, create);
    r.PushGetFh();
  }

  function OpenOp(c: Client, name: seq<u8>, writable: bool, create: bool): Op
    reads c
  {
    Open(0, if writable then ACCESS_BOTH else ACCESS_READ, 0, c.clientid, c.owner, How(create), name)
  }

  lemma OpenOpOk(c: Client, name: seq<u8>, writable: bool, create: bool)
    requires c.Shaped() && |name| < LIMIT
    ensures OpOk(OpenOp(c, name, writable, create))
    ensures OpenOp(c, name, writable, create)
            == Open(0, if writable then ACCESS_BOTH else ACCESS_READ, 0, c.clientid, c.owner, How(create), name)
  {
  }

  // The answers to OPEN and GETFH, at the end of the reply.
  lemma OpenBodies(c: Client, r: Request, more: seq<Op>, tries: seq<Try>, f: Fate, t: nat, open: Op)
    requires AtBody(c.reverse, f.results, t) && Answering(r.ops, more, tries, f) && |r.ops| == t + 2
    requires r.ops[t] == open && open.Open? && r.ops[t + 1] == GetFh
    ensures |f.results| == t + 2 && BodyOk(OP_OPEN, f.results[t].body) && BodyOk(OP_GETFH, f.results[t + 1].body)
    ensures c.reverse.Contents() == f.results[t].body + (Be32(OP_GETFH) + (Be32(0) + f.results[t + 1].body))
  {
    hide BodyOk, DecodeOpen;
    var results := f.results;
    assert Codes(r.ops)[t] == OP_OPEN && Codes(r.ops)[t + 1] == OP_GETFH;
    assert results[t + 1..] == [results[t + 1]] && [results[t + 1]][1..] == [];
    assert EncodeResults([results[t + 1]]) == EncodeRes(results[t + 1]) + [];
    assert EncodeRes(results[t + 1]) == Be32(OP_GETFH) + (Be32(0) + results[t + 1].body);
  }

  lemma OpenPlaces(ops: seq<Op>, root: Op, dir: seq<seq<u8>>, open: Op)
    requires ops != [] && ops[1..] == [root] + Lookups(dir) + [open] + [GetFh]
    ensures |ops| == |dir| + 4 && ops[|dir| + 2] == open && ops[|dir| + 3] == GetFh
  {
    var tail := ops[1..];
    assert tail[|dir| + 1] == open && tail[|dir| + 2] == GetFh;
  }

  lemma OpenBody(body: seq<u8>, tail: seq<u8>) returns (a: OpenAnswer)
    requires BodyOk(OP_OPEN, body)
    ensures OpenAnswerOk(a) && body == EncodeOpen(a) && DecodeOpen(body + tail) == Parsed(a.sid, tail)
    ensures GotOpen(body, a.sid)
  {
    hide EncodeOpen, DecodeOpen, IsExchange, IsSession, IsSid, IsRead, IsHandle;
    a :| OpenAnswerOk(a) && body == EncodeOpen(a);
    OpenReads(a, tail);
  }

  // Reading both answers: the stateid, and the handle.
  method TakeOpen(file: File, ghost open: seq<u8>, ghost fh: seq<u8>)
    requires file.Valid() && BodyOk(OP_OPEN, open) && BodyOk(OP_GETFH, fh)
    requires file.c.reverse.Contents() == open + (Be32(OP_GETFH) + (Be32(0) + fh))
    modifies file, file.c.reverse`start
    ensures file.Valid() && GotOpen(open, file.openSid) && file.latestSid == file.openSid
    ensures GotHandle(fh, file.filehandle)
  {
    hide DecodeKinds, TakeU32, Expect, GotOpen, DecodeOpen, BodyOk, EncodeHandle, EncodeOpen;
    var b := file.c.reverse;
    ghost var a := OpenBody(open, Be32(OP_GETFH) + (Be32(0) + fh));
    var sid, beyond := ParseOpen(b);
    file.openSid := sid.value;
    file.latestSid := file.openSid;
    ExpectEncoded(OP_GETFH, OP_GETFH, Be32(0) + fh);
    ExpectEncoded(0, 0, fh);
    ghost var handle := RootBody(fh);
    var h := ParseGetFh(b);
    file.filehandle := h.value;
    assert file.filehandle == handle;
  }

  /** file_open_internal: the file gets the stateid of the OPEN answer, and the handle of the GETFH behind it. */
  method OpenFile(file: File, link: Link, path: seq<seq<u8>>, writable: bool, create: bool)
    returns (ok: bool, end: End, ghost tries: seq<Try>)
    requires file.Valid() && link.Valid()
    requires PathRoom(path) < LIMIT - 4096 && path != []
    modifies file, file.c, file.c.forward, file.c.forward.contents, file.c.reverse, file.c.reverse.contents, link
    ensures file.Valid() && SameBuffers(file.c)
    ensures Performed(link, old(StateOf(file.c, link)),
                      [PutFh(old(file.c.rootFh))] + Lookups(path[..|path| - 1])
                      + [old(OpenOp(file.c, path[|path| - 1], writable, create))] + [GetFh],
                      tries, ok, end, StateOf(file.c, link))
    ensures !ok ==> unchanged(file)
    ensures ok ==>
              && tries != [] && |LastFate(tries).results| == |path| + 3
              && var open, fh := LastFate(tries).results[|path| + 1].body, LastFate(tries).results[|path| + 2].body;
              && GotOpen(open, file.openSid) && file.latestSid == file.openSid && GotHandle(fh, file.filehandle)
  {
    hide Sendable, Ready, Transacted, AtBody, Answering, BodyOk, OpsOk, TargetAt, Codes,
      GotHandle, GotOpen, PathRoom, Lookups;
    var c := file.c;
    ghost var n := |path| - 1;
    ghost var session, sequence, open := c.session, c.sequence, OpenOp(c, path[n], writable, create);
    ghost var more := [PutFh(c.rootFh)] + Lookups(path[..n]) + [open] + [GetFh];
    var r := NewOpen(c, path, writable, create);
    PreparedIsReady(c, r, OP_OPEN, |path| + 1, session, sequence, more);
    ghost var f;
    ok, end, tries, f := Transact(c, link, r, OP_OPEN, |path| + 1, more);
    if ok {
      AnsweringMeans(r.ops, more, tries, f);
      OpenPlaces(r.ops, PutFh(old(c.rootFh)), path[..n], open);
      OpenBodies(c, r, more, tries, f, |path| + 1, open);
      TakeOpen(file, f.results[|path| + 1].body, f.results[|path| + 2].body);
    }
  }
}
