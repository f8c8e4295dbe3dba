/** Sessions: sending with reconnection and replay, and setting a connection up. */
module Session {
  import opened Bytes
  import opened Buffer
  import opened Wire
  import opened Call
  import opened Replay
  import opened Rpc
  import opened Reply
  import opened Resok
  import opened Results
  import opened Peer

  // A request that can be sent, whose answer is scanned for operation `op`, its number `t`.
  ghost predicate Sendable(c: Client, r: Request, op: u32, t: nat)
    reads c, r, r.b, r.b.contents
  {
    && r.Valid() && OpsOk(r.ops) && r.xid == c.xid && r.b.end < LIMIT
    && TargetAt(Codes(r.ops), op, t)
  }

  ghost function CallOf(r: Request): RpcCall
    reads r
  {
    RpcCall(r.xid, CLIENT_CRED, 1, r.ops)
  }

  lemma NothingIsNoCall()
    ensures DecodeCall([]) == None
  {
  }

  // What the scan makes of a well-formed answer.
  lemma AnswerScanned(ops: seq<Op>, xid: u32, m: Message, op: u32, t: nat)
    requires WellFormed(ops, xid, m) && TargetAt(Codes(ops), op, t)
    ensures |EncodeReply(m)| < LIMIT
    ensures if m.status == 0 then
              && |m.results| > t
              && Listen(xid, op, EncodeReply(m)) == Found(m.results[t].body + EncodeResults(m.results[t + 1..]))
            else Listen(xid, op, EncodeReply(m)) == Stopped(m.status == BADSESSION)
  {
    hide Listen, EncodeResults;
    ScanVerdict(m, xid, Codes(ops), op, t);
    if m.status == 0 {
      hide EncodeReply;
      ScanReachesBody(xid, Codes(ops), m.results, op, t);
    }
  }

  /** read_response, parse_rpc, read_until and the status, for a well-formed answer. */
  method Receive(c: Client, frame: seq<u8>, op: u32, ghost ops: seq<Op>, ghost m: Message, ghost t: nat)
    returns (ok: bool, badSession: bool)
    requires c.Valid() && WellFormed(ops, c.xid, m) && TargetAt(Codes(ops), op, t)
    requires |m.results| < U32_SIZE && frame == EncodeReply(m)
    modifies c.reverse, c.reverse.contents
    ensures c.Valid() && (c.reverse.contents == old(c.reverse.contents) || fresh(c.reverse.contents))
    ensures ok == (m.status == 0) && badSession == (m.status == BADSESSION)
    ensures ok ==> |m.results| > t
    ensures ok ==> c.reverse.Contents() == m.results[t].body + EncodeResults(m.results[t + 1..])
  {
    hide EncodeReply, EncodeResults, Listen, WellFormed, TargetAt;
    AnswerScanned(ops, c.xid, m, op, t);
    c.reverse.Load(frame);
    var overrun;
    ok, badSession, overrun := Hear(c.reverse, c.xid, op);
  }

  // The window of a request that was overwritten by an answer which has been read to its end.
  ghost predicate Drained(r: Request)
    reads r, r.b, r.b.contents
  {
    r.b.Valid() && r.b.Contents() == [] && r.opcountloc == 88 && r.opcount < U32_SIZE
  }

  // What the client knows of the other side.
  datatype Log = Log(server: Server, ids: seq<u32>, sent: seq<seq<Op>>, ran: seq<seq<Op>>)

  ghost function LogOf(link: Link): Log
    reads link
  {
    Log(link.server, link.ids, link.sent, link.ran)
  }

  /** One call: what it did at the other side, and what the client makes of it.  A call whose request or answer is
      lost leaves the flag for a bad session as it was before. */
  ghost predicate Called(l: Log, f: Fate, call: RpcCall, forward: bool, bad: bool, l': Log, ok: bool, bad': bool) {
    var e := Handle(l.server, f, call);
    && Honest(call.ops, f)
    && l'.server == e.server && l'.ids == Sent(l.ids, call.ops, f) && l'.sent == l.sent + [call.ops]
    && l'.ran == l.ran + (if e.ran && forward then [More(call.ops)] else [])
    && ok == Succeeded(e)
    && bad' == if Heard(e) then Unknown(e) else bad
  }

  // The cursor stands at the body of result `t`.
  ghost predicate AtBody(b: ByteBuffer, results: seq<Res>, t: nat)
    reads b, b.contents
  {
    b.Valid() && t < |results| && b.Contents() == results[t].body + EncodeResults(results[t + 1..])
  }

  method Ask(c: Client, link: Link, wire: seq<u8>, op: u32, bad: bool, ghost forward: bool, ghost t: nat)
    returns (ok: bool, badSession: bool)
    requires c.Valid() && link.Valid()
    requires var d := DecodeCall(wire); d.Some? ==> d.value.xid == c.xid && TargetAt(Codes(d.value.ops), op, t)
    modifies link, c.reverse, c.reverse.contents
    ensures c.Valid() && (c.reverse.contents == old(c.reverse.contents) || fresh(c.reverse.contents))
    ensures link.turn == old(link.turn) + 1
    ensures match DecodeCall(wire)
            case None => !ok && badSession == bad && LogOf(link) == old(LogOf(link))
            case Some(call) =>
              var f := link.plan(old(link.turn), call.ops);
              && Called(old(LogOf(link)), f, call, forward, bad, LogOf(link), ok, badSession)
              && (ok ==> AtBody(c.reverse, f.results, t))
  {
    hide DecodeCall, Handle, Honest, Sent, EncodeReply, EncodeResults, WellFormed, TargetAt;
    ok, badSession := false, bad;
    var reply := link.Exchange(wire, forward);
    if reply.Some? {
      ghost var call := DecodeCall(wire).value;
      ghost var m := Handle(old(link.server), link.plan(old(link.turn), call.ops), call).answer.value;
      Encodable(call.ops, call.xid, m);
      ok, badSession := Receive(c, reply.value, op, call.ops, m, t);
    }
  }

  method BaseTransact(c: Client, link: Link, r: Request, op: u32, bad: bool, ghost t: nat)
    returns (ok: bool, badSession: bool)
    requires c.Valid() && link.Valid() && (r.b == c.forward || r.b == c.reverse)
    requires Sendable(c, r, op, t) || Drained(r)
    modifies link, r.b.contents, c.reverse, c.reverse.contents
    ensures c.Valid() && (c.reverse.contents == old(c.reverse.contents) || fresh(c.reverse.contents))
    ensures link.turn == old(link.turn) + 1
    ensures old(Sendable(c, r, op, t)) ==>
              var f := link.plan(old(link.turn), r.ops);
              && Called(old(LogOf(link)), f, CallOf(r), r.b == c.forward, bad, LogOf(link), ok, badSession)
              && (ok ==> AtBody(c.reverse, f.results, t))
              && (r.b == c.forward ==> Sendable(c, r, op, t) && r.Complete())
    ensures old(!Sendable(c, r, op, t)) ==> !ok && badSession == bad && LogOf(link) == old(LogOf(link))
  {
    hide DecodeCall, Called, AtBody, Fits, EncodeCall, TargetAt, LogOf, Codes, Link.Valid, OpsOk, Header,
      EncodeFields, OpsFields;
    ghost var ops := r.ops;
    ghost var sendable := Sendable(c, r, op, t);
    if sendable {
      CountFits(ops);
    }
    var wire := r.Send();
    if !sendable {
      NothingIsNoCall();
    }
    ok, badSession := Ask(c, link, wire, op, bad, r.b == c.forward, t);
  }

  lemma CountFits(ops: seq<Op>)
    requires OpsOk(ops)
    ensures |ops| < U32_SIZE
  {
  }

  // ---------- Keeping in step with the server's slot ----------

  /** What setting up a connection settles for the client: who it is, the limits agreed on, and the root of the file
      system. */
  datatype Profile = Profile(verifier: seq<u8>, clientid: seq<u8>, serverSequence: u32, maxreq: u32, maxresp: u32,
                             maxops: u32, maxreqs: u32, rootFh: seq<u8>, rootFhLen: nat)
  {
    // What it asks for in CREATE_SESSION.
    function Attrs(): Channel {
      Channel(0, maxreq, maxresp, 0x10_0000, maxops, maxreqs)
    }
  }

  ghost function ProfileOf(c: Client): Profile
    reads c
  {
    Profile(c.verifier, c.clientid, c.serverSequence, c.maxreq, c.maxresp, c.maxops, c.maxreqs, c.rootFh, c.rootFhLen)
  }

  /** Both sides between calls: how many calls the link has seen, the client's session, counter and profile, and the log
      of the other side. */
  datatype State = State(turn: nat, session: seq<u8>, sequence: u32, profile: Profile, log: Log)

  ghost function StateOf(c: Client, link: Link): State
    reads c, link
  {
    State(link.turn, c.session, c.sequence, ProfileOf(c), LogOf(link))
  }

  /** The k-th SEQUENCE sent in a session carries k. */
  ghost predicate Consecutive(ids: seq<u32>) {
    forall k | 0 <= k < |ids| :: ids[k] == (k + 1) % U32_SIZE
  }

  /** Between calls: the client's counter is one ahead of what it has sent, and so is it of the server's slot, as
      long as the server still has the session. */
  ghost predicate InStep(s: State) {
    && Consecutive(s.log.ids)
    && s.sequence == (|s.log.ids| + 1) % U32_SIZE
    && (s.log.server.live == Some(s.session) ==> s.log.server.slot == |s.log.ids| % U32_SIZE)
  }

  /** The same while a compound that starts with the next sequence id is waiting to be sent. */
  ghost predicate Due(s: State, ops: seq<Op>) {
    && StartsWithSequence(ops) && ops[0].session == s.session
    && ops[0].seqid == (|s.log.ids| + 1) % U32_SIZE
    && s.sequence == Next32(ops[0].seqid)
    && Consecutive(s.log.ids)
    && (s.log.server.live == Some(s.session) ==> s.log.server.slot == |s.log.ids| % U32_SIZE)
  }

  // The client has taken the next sequence id.
  function Taken(s: State): State {
    s.(sequence := Next32(s.sequence))
  }

  lemma TakenIsDue(s: State, more: seq<Op>)
    requires InStep(s)
    ensures Due(Taken(s), [Seq(s.session, s.sequence)] + more)
  {
  }

  /** One try at a compound: both sides before it, the operations, what network and server did with it, and whether the
      reconnection that followed a bad session came up. */
  datatype Try = Try(before: State, ops: seq<Op>, fate: Fate, up: bool) {
    // It arrives, if at all, at a server that has the session.
    predicate Current() {
      Sequenced(ops) && !fate.restart && before.log.server.live == Some(ops[0].session)
    }

    predicate CarriedOut() {
      fate.written && Current() && ops[0].seqid == Next32(before.log.server.slot)
    }

    predicate Answered() {
      fate.written && fate.heard
    }

    // The client takes it for a bad session: no answer, or BADSESSION.
    predicate Bad() {
      !(Answered() && Current())
    }

    predicate Granted() {
      CarriedOut() && Answered() && fate.status == 0
    }

    // Both sides after the try, before any reconnection.
    function After(): State
      requires Sequenced(ops)
    {
      var log := before.log;
      before.(turn := before.turn + 1, log := Log(Server(if fate.restart then None else log.server.live,
                                if CarriedOut() then ops[0].seqid else log.server.slot),
                         log.ids + [ops[0].seqid], log.sent + [ops],
                         log.ran + if CarriedOut() then [ops[1..]] else []))
    }
  }

  /** What a compound with SEQUENCE comes to, in whatever state it is sent: exactly `After`, with success and bad
      session as the try says. */
  lemma TryIsExact(t: Try, xid: u32, bad: bool, l': Log, ok: bool, bad': bool)
    requires Sequenced(t.ops)
    requires Called(t.before.log, t.fate, RpcCall(xid, CLIENT_CRED, 1, t.ops), true, bad, l', ok, bad')
    ensures l' == t.After().log && ok == t.Granted()
    ensures bad' == if t.Answered() then t.Bad() else bad
    ensures Honest(t.ops, t.fate)
  {
    hide Answers, EncodeResults;
    var call := RpcCall(xid, CLIENT_CRED, 1, t.ops);
    AnswerWellFormed(t.before.log.server, t.fate, call);
    SlotMovesIff(t.before.log.server, t.fate, call);
  }

  /** One compound with SEQUENCE that was due: if an answer came back, client and server are in step again,
      whatever it says. */
  lemma DueThenInStep(t: Try)
    requires Due(t.before, t.ops) && t.Answered()
    ensures InStep(t.After()) && t.After().log.ids == t.before.log.ids + [t.ops[0].seqid]
  {
    NextInLine(t.before.log.ids);
    hide Next32, Consecutive;
  }

  lemma NextInLine(ids: seq<u32>)
    requires Consecutive(ids)
    ensures Consecutive(ids + [(|ids| + 1) % U32_SIZE])
    ensures Next32(|ids| % U32_SIZE) == (|ids| + 1) % U32_SIZE
    ensures Next32((|ids| + 1) % U32_SIZE) == (|ids| + 2) % U32_SIZE
  {
    NextOfMod(|ids|);
    NextOfMod(|ids| + 1);
  }

  lemma NextOfMod(n: nat)
    ensures Next32(n % U32_SIZE) == (n + 1) % U32_SIZE
  {
  }

  lemma CreateThenInStep(l: Log, f: Fate, call: RpcCall, forward: bool, bad: bool, l': Log, ok: bool, bad': bool)
    requires Called(l, f, call, forward, bad, l', ok, bad') && Creates(call.ops) && |call.ops| == 1 && ok
    ensures !bad' && |f.results| == 1 && f.results[0].op == OP_CREATE_SESSION
            && BodyOk(OP_CREATE_SESSION, f.results[0].body)
    ensures l'.ids == [] && |f.results[0].body| >= 16
    ensures l'.server == Server(Some(f.results[0].body[..16]), 0)
  {
    hide EncodeResults, IsExchange, IsSession, IsSid, IsRead, IsOpen, IsHandle;
    AnswerWellFormed(l.server, f, call);
    assert Codes(call.ops)[0] == OP_CREATE_SESSION;
    SessionIsLong(f.results[0].body);
  }

  lemma SessionIsLong(body: seq<u8>)
    requires IsSession(body)
    ensures |body| >= 16
  {
    var a :| SessionOk(a) && body == EncodeSession(a);
    hide EncodeLimits;
    assert |EncodeSession(a)| >= |a.session|;
  }

  // ---------- Setting up a connection ----------

  // What every step of connection setup leaves: nothing is carried out for a caller, and only the reverse buffer is
  // used.
  twostate predicate SetUp(c: Client, link: Link)
    reads c, c.forward, c.reverse, link
  {
    && c.Valid()
    && (c.reverse.contents == old(c.reverse.contents) || fresh(c.reverse.contents))
    && link.ran == old(link.ran) && link.turn >= old(link.turn) && old(link.sent) <= link.sent
  }

  lemma OneTarget(ops: seq<Op>, op: Op)
    requires ops == [op]
    ensures TargetAt(Codes(ops), Code(op), 0)
  {
  }

  lemma Targets()
    ensures TargetAt([OP_SEQUENCE, OP_PUTROOTFH, OP_GETFH], OP_GETFH, 2)
    ensures TargetAt([OP_SEQUENCE, OP_RECLAIM_COMPLETE], OP_RECLAIM_COMPLETE, 1)
  {
  }

  lemma NotCarriedOut(l: Log, f: Fate, call: RpcCall, bad: bool, l': Log, ok: bool, bad': bool)
    requires Called(l, f, call, false, bad, l', ok, bad')
    ensures l'.ran == l.ran && l'.sent == l.sent + [call.ops]
  {
  }

  lemma SetupOpsOk(session: seq<u8>, seqid: u32)
    requires |session| == 16
    ensures OpsOk([Seq(session, seqid)] + [PutRootFh, GetFh]) && OpsOk([Seq(session, seqid)] + [ReclaimComplete(0)])
    ensures Codes([Seq(session, seqid)] + [PutRootFh, GetFh]) == [OP_SEQUENCE, OP_PUTROOTFH, OP_GETFH]
    ensures Codes([Seq(session, seqid)] + [ReclaimComplete(0)]) == [OP_SEQUENCE, OP_RECLAIM_COMPLETE]
  {
  }

  lemma BodyKnown(b: ByteBuffer, l: Log, f: Fate, call: RpcCall, forward: bool, bad: bool, l': Log, bad': bool,
                  t: nat, op: u32)
    requires Called(l, f, call, forward, bad, l', true, bad') && AtBody(b, f.results, t)
             && TargetAt(Codes(call.ops), op, t)
    ensures t < |f.results| == |call.ops| && f.results[t].op == op && BodyOk(op, f.results[t].body)
    ensures |b.Contents()| >= |f.results[t].body|
    ensures b.Contents() == f.results[t].body + EncodeResults(f.results[t + 1..])
  {
    hide EncodeResults, BodyOk;
    AnswerWellFormed(l.server, f, call);
  }

  // A request has been built in the reverse buffer.
  twostate predicate Built(c: Client, new r: Request)
    reads c, c.forward, c.reverse, r
  {
    && c.Valid() && r.b == c.reverse
    && (c.reverse.contents == old(c.reverse.contents) || fresh(c.reverse.contents))
  }

  method NewExchangeId(c: Client, coOwner: seq<u8>) returns (r: Request)
    requires c.Valid() && |coOwner| == 16
    modifies c`xid, c.reverse, c.reverse.contents
    ensures fresh(r) && Built(c, r) && Sendable(c, r, OP_EXCHANGE_ID, 0)
    ensures r.ops == [ExchangeId(c.verifier, coOwner, 0, AUTHOR, VERSION, 0, 0)]
  {
    hide OpsOk, OpsFields, Header, EncodeFields, Codes, TargetAt;
    r := new Request.Allocate(c, c.reverse);
    r.PushExchangeId(c, coOwner);
    ghost var op := r.ops[0];
    assert r.ops == [op];
    ExchangeIdOk(op);
    OneTarget(r.ops, op);
  }

  /** exchange_id: a new client id, and the sequence id for CREATE_SESSION. */
  method ExchangeIdCall(c: Client, link: Link) returns (ok: bool, ghost f: Fate)
    requires c.Valid() && link.Valid()
    modifies c`xid, c`clientid, c`serverSequence, c.reverse, c.reverse.contents, link
    ensures SetUp(c, link) && link.turn == old(link.turn) + 1
    ensures var ops := [ExchangeId(c.verifier, link.random(old(link.turn)), 0, AUTHOR, VERSION, 0, 0)];
            f == link.plan(old(link.turn), ops) && link.sent == old(link.sent) + [ops]
    ensures ok ==> |f.results| == 1 && GotClientId(f.results[0].body, c.clientid, c.serverSequence)
    ensures link.Smooth(old(link.turn)) ==> ok
  {
    hide Called, GotClientId, Codes, TargetAt, OpsOk, AtBody, BodyOk, EncodeResults, Sendable, Link.Smooth, Link.Valid;
    LinkGivesOwners(link, link.turn);
    ghost var l := LogOf(link);
    var r := NewExchangeId(c, link.random(link.turn));
    var bad;
    f := link.plan(link.turn, r.ops);
    SendableTarget(c, r, OP_EXCHANGE_ID, 0);
    ok, bad := BaseTransact(c, link, r, OP_EXCHANGE_ID, false, 0);
    SmoothFate(link, old(link.turn), r.ops);
    ExchangeIsGranted(l, f, CallOf(r), false, LogOf(link), ok, bad);
    NothingRan(link, l, f, CallOf(r), ok, bad);
    if ok {
      BodyKnown(c.reverse, l, f, CallOf(r), false, false, LogOf(link), bad, 0, OP_EXCHANGE_ID);
      ok := TakeClientId(c, f.results[0].body, EncodeResults(f.results[1..]));
    }
  }

  method TakeClientId(c: Client, ghost body: seq<u8>, ghost tail: seq<u8>) returns (ok: bool)
    requires c.Valid() && BodyOk(OP_EXCHANGE_ID, body) && c.reverse.Contents() == body + tail
    modifies c`clientid, c`serverSequence, c.reverse`start
    ensures ok && c.Valid() && GotClientId(body, c.clientid, c.serverSequence)
  {
    hide DecodeKinds, BodyOk, EncodeExchange, GotClientId;
    ghost var a := ExchangeIdBody(body, tail);
    var e, overrun := ParseExchangeId(c, c.reverse);
    ok := e.Got?;
    ClientIdTaken(a, c.clientid, c.serverSequence);
  }

  lemma LinkGivesOwners(link: Link, n: nat)
    requires link.Valid()
    ensures |link.random(n)| == 16
  {
  }

  lemma NothingRan(link: Link, l: Log, f: Fate, call: RpcCall, ok: bool, bad: bool)
    requires Called(l, f, call, false, false, LogOf(link), ok, bad)
    ensures link.ran == l.ran && link.sent == l.sent + [call.ops]
  {
  }

  lemma SmoothFate(link: Link, n: nat, ops: seq<Op>)
    ensures var f := link.plan(n, ops);
      link.Smooth(n) && |ops| <= 3 ==> f.written && f.heard && !f.restart && f.status == 0
  {
  }

  lemma ExchangeIsGranted(l: Log, f: Fate, call: RpcCall, bad: bool, l': Log, ok: bool, bad': bool)
    requires Called(l, f, call, false, bad, l', ok, bad') && !Sequenced(call.ops)
    ensures f.written && f.heard && f.status == 0 ==> ok
  {
  }

  lemma SendableTarget(c: Client, r: Request, op: u32, t: nat)
    requires Sendable(c, r, op, t)
    ensures TargetAt(Codes(r.ops), op, t)
  {
  }

  lemma ExchangeIdBody(body: seq<u8>, tail: seq<u8>) returns (a: ExchangeAnswer)
    requires BodyOk(OP_EXCHANGE_ID, body)
    ensures ExchangeOk(a) && body == EncodeExchange(a) && |body| >= 8
    ensures DecodeKinds(EXCHANGE_ID_KINDS, body + tail).Parsed?
    ensures DecodeKinds(EXCHANGE_ID_KINDS, body + tail).value == [Fixed(a.clientid), U32(a.seqid), U32(a.flags)]
  {
    hide DecodeKinds, ExchangeRest, IsSession, IsSid, IsRead, IsOpen, IsHandle;
    a :| ExchangeOk(a) && body == EncodeExchange(a);
    ExchangeReads(a, tail);
  }

  lemma ClientIdTaken(a: ExchangeAnswer, clientid: seq<u8>, seqid: u32)
    requires ExchangeOk(a) && clientid == a.clientid && seqid == a.seqid
    ensures GotClientId(EncodeExchange(a), clientid, seqid)
  {
  }

  lemma ExchangeIdOk(op: Op)
    requires op.ExchangeId? && |op.verifier| == 8 && |op.ownerId| == 16 && op.domain == AUTHOR && op.product == VERSION
    ensures OpsOk([op])
  {
  }

  method NewGetRootFh(c: Client) returns (r: Request)
    requires c.Valid()
    modifies c`xid, c`sequence, c.reverse, c.reverse.contents
    ensures fresh(r) && Built(c, r) && Sendable(c, r, OP_GETFH, 2)
    ensures r.ops == [Seq(c.session, old(c.sequence))] + [PutRootFh, GetFh] && c.sequence == Next32(old(c.sequence))
  {
    hide OpsOk, OpsFields, Header, EncodeFields, Codes, TargetAt, Request.Raw;
    r := new Request.Allocate(c, c.reverse);
    r.PushSequence(c);
    r.PushPutRootFh();
    r.PushGetFh();
    assert r.ops == [Seq(c.session, old(c.sequence))] + [PutRootFh, GetFh];
    SetupOpsOk(c.session, old(c.sequence));
    Targets();
    RawMeans(r);
  }

  lemma RawMeans(r: Request)
    requires r.Raw()
    ensures r.b.Valid()
  {
  }

  method NewReclaimComplete(c: Client) returns (r: Request)
    requires c.Valid()
    modifies c`xid, c`sequence, c.reverse, c.reverse.contents
    ensures fresh(r) && Built(c, r) && Sendable(c, r, OP_RECLAIM_COMPLETE, 1)
    ensures r.ops == [Seq(c.session, old(c.sequence))] + [ReclaimComplete(0)] && c.sequence == Next32(old(c.sequence))
  {
    hide OpsOk, OpsFields, Header, EncodeFields, Codes, TargetAt, Request.Raw;
    r := new Request.Allocate(c, c.reverse);
    r.PushSequence(c);
    r.PushReclaimComplete();
    assert r.ops == [Seq(c.session, old(c.sequence))] + [ReclaimComplete(0)];
    SetupOpsOk(c.session, old(c.sequence));
    Targets();
    RawMeans(r);
  }

  method NewCreateSession(c: Client) returns (r: Request)
    requires c.Valid()
    modifies c`xid, c`sequence, c`serverSequence, c.reverse, c.reverse.contents
    ensures fresh(r) && Built(c, r) && Sendable(c, r, OP_CREATE_SESSION, 0)
    ensures |r.ops| == 1 && r.ops[0] == CreateSession(c.clientid, old(c.serverSequence), 1, Attrs(c), Attrs(c), 0x7b)
    ensures c.sequence == 1 && c.serverSequence == Next32(old(c.serverSequence))
  {
    hide OpsOk, OpsFields, Header, EncodeFields, Codes, TargetAt, Request.Raw;
    r := new Request.Allocate(c, c.reverse);
    c.sequence := 1;
    r.PushCreateSession(c);
    c.serverSequence := Next32(c.serverSequence);
    ghost var op := r.ops[0];
    assert r.ops == [op];
    CreateSessionOk(op);
    OneTarget(r.ops, op);
    RawMeans(r);
  }

  lemma CreateSessionOk(op: Op)
    requires op.CreateSession? && |op.client| == 8
    ensures OpsOk([op])
  {
  }

  /** get_root_fh: the first SEQUENCE of a new session. */
  method GetRootFhCall(c: Client, link: Link) returns (ok: bool, ghost f: Fate)
    requires c.Valid() && link.Valid() && InStep(StateOf(c, link))
    modifies c`xid, c`sequence, c`rootFh, c`rootFhLen, c.reverse, c.reverse.contents, link
    ensures SetUp(c, link) && link.turn == old(link.turn) + 1
    ensures ok ==> InStep(StateOf(c, link)) && link.ids == old(link.ids) + [old(c.sequence)]
    ensures ok ==> link.server.live == Some(c.session)
    ensures link.Smooth(old(link.turn)) && old(link.server.live == Some(c.session)) ==> ok
    ensures var ops := [Seq(c.session, old(c.sequence))] + [PutRootFh, GetFh];
            f == link.plan(old(link.turn), ops) && link.sent == old(link.sent) + [ops]
    ensures ok ==> |f.results| == 3 && GotRoot(f.results[2].body, old(c.rootFh), c.rootFh, c.rootFhLen)
  {
    hide Called, GotRoot, Codes, TargetAt, OpsOk, AtBody, Sendable, InStep, Due, BodyOk, EncodeResults, TakeU32,
      Link.Smooth, Link.Valid, Consecutive, SizesGiven;
    TakenIsDue(StateOf(c, link), [PutRootFh, GetFh]);
    var r := NewGetRootFh(c);
    var bad;
    ghost var l := LogOf(link);
    ghost var turn := link.turn;
    f := link.plan(turn, r.ops);
    SendableTarget(c, r, OP_GETFH, 2);
    ok, bad := BaseTransact(c, link, r, OP_GETFH, false, 2);
    SmoothFate(link, turn, r.ops);
    SetupTry(Try(State(turn, c.session, c.sequence, ProfileOf(c), l), r.ops, f, true), r.xid, LogOf(link), ok, bad);
    if ok {
      BodyKnown(c.reverse, l, f, CallOf(r), false, false, LogOf(link), bad, 2, OP_GETFH);
      NoMoreResults(f.results);
      ghost var s := StateOf(c, link);
      ok := TakeRoot(c, f.results[2].body);
      StillInStep(s, StateOf(c, link));
    }
  }

  method TakeRoot(c: Client, ghost body: seq<u8>) returns (ok: bool)
    requires c.Valid() && BodyOk(OP_GETFH, body) && c.reverse.Contents() == body
    modifies c`rootFh, c`rootFhLen, c.reverse`start
    ensures ok && c.Valid() && GotRoot(body, old(c.rootFh), c.rootFh, c.rootFhLen)
  {
    hide BodyOk, GotRoot, EncodeHandle, TakeU32;
    ghost var fh := RootBody(body);
    var e := ParseRootFh(c, c.reverse);
    ok := e.Got?;
    RootTaken(fh, old(c.rootFh), c.rootFh, c.rootFhLen);
  }

  lemma StillInStep(s: State, s': State)
    requires InStep(s) && s' == s.(profile := s'.profile)
    ensures InStep(s')
  {
  }

  // A SEQUENCE of connection setup that was due.
  lemma SetupTry(t: Try, xid: u32, l': Log, ok: bool, bad': bool)
    requires Called(t.before.log, t.fate, RpcCall(xid, CLIENT_CRED, 1, t.ops), false, false, l', ok, bad')
    requires Due(t.before, t.ops)
    ensures l'.ran == t.before.log.ran && l'.sent == t.before.log.sent + [t.ops]
    ensures ok ==> InStep(t.before.(turn := t.before.turn + 1, log := l'))
    ensures ok ==> l'.ids == t.before.log.ids + [t.ops[0].seqid]
    ensures ok ==> l'.server.live == Some(t.before.session)
    ensures var f := t.fate;
      f.written && f.heard && !f.restart && f.status == 0 && t.before.log.server.live == Some(t.before.session) ==> ok
  {
    hide Answers, EncodeResults, Next32, Consecutive;
    var call := RpcCall(xid, CLIENT_CRED, 1, t.ops);
    AnswerWellFormed(t.before.log.server, t.fate, call);
    SlotMovesIff(t.before.log.server, t.fate, call);
    NextInLine(t.before.log.ids);
  }

  lemma RootBody(body: seq<u8>) returns (fh: seq<u8>)
    requires BodyOk(OP_GETFH, body)
    ensures |fh| <= 128 && body == EncodeHandle(fh)
    ensures TakeU32(body).Parsed? && TakeU32(body).value == |fh| && TakeU32(body).rest == fh + Zeros(Fill(|fh|))
  {
    hide TakeU32, EncodeHandle, IsExchange, IsSession, IsSid, IsRead, IsOpen;
    fh :| |fh| <= 128 && body == EncodeHandle(fh);
    HandleReads(fh, []);
    assert body + [] == body && fh + Zeros(Fill(|fh|)) + [] == fh + Zeros(Fill(|fh|));
  }

  lemma RootTaken(fh: seq<u8>, before: seq<u8>, stored: seq<u8>, len: nat)
    requires |fh| <= 128 == |before| && len == |fh| && stored == (fh + Zeros(Fill(len)))[..len] + before[len..]
    ensures GotRoot(EncodeHandle(fh), before, stored, len)
  {
    hide EncodeHandle;
    assert stored[..len] == fh;
  }

  lemma NoMoreResults(results: seq<Res>)
    requires |results| == 3
    ensures results[2].body + EncodeResults(results[3..]) == results[2].body
  {
  }

  /** reclaim_complete: the second; its answer is read to the end. */
  method ReclaimCompleteCall(c: Client, link: Link) returns (ok: bool)
    requires c.Valid() && link.Valid() && InStep(StateOf(c, link))
    modifies c`xid, c`sequence, c.reverse, c.reverse.contents, link
    ensures SetUp(c, link) && link.turn == old(link.turn) + 1
    ensures ok ==> InStep(StateOf(c, link)) && link.ids == old(link.ids) + [old(c.sequence)]
    ensures link.sent == old(link.sent) + [[Seq(c.session, old(c.sequence))] + [ReclaimComplete(0)]]
    ensures ok ==> link.server.live == Some(c.session)
    ensures link.Smooth(old(link.turn)) && old(link.server.live == Some(c.session)) ==> ok
    ensures ok ==> c.reverse.Contents() == []
  {
    hide Called, Codes, TargetAt, OpsOk, AtBody, Sendable, InStep, Due, BodyOk, EncodeResults, Link.Smooth, Link.Valid;
    TakenIsDue(StateOf(c, link), [ReclaimComplete(0)]);
    var r := NewReclaimComplete(c);
    var bad;
    ghost var l := LogOf(link);
    ghost var turn := link.turn;
    ghost var f := link.plan(turn, r.ops);
    SendableTarget(c, r, OP_RECLAIM_COMPLETE, 1);
    ok, bad := BaseTransact(c, link, r, OP_RECLAIM_COMPLETE, false, 1);
    SmoothFate(link, turn, r.ops);
    SetupTry(Try(State(turn, c.session, c.sequence, ProfileOf(c), l), r.ops, f, true), r.xid, LogOf(link), ok, bad);
    if ok {
      BodyKnown(c.reverse, l, f, CallOf(r), false, false, LogOf(link), bad, 1, OP_RECLAIM_COMPLETE);
      ReclaimBody(f.results);
    }
  }

  lemma ReclaimBody(results: seq<Res>)
    requires |results| == 2 && BodyOk(OP_RECLAIM_COMPLETE, results[1].body)
    ensures results[1].body + EncodeResults(results[2..]) == []
  {
  }

  // ---------- Sending with reconnection ----------

  /** How transact ends: with an answer that is not a bad session; because a reconnection failed; or because both tries
      ended with a bad session, although both reconnections came up. */
  datatype End = Settled | Disconnected | Exhausted

  // A request from the forward buffer, to be sent with the sequence id that was taken last.
  ghost predicate Ready(c: Client, r: Request, op: u32, t: nat, more: seq<Op>)
    reads c, r, r.b, r.b.contents
  {
    && Sendable(c, r, op, t) && StartsWithSequence(r.ops) && r.ops[0].session == c.session
    && c.sequence == Next32(r.ops[0].seqid) && r.ops[1..] == more
  }

  // The session of a CREATE_SESSION result, and each limit lowered to the server's.
  ghost predicate GotSession(body: seq<u8>, before: Profile, session: seq<u8>, after: Profile) {
    exists a ::
      && SessionOk(a) && body == EncodeSession(a) && session == a.session
      && after == Lowered(before.(serverSequence := Next32(before.serverSequence)), a.fore)
  }

  function Lowered(p: Profile, l: Limits): Profile {
    p.(maxreq := Min(p.maxreq, l.maxRequest), maxresp := Min(p.maxresp, l.maxResponse),
       maxops := Min(p.maxops, l.maxOps), maxreqs := Min(p.maxreqs, l.maxRequests))
  }

  function CreateSeq(ops: seq<Op>): u32 {
    if Creates(ops) then ops[0].createSeq else 0
  }

  /** Setting up a connection from call `n` on: the four compounds that are sent, and what the client has taken from the
      answers.  CREATE_SESSION is asked for under the client id and with the sequence id that EXCHANGE_ID gave. */
  ghost predicate SetUpFrom(link: Link, n: nat, before: Profile, session: seq<u8>, after: Profile, sent: seq<seq<Op>>) {
    && |sent| == 4
    && var seqid := CreateSeq(sent[1]);
    && sent[0] == [ExchangeId(before.verifier, link.random(n), 0, AUTHOR, VERSION, 0, 0)]
    && sent[1] == [CreateSession(after.clientid, seqid, 1, before.Attrs(), before.Attrs(), 0x7b)]
    && sent[2] == [Seq(session, 1), PutRootFh, GetFh]
    && sent[3] == [Seq(session, 2), ReclaimComplete(0)]
    && var f0, f1, f2 := link.plan(n, sent[0]), link.plan(n + 1, sent[1]), link.plan(n + 2, sent[2]);
    && |f0.results| == 1 && GotClientId(f0.results[0].body, after.clientid, seqid)
    && |f1.results| == 1
    && GotSession(f1.results[0].body, before.(clientid := after.clientid, serverSequence := seqid), session,
                  after.(rootFh := before.rootFh, rootFhLen := before.rootFhLen))
    && |f2.results| == 3 && GotRoot(f2.results[2].body, before.rootFh, after.rootFh, after.rootFhLen)
  }

  /** Both sides after a connection was set up, four calls later: a new session that has spent ids 1 and 2, nothing
      carried out for a caller, and the client as SetUpFrom says. */
  ghost predicate Connected(link: Link, s: State, s': State) {
    && s'.turn == s.turn + 4 && s'.sequence == 3
    && s'.log.server == Server(Some(s'.session), 2) && s'.log.ids == [1, 2] && s'.log.ran == s.log.ran
    && s.log.sent <= s'.log.sent
    && SetUpFrom(link, s.turn, s.profile, s'.session, s'.profile, s'.log.sent[|s.log.sent|..])
  }

  /** The same after a reconnection and the replay, which has taken id 3. */
  ghost predicate Renewed(link: Link, s: State, after: State) {
    s.sequence == 4 && Connected(link, after, s.(sequence := 3))
  }

  // A try is made as the link decides; after a bad session the reconnection comes up if the link lets it.
  ghost predicate Made(link: Link, try: Try) {
    && Sequenced(try.ops) && try.fate == link.plan(try.before.turn, try.ops) && Honest(try.ops, try.fate)
    && (try.Bad() && link.ComesUp(try.before.turn + 1) ==> try.up)
  }

  /** The tries of one call: the first is sent as it was built; the second follows a bad session and a reconnection that
      came up, and is the replay. */
  ghost predicate Linked(link: Link, s: State, ops: seq<Op>, tries: seq<Try>) {
    && Sequenced(ops) && |tries| <= 2
    && (|tries| >= 1 ==> Made(link, tries[0]) && tries[0].before == s && tries[0].ops == ops)
    && (|tries| == 2 ==>
          && Made(link, tries[1]) && tries[0].Bad() && tries[0].up
          && Renewed(link, tries[1].before, tries[0].After())
          && tries[1].ops == [Seq(tries[1].before.session, 3)] + ops[1..])
  }

  /** What one call of transact does, in whatever state it is made: `s` is the state when the compound `ops` has been
      built, with its sequence id taken. */
  ghost predicate Transacted(link: Link, s: State, ops: seq<Op>, tries: seq<Try>, ok: bool, end: End, s': State) {
    && Linked(link, s, ops, tries) && 1 <= |tries| <= 2
    && var last := tries[|tries| - 1];
       && Sequenced(last.ops) && ok == last.Granted()
       && end == (if !last.Bad() then Settled else if last.up then Exhausted else Disconnected)
       && (end == Exhausted ==> |tries| == 2)
       && s'.log.ran == last.After().log.ran && last.After().log.sent <= s'.log.sent && s'.turn > s.turn
       && (end == Settled ==> s' == last.After())
       && (end == Exhausted ==> Renewed(link, s', last.After()))
  }

  /** The same for a call as its caller sees it: `s` is the state before the sequence id is taken, `more` what is asked
      for behind SEQUENCE. */
  ghost predicate Performed(link: Link, s: State, more: seq<Op>, tries: seq<Try>, ok: bool, end: End, s': State) {
    Transacted(link, Taken(s), [Seq(s.session, s.sequence)] + more, tries, ok, end, s')
  }

  // Everything tried so far was a bad session, and the compound `now` is to be sent next.
  ghost predicate Retrying(link: Link, s: State, ops: seq<Op>, tries: seq<Try>, s': State, now: seq<Op>) {
    && Linked(link, s, ops, tries)
    && if tries == [] then s' == s && now == ops
       else
         var last := tries[|tries| - 1];
         && last.Bad() && last.up && Sequenced(last.ops) && Renewed(link, s', last.After())
         && now == [Seq(s'.session, 3)] + ops[1..]
  }

  // The next try, as it is made.
  ghost predicate Next(link: Link, try: Try, s: State, now: seq<Op>) {
    && Made(link, try) && try.before == s && try.ops == now
  }

  lemma TryAgain(link: Link, s: State, ops: seq<Op>, tries: seq<Try>, s1: State, now: seq<Op>, try: Try)
    requires Retrying(link, s, ops, tries, s1, now) && |tries| < 2 && Next(link, try, s1, now)
    ensures Linked(link, s, ops, tries + [try])
  {
    hide Made, Renewed;
    MadeMeans(link, try);
    if tries == [] {
      assert tries + [try] == [try];
    } else {
      assert tries + [try] == [tries[0], try];
    }
  }

  lemma MadeMeans(link: Link, try: Try)
    requires Made(link, try)
    ensures Sequenced(try.ops) && Honest(try.ops, try.fate)
  {
  }

  lemma StillRetrying(link: Link, s: State, ops: seq<Op>, tries: seq<Try>, try: Try, s': State, now: seq<Op>)
    requires Linked(link, s, ops, tries + [try]) && try.Bad() && try.up
    requires Sequenced(try.ops) && Renewed(link, s', try.After()) && now == [Seq(s'.session, 3)] + ops[1..]
    ensures Retrying(link, s, ops, tries + [try], s', now)
  {
    hide Linked, Renewed;
  }

  lemma Concluded(link: Link, s: State, ops: seq<Op>, tries: seq<Try>, try: Try, end: End, s': State)
    requires Linked(link, s, ops, tries + [try]) && |tries| < 2 && Sequenced(try.ops)
    requires s'.log.ran == try.After().log.ran && try.After().log.sent <= s'.log.sent && s'.turn > s.turn
    requires end == if !try.Bad() then Settled else if try.up then Exhausted else Disconnected
    requires end == Settled ==> s' == try.After()
    requires end == Exhausted ==> |tries| == 1 && Renewed(link, s', try.After())
    ensures Transacted(link, s, ops, tries + [try], try.Granted(), end, s')
  {
    hide Linked, Renewed;
  }

  /** rpc_connection: connect, exchange ids, create a session, fetch the root handle, and end the grace period.
      In the new session this takes sequence ids 1 and 2. */
  method RpcConnection(c: Client, link: Link) returns (ok: bool)
    requires c.Valid() && link.Valid()
    modifies c, c.reverse, c.reverse.contents, link
    ensures SetUp(c, link)
    ensures ok ==> Connected(link, old(StateOf(c, link)), StateOf(c, link)) && c.reverse.Contents() == []
    ensures link.ComesUp(old(link.turn)) ==> ok
    decreases link.Left(), 2, 0
  {
    hide InStep, Introduced, SetUpFrom, GotRoot, Client.Valid, Link.Smooth, Link.Valid;
    ghost var s := StateOf(c, link);
    ghost var p1, p2, first;
    ok := link.connects(link.turn);
    if ok {
      ok, p1 := Introduce(c, link);
      p2, first := ProfileOf(c), link.sent[|s.log.sent|..];
    }
    if ok {
      ok := SettleIn(c, link);
    }
    if ok {
      ghost var sent := link.sent[|s.log.sent|..];
      assert sent == first + SettlingOps(c.session);
      assert sent[..2] == first && sent[2..] == SettlingOps(c.session);
      SetUpHolds(link, s.turn, s.profile, p1, p2, c.session, ProfileOf(c), sent);
    }
  }

  // The two compounds that open a new session.
  function SettlingOps(session: seq<u8>): seq<seq<Op>> {
    [[Seq(session, 1)] + [PutRootFh, GetFh], [Seq(session, 2)] + [ReclaimComplete(0)]]
  }

  // The root handle, and the end of the grace period.
  method SettleIn(c: Client, link: Link) returns (ok: bool)
    requires c.Valid() && link.Valid() && InStep(StateOf(c, link))
    requires link.ids == [] && c.sequence == 1 && link.server.live == Some(c.session)
    modifies c`xid, c`sequence, c`rootFh, c`rootFhLen, c.reverse, c.reverse.contents, link
    ensures SetUp(c, link)
    ensures ok ==>
              && link.turn == old(link.turn) + 2 && c.sequence == 3 && c.reverse.Contents() == []
              && link.server == Server(Some(c.session), 2) && link.ids == [1, 2]
              && link.sent == old(link.sent) + SettlingOps(c.session)
    ensures ok ==>
              var f := link.plan(old(link.turn), SettlingOps(c.session)[0]);
              |f.results| == 3 && GotRoot(f.results[2].body, old(c.rootFh), c.rootFh, c.rootFhLen)
    ensures link.Smooth(old(link.turn)) && link.Smooth(old(link.turn) + 1) ==> ok
  {
    hide InStep, GotRoot, Client.Valid, Link.Smooth, Link.Valid;
    ghost var f;
    ok, f := GetRootFhCall(c, link);
    if ok {
      CounterIsNext(c, link);
      ok := ReclaimCompleteCall(c, link);
    }
    if ok {
      CounterIsNext(c, link);
    }
  }

  // EXCHANGE_ID and CREATE_SESSION: who the client is, and its session.
  method Introduce(c: Client, link: Link) returns (ok: bool, ghost p1: Profile)
    requires c.Valid() && link.Valid()
    modifies c, c.reverse, c.reverse.contents, link
    ensures SetUp(c, link)
    ensures ok ==> InStep(StateOf(c, link)) && link.ids == [] && c.sequence == 1
    ensures ok ==> link.server.live == Some(c.session) && link.turn == old(link.turn) + 2
    ensures ok ==> |link.sent| == |old(link.sent)| + 2 && old(link.sent) <= link.sent
    ensures ok ==>
              var sent := link.sent[|old(link.sent)|..];
              Introduced(link, old(link.turn), old(ProfileOf(c)), p1, c.session, ProfileOf(c), sent)
    ensures link.Smooth(old(link.turn)) && link.Smooth(old(link.turn) + 1) ==> ok
    decreases link.Left(), 1, 1
  {
    hide InStep, GotClientId, GotSession, Client.Valid, Link.Smooth, Link.Valid, CreateOps;
    ghost var f;
    ok, f := ExchangeIdCall(c, link);
    p1 := ProfileOf(c);
    if ok {
      ok := CreateSessionCall(c, link);
    }
  }

  ghost predicate Introduced(link: Link, n: nat, p: Profile, p1: Profile, session: seq<u8>, p2: Profile,
                             sent: seq<seq<Op>>) {
    && |sent| == 2
    && sent[0] == [ExchangeId(p.verifier, link.random(n), 0, AUTHOR, VERSION, 0, 0)] && sent[1] == CreateOps(p1)
    && p1 == p.(clientid := p1.clientid, serverSequence := p1.serverSequence)
    && var f0, f1 := link.plan(n, sent[0]), link.plan(n + 1, sent[1]);
    && |f0.results| == 1 && GotClientId(f0.results[0].body, p1.clientid, p1.serverSequence)
    && |f1.results| == 1 && GotSession(f1.results[0].body, p1, session, p2)
  }

  // The CREATE_SESSION of a client with this profile.
  function CreateOps(p: Profile): seq<Op> {
    [CreateSession(p.clientid, p.serverSequence, 1, p.Attrs(), p.Attrs(), 0x7b)]
  }

  lemma SetUpHolds(link: Link, n: nat, p: Profile, p1: Profile, p2: Profile, session: seq<u8>, p3: Profile,
                   sent: seq<seq<Op>>)
    requires |sent| == 4 && Introduced(link, n, p, p1, session, p2, sent[..2])
    requires sent[2..] == SettlingOps(session)
    requires var f := link.plan(n + 2, sent[2]);
      |f.results| == 3 && GotRoot(f.results[2].body, p2.rootFh, p3.rootFh, p3.rootFhLen)
    requires p3 == p2.(rootFh := p3.rootFh, rootFhLen := p3.rootFhLen)
    ensures SetUpFrom(link, n, p, session, p3, sent)
  {
    hide GotClientId, GotRoot;
  }

  lemma CounterIsNext(c: Client, link: Link)
    requires InStep(StateOf(c, link))
    ensures c.sequence == (|link.ids| + 1) % U32_SIZE
    ensures link.server.live == Some(c.session) ==> link.server.slot == |link.ids| % U32_SIZE
  {
  }

  lemma NewIsInStep(s: State)
    requires s.sequence == 1 && s.log.ids == [] && s.log.server == Server(Some(s.session), 0)
    ensures InStep(s)
  {
  }

  // A CREATE_SESSION in the reverse buffer, ready to be sent.
  ghost predicate Creating(c: Client, r: Request, op: u32, t: nat)
    reads c, r, r.b, r.b.contents
  {
    Sendable(c, r, op, t) && Creates(r.ops) && |r.ops| == 1 && op == OP_CREATE_SESSION && t == 0
  }

  // The session exists, and the cursor stands at the answer that says so.
  ghost predicate SessionMade(c: Client, link: Link, f: Fate)
    reads c, c.reverse, c.reverse.contents, link
  {
    && AtBody(c.reverse, f.results, 0) && BodyOk(OP_CREATE_SESSION, f.results[0].body) && |f.results[0].body| >= 16
    && |f.results| == 1
    && link.ids == [] && link.server == Server(Some(f.results[0].body[..16]), 0)
  }

  lemma CreateBody(body: seq<u8>, tail: seq<u8>) returns (a: SessionAnswer)
    requires BodyOk(OP_CREATE_SESSION, body)
    ensures SessionOk(a) && body == EncodeSession(a) && body[..16] == a.session
    ensures DecodeKinds(CREATE_SESSION_KINDS, body + tail).Parsed?
    ensures DecodeKinds(CREATE_SESSION_KINDS, body + tail).value == SessionAnswerFields(a)
  {
    hide DecodeKinds, EncodeLimits, SessionAnswerFields, IsExchange, IsSid, IsRead, IsOpen, IsHandle;
    a :| SessionOk(a) && body == EncodeSession(a);
    SessionReads(a, tail);
  }

  /** create_session: the counter starts at 1 again. */
  method CreateSessionCall(c: Client, link: Link) returns (ok: bool)
    requires c.Valid() && link.Valid()
    modifies c, c.reverse, c.reverse.contents, link
    ensures SetUp(c, link)
    ensures ok ==> InStep(StateOf(c, link)) && link.ids == [] && c.sequence == 1
    ensures ok ==> link.server.live == Some(c.session) && link.turn == old(link.turn) + 1
    ensures ok ==>
              var ops := CreateOps(old(ProfileOf(c)));
              var f := link.plan(old(link.turn), ops);
              && link.sent == old(link.sent) + [ops]
              && |f.results| == 1 && GotSession(f.results[0].body, old(ProfileOf(c)), c.session, ProfileOf(c))
    ensures link.Smooth(old(link.turn)) ==> ok
    decreases link.Left(), 1, 0
  {
    hide Sendable, TargetAt, Codes, InStep, Ready, Transacted, SessionMade, Link.Smooth, Link.Valid, EncodeSession,
      CreateEnds;
    ghost var p, turn := ProfileOf(c), link.turn;
    var r := NewCreateSession(c);
    assert r.ops == CreateOps(p);
    var end;
    ghost var tries, f;
    ok, end, tries, f := Transact(c, link, r, OP_CREATE_SESSION, 0, []);
    SmoothIsGranted(link, turn, CreateOps(p), ok, end, StateOf(c, link));
    if ok {
      ghost var a;
      ok, a := TakeSession(c, link, f);
      NewIsInStep(StateOf(c, link));
    }
  }

  lemma SmoothIsGranted(link: Link, turn: nat, ops: seq<Op>, ok: bool, end: End, s': State)
    requires CreateEnds(link, turn, ops, ok, end, s') && |ops| <= 3
    ensures link.Smooth(turn) ==> ok
  {
    SmoothFate(link, turn, ops);
  }

  // The session of the answer becomes the client's, and its limits are lowered.
  method TakeSession(c: Client, link: Link, ghost f: Fate) returns (ok: bool, ghost a: SessionAnswer)
    requires c.Valid() && SessionMade(c, link, f)
    modifies c`session, c`maxreq, c`maxresp, c`maxops, c`maxreqs, c.reverse`start
    ensures ok && c.Valid() && link.ids == [] && link.server == Server(Some(c.session), 0)
    ensures |f.results| == 1 && SessionOk(a) && f.results[0].body == EncodeSession(a)
    ensures c.session == a.session && ProfileOf(c) == Lowered(old(ProfileOf(c)), a.fore)
  {
    hide DecodeKinds, BodyOk, EncodeResults, EncodeSession;
    a := CreateBody(f.results[0].body, EncodeResults(f.results[1..]));
    var e, overrun := ParseCreateSession(c, c.reverse);
    ok := e.Got?;
  }

  // What a try at a compound from the forward buffer leaves.
  ghost predicate TryMade(link: Link, try: Try, ok: bool, badSession: bool)
    reads link
  {
    && try.fate == link.plan(try.before.turn, try.ops) && Sequenced(try.ops) && Honest(try.ops, try.fate)
    && link.turn == try.After().turn && LogOf(link) == try.After().log && ok == try.Granted() && badSession == try.Bad()
  }

  /** One try of transact, at a compound, at a CREATE_SESSION, or with nothing left to send. */
  method TryOnce(c: Client, link: Link, r: Request, op: u32, ghost t: nat, ghost more: seq<Op>)
    returns (ok: bool, badSession: bool, ghost f: Fate)
    requires c.Valid() && link.Valid() && (r.b == c.forward || r.b == c.reverse)
    requires r.b == c.forward ==> Ready(c, r, op, t, more)
    requires r.b == c.reverse ==> Creating(c, r, op, t) || Drained(r)
    modifies link, r.b.contents, c.reverse, c.reverse.contents
    ensures c.Valid() && (c.reverse.contents == old(c.reverse.contents) || fresh(c.reverse.contents))
    ensures link.turn == old(link.turn) + 1
    ensures f == link.plan(old(link.turn), r.ops)
    ensures badSession ==> !ok
    ensures r.b == c.forward ==>
              && Sendable(c, r, op, t) && r.Complete()
              && TryMade(link, Try(old(StateOf(c, link)), r.ops, f, false), ok, badSession)
              && (ok ==> AtBody(c.reverse, f.results, t))
    ensures r.b == c.reverse ==>
              && link.ran == old(link.ran)
              && link.sent == old(link.sent) + (if old(Creating(c, r, op, t)) then [r.ops] else [])
              && (ok ==> SessionMade(c, link, f))
              && (badSession && old(Creating(c, r, op, t)) ==> old(link.turn) < link.horizon)
              && (old(Drained(r)) ==> badSession)
              && (old(Creating(c, r, op, t)) ==> CreateTried(f, ok, badSession))
  {
    hide Called, AtBody, Honest, Sendable, Drained, Calm, BodyOk, EncodeResults, CreateTried;
    ghost var l, due, creating := LogOf(link), r.b == c.forward, r.b == c.reverse && Creating(c, r, op, t);
    f := link.plan(link.turn, r.ops);
    ghost var try := Try(StateOf(c, link), r.ops, f, false);
    DrainedIsNotSendable(c, r, op, t);
    ok, badSession := BaseTransact(c, link, r, op, true, t);
    if due {
      TryIsExact(try, r.xid, true, LogOf(link), ok, badSession);
    } else if creating {
      LostIsBad(l, f, CallOf(r), false, LogOf(link), ok, badSession);
      NotCarriedOut(l, f, CallOf(r), true, LogOf(link), ok, badSession);
      CreateIsExact(l, f, CallOf(r), LogOf(link), ok, badSession);
      if ok {
        CreateThenInStep(l, f, CallOf(r), false, true, LogOf(link), ok, badSession);
      }
      if old(link.turn) >= link.horizon {
        CalmIsNotBad(l, f, CallOf(r), LogOf(link), ok, badSession);
      }
    }
  }

  lemma LostIsBad(l: Log, f: Fate, call: RpcCall, forward: bool, l': Log, ok: bool, bad': bool)
    requires Called(l, f, call, forward, true, l', ok, bad')
    ensures ok ==> !bad'
  {
  }

  // What a try at CREATE_SESSION comes to.
  predicate CreateTried(f: Fate, ok: bool, badSession: bool) {
    && ok == (f.written && f.heard && f.status == 0)
    && badSession == !(f.written && f.heard && f.status != BADSESSION)
  }

  lemma CreateIsExact(l: Log, f: Fate, call: RpcCall, l': Log, ok: bool, bad': bool)
    requires Called(l, f, call, false, true, l', ok, bad') && Creates(call.ops)
    ensures CreateTried(f, ok, bad')
  {
  }

  lemma DrainedIsNotSendable(c: Client, r: Request, op: u32, t: nat)
    ensures !(Drained(r) && Sendable(c, r, op, t))
  {
  }

  lemma CalmIsNotBad(l: Log, f: Fate, call: RpcCall, l': Log, ok: bool, bad': bool)
    requires Called(l, f, call, false, true, l', ok, bad') && Creates(call.ops) && Calm(f)
    ensures !bad'
  {
  }

  /** What transact does about a bad session: reconnect, then replay_rpc.  It leaves a compound from the forward
      buffer due in the new session; of a CREATE_SESSION nothing is left to send. */
  method Reconnect(c: Client, link: Link, r: Request, op: u32, ghost t: nat, ghost more: seq<Op>) returns (ok: bool)
    requires c.Valid() && link.Valid() && r.opcountloc == 88 && r.opcount < U32_SIZE
    requires r.b == c.forward || r.b == c.reverse
    requires r.b == c.forward ==>
               Sendable(c, r, op, t) && r.Complete() && StartsWithSequence(r.ops) && r.ops[1..] == more
    modifies c, r`xid, r`ops, r`fields, r.b.contents, c.reverse, c.reverse.contents, link
    ensures c.Valid() && (c.reverse.contents == old(c.reverse.contents) || fresh(c.reverse.contents))
    ensures link.ran == old(link.ran) && link.turn >= old(link.turn) && old(link.sent) <= link.sent
    ensures ok && r.b == c.forward ==>
              && Ready(c, r, op, t, more) && r.ops == [Seq(c.session, 3)] + more
              && Renewed(link, StateOf(c, link), old(StateOf(c, link)))
    ensures ok && r.b == c.reverse ==>
              Drained(r) && link.turn == old(link.turn) + 4 && InNewSession(StateOf(c, link))
    ensures link.ComesUp(old(link.turn)) ==> ok
    decreases link.Left(), 3, 0
  {
    hide Connected, Renewed, InNewSession, TargetAt, OpsOk, Header, EncodeFields, EncodeCall, OpsFields, Fits,
      Link.ComesUp, Link.Valid;
    ghost var codes := Codes(r.ops);
    ghost var s := StateOf(c, link);
    ok := RpcConnection(c, link);
    if ok {
      ghost var mid := StateOf(c, link);
      ConnectedCounts(link, s, mid);
      r.Replay(c);
      RenewedBy(link, s, mid, StateOf(c, link));
      RenewedMeans(link, StateOf(c, link), s);
      if r.b == c.forward {
        SameCodes(codes, r.ops);
      }
    }
  }

  lemma ConnectedCounts(link: Link, s: State, s': State)
    requires Connected(link, s, s')
    ensures s'.sequence == 3
  {
    hide SetUpFrom;
  }

  // In a new session, with ids 1 and 2 spent and 3 taken.
  ghost predicate InNewSession(s: State) {
    s.sequence == 4 && s.log.server == Server(Some(s.session), 2) && s.log.ids == [1, 2]
  }

  lemma RenewedMeans(link: Link, s: State, after: State)
    requires Renewed(link, s, after)
    ensures s.turn == after.turn + 4 && InNewSession(s)
  {
    hide SetUpFrom;
  }

  lemma RenewedBy(link: Link, s: State, mid: State, s': State)
    requires Connected(link, s, mid) && s' == mid.(sequence := 4)
    ensures Renewed(link, s', s)
  {
    hide Connected;
    ConnectedCounts(link, s, mid);
    assert s'.(sequence := 3) == mid;
  }

  lemma SameCodes(codes: seq<u32>, ops: seq<Op>)
    requires |codes| == |ops| > 0 && codes[0] == OP_SEQUENCE && ops[0].Sequence?
    requires forall i | 0 < i < |ops| :: codes[i] == Code(ops[i])
    ensures Codes(ops) == codes
  {
  }

  /** One turn of transact's loop: a try, and after a bad session a new connection and the replay. */
  method Turn(c: Client, link: Link, r: Request, op: u32, ghost t: nat, ghost more: seq<Op>, ghost left: nat)
    returns (ok: bool, badSession: bool, up: bool, ghost try: Try)
    requires c.Valid() && link.Valid() && (r.b == c.forward || r.b == c.reverse)
    requires r.b == c.forward ==> Ready(c, r, op, t, more)
    requires r.b == c.reverse ==> Creating(c, r, op, t) || (Drained(r) && link.Left() < left)
    requires r.opcountloc == 88 && r.opcount < U32_SIZE && link.Left() <= left
    modifies c, r`xid, r`ops, r`fields, r.b.contents, c.reverse, c.reverse.contents, link
    ensures c.Valid() && (c.reverse.contents == old(c.reverse.contents) || fresh(c.reverse.contents))
    ensures link.turn > old(link.turn)
    ensures badSession ==> !ok
    ensures !badSession ==> up && unchanged(c) && unchanged(r) && link.turn == old(link.turn) + 1
    ensures r.b == c.forward ==>
              && Next(link, try, old(StateOf(c, link)), old(r.ops)) && Sequenced(try.ops)
              && badSession == try.Bad() && ok == try.Granted() && up == try.up
              && link.ran == try.After().log.ran && try.After().log.sent <= link.sent
              && (!badSession ==> StateOf(c, link) == try.After())
              && (badSession && up ==>
                    && Ready(c, r, op, t, more) && r.ops == [Seq(c.session, 3)] + more
                    && Renewed(link, StateOf(c, link), try.After()))
              && (ok ==> AtBody(c.reverse, try.fate.results, t))
    ensures r.b == c.reverse ==>
              && link.ran == old(link.ran) && old(link.sent) <= link.sent
              && (ok ==> link.sent == old(link.sent) + [old(r.ops)])
              && try.fate == link.plan(old(link.turn), old(r.ops))
              && (ok ==> SessionMade(c, link, try.fate))
              && (badSession && up ==> Drained(r) && link.Left() < left)
              && (old(Drained(r)) ==> badSession)
              && (old(Creating(c, r, op, t)) ==> CreateTried(try.fate, ok, badSession))
              && (badSession && link.ComesUp(old(link.turn) + 1) ==> up)
              && (badSession && up ==> link.turn == old(link.turn) + 5 && InNewSession(StateOf(c, link)))
    decreases left, (if r.b == c.reverse then 0 else 4), 0
  {
    hide Connected, Sendable, AtBody, Honest, Request.Complete, Drained, SessionMade, BodyOk, EncodeResults,
      Link.Smooth, Link.ComesUp, Link.Valid, CreateTried, InNewSession;
    ghost var before, ops := StateOf(c, link), r.ops;
    ghost var f;
    ok, badSession, f := TryOnce(c, link, r, op, t, more);
    up := true;
    if badSession {
      up := Reconnect(c, link, r, op, t, more);
    }
    try := Try(before, ops, f, up);
  }

  /** transact: send, and on a bad session reconnect and replay, at most twice. */
  method Transact(c: Client, link: Link, r: Request, op: u32, ghost t: nat, ghost more: seq<Op>)
    returns (ok: bool, end: End, ghost tries: seq<Try>, ghost f: Fate)
    requires c.Valid() && link.Valid() && (r.b == c.forward || r.b == c.reverse)
    requires r.b == c.forward ==> Ready(c, r, op, t, more)
    requires r.b == c.reverse ==> Creating(c, r, op, t)
    modifies c, r`xid, r`ops, r`fields, r.b.contents, c.reverse, c.reverse.contents, link
    ensures c.Valid() && (c.reverse.contents == old(c.reverse.contents) || fresh(c.reverse.contents))
    ensures link.turn > old(link.turn)
    ensures r.b == c.reverse ==> link.ran == old(link.ran) && old(link.sent) <= link.sent
    ensures r.b == c.reverse && ok ==> SessionMade(c, link, f) && unchanged(c) && link.turn == old(link.turn) + 1
    ensures r.b == c.reverse && ok ==>
              f == link.plan(old(link.turn), old(r.ops)) && link.sent == old(link.sent) + [old(r.ops)]
    ensures r.b == c.reverse ==> CreateEnds(link, old(link.turn), old(r.ops), ok, end, StateOf(c, link))
    ensures r.b == c.forward ==>
              Transacted(link, old(StateOf(c, link)), old(r.ops), tries, ok, end, StateOf(c, link))
    ensures r.b == c.forward && ok ==> AtBody(c.reverse, f.results, t) && Answering(r.ops, more, tries, f)
    decreases link.Left(), (if r.b == c.reverse then 0 else 4), 1
  {
    hide AtBody, Honest, Drained, SessionMade, Ready, Creating, Linked, Transacted, Retrying, Made, Renewed, Answering,
      Next, Try.After, Try.Bad, Try.Granted, Sequenced,
      CreateTried, InNewSession, CreateEnds, Link.Smooth, Link.ComesUp, Link.Valid;
    var n, badSession := 0, true;
    ok, end, tries := false, Exhausted, [];
    f := link.plan(link.turn, r.ops);
    ghost var turn, s, ops, left := link.turn, StateOf(c, link), r.ops, link.Left();
    RequestShape(c, r, op, t, more);
    if r.b == c.forward {
      ReadyMeans(c, r, op, t, more);
      NoTries(link, s, ops);
    }
    while n < 2 && badSession
      invariant 0 <= n <= 2 && c.Valid() && link.turn >= turn + n
      invariant c.reverse.contents == old(c.reverse.contents) || fresh(c.reverse.contents)
      invariant if badSession then !ok && |tries| == n && end == Exhausted else end == Settled && link.turn > turn
      invariant r.b == c.forward ==>
        && (badSession ==> Ready(c, r, op, t, more) && Retrying(link, s, ops, tries, StateOf(c, link), r.ops))
        && (!badSession || n == 2 ==> Transacted(link, s, ops, tries, ok, end, StateOf(c, link)))
        && (ok ==> AtBody(c.reverse, f.results, t) && Answering(r.ops, more, tries, f))
      invariant r.b == c.reverse ==>
        && link.ran == old(link.ran) && old(link.sent) <= link.sent
        && (n == 0 && badSession ==> unchanged(c) && Creating(c, r, op, t) && link.turn == turn && link.Left() == left)
        && (n > 0 ==> badSession && Drained(r) && link.Left() < left && link.turn == turn + 5 * n)
        && (n > 0 || !badSession ==> CreateTried(link.plan(turn, ops), ok, badSession))
        && (n > 0 ==> InNewSession(StateOf(c, link)))
        && (n == 0 && badSession ==> r.ops == ops && link.sent == old(link.sent))
        && (ok ==> link.sent == old(link.sent) + [ops])
        && (ok ==> SessionMade(c, link, f) && unchanged(c) && link.turn == turn + 1 && f == link.plan(turn, ops))
      decreases 2 - n, badSession
    {
      ghost var s0, now := StateOf(c, link), r.ops;
      ghost var try;
      var up;
      if r.b == c.forward {
        ReadyMeans(c, r, op, t, more);
      }
      ok, badSession, up, try := Turn(c, link, r, op, t, more, left);
      f := try.fate;
      end := if !badSession then Settled else if up then Exhausted else Disconnected;
      if r.b == c.forward {
        OneMoreTry(link, s, ops, more, tries, s0, now, try, end, StateOf(c, link), r.ops);
      }
      tries := tries + [try];
      if badSession {
        if !up {
          if r.b == c.reverse {
            CreateCutOff(link, turn, ops, n, StateOf(c, link));
          }
          return;
        }
        n := n + 1;
      }
    }
    if r.b == c.reverse {
      CreateOver(link, turn, ops, ok, badSession, end, StateOf(c, link));
    }
  }

  // What one more try adds to the tries before it.
  lemma OneMoreTry(link: Link, s: State, ops: seq<Op>, more: seq<Op>, tries: seq<Try>, s0: State, now: seq<Op>,
                   try: Try, end: End, s': State, now': seq<Op>)
    requires Retrying(link, s, ops, tries, s0, now) && |tries| < 2 && Next(link, try, s0, now)
    requires ops != [] && now != [] && ops[1..] == now[1..] == more && Sequenced(try.ops)
    requires end == if !try.Bad() then Settled else if try.up then Exhausted else Disconnected
    requires s'.log.ran == try.After().log.ran && try.After().log.sent <= s'.log.sent && s'.turn > s.turn
    requires end == Settled ==> s' == try.After()
    requires end == Exhausted ==> Renewed(link, s', try.After()) && now' == [Seq(s'.session, 3)] + more
    ensures end == Exhausted ==> Retrying(link, s, ops, tries + [try], s', now')
    ensures end != Exhausted || |tries| == 1 ==> Transacted(link, s, ops, tries + [try], try.Granted(), end, s')
    ensures try.Granted() ==> Answering(now, more, tries + [try], try.fate)
  {
    hide Retrying, Made, Renewed, Transacted, Answering, Linked, Try.Granted;
    TryAgain(link, s, ops, tries, s0, now, try);
    MadeMeans(link, try);
    if end == Exhausted {
      StillRetrying(link, s, ops, tries, try, s', now');
    }
    if end != Exhausted || |tries| == 1 {
      Concluded(link, s, ops, tries, try, end, s');
    }
    if try.Granted() {
      AnsweringIs(link, try, s0, now, tries, more);
    }
  }

  /** How a CREATE_SESSION in the hands of transact ends: as its first try does, unless that is a bad session.  Then it
      fails, although the client reconnects twice and is left in a session of its own. */
  ghost predicate CreateEnds(link: Link, turn: nat, ops: seq<Op>, ok: bool, end: End, s': State) {
    && CreateTried(link.plan(turn, ops), ok, end != Settled)
    && (end == Exhausted ==> s'.turn == turn + 10 && InNewSession(s'))
    && (end == Disconnected ==> !(link.ComesUp(turn + 1) && link.ComesUp(turn + 6)))
  }

  lemma CreateCutOff(link: Link, turn: nat, ops: seq<Op>, n: nat, s': State)
    requires n < 2 && CreateTried(link.plan(turn, ops), false, true) && !link.ComesUp(turn + 5 * n + 1)
    ensures CreateEnds(link, turn, ops, false, Disconnected, s')
  {
    hide CreateTried, Link.ComesUp;
  }

  lemma CreateOver(link: Link, turn: nat, ops: seq<Op>, ok: bool, badSession: bool, end: End, s': State)
    requires CreateTried(link.plan(turn, ops), ok, badSession) && end == if badSession then Exhausted else Settled
    requires badSession ==> s'.turn == turn + 10 && InNewSession(s')
    ensures CreateEnds(link, turn, ops, ok, end, s')
  {
    hide CreateTried, InNewSession;
  }

  // What became of the last try: its answer is the one that transact hands on.
  function LastFate(tries: seq<Try>): Fate
    requires tries != []
  {
    tries[|tries| - 1].fate
  }

  ghost predicate Answering(ops: seq<Op>, more: seq<Op>, tries: seq<Try>, f: Fate) {
    && ops != [] && ops[1..] == more && Honest(ops, f) && f.status == 0
    && tries != [] && f == LastFate(tries)
  }

  lemma AnsweringMeans(ops: seq<Op>, more: seq<Op>, tries: seq<Try>, f: Fate)
    requires Answering(ops, more, tries, f)
    ensures ops != [] && ops[1..] == more && tries != [] && f == LastFate(tries)
  {
  }

  lemma AnsweringIs(link: Link, try: Try, s: State, now: seq<Op>, tries: seq<Try>, more: seq<Op>)
    requires Next(link, try, s, now) && try.Granted() && now != [] && now[1..] == more
    ensures Answering(now, more, tries + [try], try.fate)
  {
    hide Honest, Link.ComesUp;
  }

  lemma RequestShape(c: Client, r: Request, op: u32, t: nat, more: seq<Op>)
    requires Ready(c, r, op, t, more) || Creating(c, r, op, t)
    ensures r.opcountloc == 88 && r.opcount < U32_SIZE
  {
    CountFits(r.ops);
  }

  lemma ReadyMeans(c: Client, r: Request, op: u32, t: nat, more: seq<Op>)
    requires Ready(c, r, op, t, more)
    ensures Sequenced(r.ops) && r.ops[1..] == more
  {
  }

  lemma NoTries(link: Link, s: State, ops: seq<Op>)
    requires Sequenced(ops)
    ensures Retrying(link, s, ops, [], s, ops)
  {
    hide Made, Renewed;
  }
}
