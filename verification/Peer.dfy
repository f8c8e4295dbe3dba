/** The other side: a server with one slot per session (RFC 5661, section 2.10.6.1), behind a network that may
    lose what is sent or what is answered. */
module Peer {
  import opened Bytes
  import opened Wire
  import opened Call
  import opened Reply
  import opened Resok

  /** The client's session as the server sees it: the session it serves, and the last sequence id of its slot. */
  datatype Server = Server(live: Option<seq<u8>>, slot: u32)

  /** What network and server do with one call: the server may restart first, the call may not arrive, the answer
      may not come back; if the call is carried out, these are its status and results. */
  datatype Fate = Fate(restart: bool, written: bool, heard: bool, status: u32, results: seq<Res>)

  function Codes(ops: seq<Op>): seq<u32> {
    seq(|ops|, i requires 0 <= i < |ops| => Code(ops[i]))
  }

  predicate Sequenced(ops: seq<Op>) {
    ops != [] && ops[0].Sequence?
  }

  predicate Creates(ops: seq<Op>) {
    ops != [] && ops[0].CreateSession?
  }

  /** An honest server: what it carries out it answers in order, a compound whose SEQUENCE it accepted has a good
      first result, and it never answers BADSESSION to a compound it carried out. */
  ghost predicate Honest(ops: seq<Op>, f: Fate) {
    && Answers(Codes(ops), f.status, f.results)
    && (Sequenced(ops) ==> f.results != [] && f.results[0].status == 0 && f.status != BADSESSION)
    && |EncodeResults(f.results)| < 0x4000_0000
    && |f.results| < U32_SIZE
    && SizesGiven(ops, f.results)
  }

  // Who asks for attribute 4 alone gets the size of a file.
  ghost predicate SizesGiven(ops: seq<Op>, results: seq<Res>) {
    forall i | 0 <= i < |results| ::
      i < |ops| && ops[i] == GetAttr(0x10) && results[i].status == 0 ==> IsSize(results[i].body)
  }

  // A call that comes through, and is not answered with BADSESSION.
  predicate Calm(f: Fate) {
    f.written && f.heard && f.status != BADSESSION
  }

  datatype Effect = Effect(server: Server, ran: bool, answer: Option<Message>)

  // A compound refused at its SEQUENCE.
  function Refusal(xid: u32, status: u32): Message {
    Compound(xid, status, [Res(OP_SEQUENCE, status, [])])
  }

  // The session a successful CREATE_SESSION makes; its slot starts before sequence id 1.
  function Created(s: Server, f: Fate): Server {
    if f.results != [] && f.results[0].status == 0 && |f.results[0].body| >= 16 then
      Server(Some(f.results[0].body[..16]), 0)
    else s
  }

  function Respond(s: Server, f: Fate, call: RpcCall): Effect {
    var done := Some(Compound(call.xid, f.status, f.results));
    if Sequenced(call.ops) then
      var first := call.ops[0];
      if s.live != Some(first.session) then Effect(s, false, Some(Refusal(call.xid, BADSESSION)))
      else if first.seqid != Next32(s.slot) then Effect(s, false, Some(Refusal(call.xid, SEQ_MISORDERED)))
      else Effect(s.(slot := first.seqid), true, done)
    else if Creates(call.ops) then Effect(Created(s, f), f.status != BADSESSION, done)
    else Effect(s, f.status != BADSESSION, done)
  }

  function Handle(s: Server, f: Fate, call: RpcCall): Effect {
    var s := if f.restart then s.(live := None) else s;
    if !f.written then Effect(s, false, None)
    else
      var e := Respond(s, f, call);
      if f.heard then e else e.(answer := None)
  }

  predicate Heard(e: Effect) { e.answer.Some? }

  // The answer says the whole compound succeeded, or that the session is bad.
  predicate Succeeded(e: Effect) { e.answer.Some? && e.answer.value.Compound? && e.answer.value.status == 0 }
  predicate Unknown(e: Effect) { e.answer.Some? && e.answer.value.Compound? && e.answer.value.status == BADSESSION }

  ghost predicate WellFormed(ops: seq<Op>, xid: u32, m: Message) {
    m.Compound? && m.xid == xid && Answers(Codes(ops), m.status, m.results)
    && |m.results| < U32_SIZE && |EncodeResults(m.results)| < 0x4000_0000
  }

  lemma Encodable(ops: seq<Op>, xid: u32, m: Message)
    requires WellFormed(ops, xid, m)
    ensures m.Compound? && m.xid == xid && |m.results| < U32_SIZE
  {
  }

  /** Every answer is well formed, and BADSESSION is only ever answered to what was not carried out. */
  lemma AnswerWellFormed(s: Server, f: Fate, call: RpcCall)
    requires Honest(call.ops, f)
    ensures var e := Handle(s, f, call);
      && (Heard(e) ==> WellFormed(call.ops, call.xid, e.answer.value))
      && (Succeeded(e) ==> e.ran && e.answer.value.results == f.results && f.status == 0)
      && (Unknown(e) ==> !e.ran)
  {
    hide BodyOk, SizesGiven, EncodeResults;
    RefusalIsShort(BADSESSION);
    RefusalIsShort(SEQ_MISORDERED);
    if Sequenced(call.ops) {
      assert Codes(call.ops)[0] == OP_SEQUENCE;
    }
  }

  lemma RefusalIsShort(status: u32)
    ensures |EncodeResults([Res(OP_SEQUENCE, status, [])])| == 8
  {
    var bad := [Res(OP_SEQUENCE, status, [])];
    assert EncodeResults(bad) == EncodeRes(bad[0]) + EncodeResults(bad[1..]);
    assert EncodeResults(bad[1..]) == [];
  }

  /** A SEQUENCE on the session the server serves is carried out exactly when its id is the slot's next; that
      moves the slot on by one, and nothing else moves it. */
  lemma SlotMovesIff(s: Server, f: Fate, call: RpcCall)
    requires Sequenced(call.ops) && Honest(call.ops, f)
    ensures var e := Handle(s, f, call);
      && (e.ran <==> f.written && !f.restart && s.live == Some(call.ops[0].session)
                     && call.ops[0].seqid == Next32(s.slot))
      && e.server.slot == (if e.ran then call.ops[0].seqid else s.slot)
      && (e.ran ==> e.server.live == s.live)
      && (e.server.live == s.live || e.server.live == None)
      && (Unknown(e) <==> f.written && f.heard && (f.restart || s.live != Some(call.ops[0].session)))
  {
  }

  /** What the server sends for a session it does not serve: NFS4ERR_BADSESSION, 00 00 27 44, where the client looks for
      the status. */
  lemma RefusalOnTheWire(s: Server, f: Fate, call: RpcCall)
    requires Sequenced(call.ops) && f.written && f.heard && (f.restart || s.live != Some(call.ops[0].session))
    ensures var e := Handle(s, f, call);
      && e.answer.Some? && e.answer.value.Compound? && |e.answer.value.results| == 1
      && Be32(call.xid) + [0, 0, 0, 1] + Zeros(16) + [0, 0, 0x27, 0x44] <= EncodeReply(e.answer.value)
  {
    hide Be32, EncodeResults;
    StatusBytes();
    assert Zeros(16) == Be32(0) + Be32(0) + Be32(0) + Be32(0);
  }

  // What is carried out beyond the SEQUENCE, if there is one.
  function More(ops: seq<Op>): seq<Op> {
    if Sequenced(ops) then ops[1..] else ops
  }

  /** The sequence ids sent since the last CREATE_SESSION that took effect, after one more call. */
  function Sent(ids: seq<u32>, ops: seq<Op>, f: Fate): seq<u32> {
    if Sequenced(ops) then ids + [ops[0].seqid]
    else if Creates(ops) && f.written && f.results != [] && f.results[0].status == 0 then []
    else ids
  }

  // ---------- Such servers exist ----------

  const NO_SID := Stateid(0, Zeros(12))
  const NO_LIMITS := Limits(0, 0, 0, 0, 0, 0, [])

  /** A good result for each operation. */
  function OkBody(code: u32): seq<u8> {
    if code == OP_SEQUENCE then Zeros(36)
    else if code == OP_EXCHANGE_ID then EncodeExchange(ExchangeAnswer(Zeros(8), 0, 0, 0, [], [], []))
    else if code == OP_CREATE_SESSION then EncodeSession(SessionAnswer(Zeros(16), 0, 0, NO_LIMITS, NO_LIMITS))
    else if code == OP_LOCK || code == OP_LOCKU then EncodeSid(NO_SID)
    else if code == OP_READ then EncodeRead(true, [])
    else if code == OP_GETATTR then EncodeSize(0)
    else if code == OP_OPEN then EncodeOpen(OpenAnswer(NO_SID, false, 0, 0, 0, []))
    else if code == OP_GETFH then EncodeHandle([])
    else []
  }

  lemma OkBodyIsOk(code: u32)
    ensures BodyOk(code, OkBody(code)) && (code == OP_GETATTR ==> IsSize(OkBody(code)))
  {
    hide EncodeExchange, EncodeSession, EncodeSid, EncodeRead, EncodeSize, EncodeOpen, EncodeHandle;
    assert ExchangeOk(ExchangeAnswer(Zeros(8), 0, 0, 0, [], [], []));
    assert SessionOk(SessionAnswer(Zeros(16), 0, 0, NO_LIMITS, NO_LIMITS));
    assert SidOk(NO_SID) && OpenAnswerOk(OpenAnswer(NO_SID, false, 0, 0, 0, []));
  }

  const SERVERFAULT: u32 := 10006

  function Good(ops: seq<Op>): seq<Res> {
    seq(|ops|, i requires 0 <= i < |ops| => Res(Code(ops[i]), 0, OkBody(Code(ops[i]))))
  }

  /** Grant everything, except calls with an absurd number of operations, which fail at their second one. */
  function Generous(ops: seq<Op>): Fate {
    if |ops| < 0x40_0000 then Fate(false, true, true, 0, Good(ops))
    else Fate(false, true, true, SERVERFAULT, Good(ops[..1]) + [Res(Code(ops[1]), SERVERFAULT, [])])
  }

  /** A server that is generous is honest and calm: the assumptions on the other side can be met, by calls that
      succeed. */
  lemma GenerousIsHonest(ops: seq<Op>)
    ensures Honest(ops, Generous(ops)) && Calm(Generous(ops))
    ensures |ops| < 0x40_0000 ==> Generous(ops).status == 0
  {
    hide OkBody, BodyOk, EncodeResults, IsSize;
    var results := Generous(ops).results;
    forall i | 0 <= i < |results|
      ensures |results[i].body| <= 200
      ensures results[i].status == 0 ==> BodyOk(results[i].op, results[i].body)
      ensures results[i].status == 0 && ops[i].GetAttr? ==> IsSize(results[i].body)
    {
      OkBodyIsOk(Code(ops[i]));
      OkBodyIsShort(Code(ops[i]));
    }
    ResultsAreShort(results);
  }

  lemma {:induction false} ResultsAreShort(results: seq<Res>)
    requires forall i | 0 <= i < |results| :: |results[i].body| <= 200
    ensures |EncodeResults(results)| <= 208 * |results|
  {
    hide Be32;
    if results != [] {
      ResultsAreShort(results[1..]);
    }
  }

  lemma OkBodyIsShort(code: u32)
    ensures |OkBody(code)| <= 200
  {
    hide Be32, Be64;
  }

  class Link {
    const plan: (nat, seq<Op>) -> Fate
    const connects: nat -> bool    // whether a new connection can be made
    const random: nat -> seq<u8>   // the client's source of random owners
    const horizon: nat             // from here on no CREATE_SESSION goes wrong in a way that makes the client reconnect
    var turn: nat
    var server: Server
    ghost var ids: seq<u32>
    ghost var sent: seq<seq<Op>>   // every operation list that was put on the wire
    ghost var ran: seq<seq<Op>>    // what the server carried out of the requests from the forward buffer

    ghost predicate Valid() {
      && (forall n, ops :: Honest(ops, plan(n, ops)))
      && (forall n, ops :: n >= horizon && Creates(ops) ==> Calm(plan(n, ops)))
      && (forall n :: |random(n)| == 16)
    }

    // A call that comes through to a server that has not restarted; if it is as small as those of connection setup,
    // it is granted.
    ghost predicate Smooth(n: nat) {
      forall ops :: var f := plan(n, ops); f.written && f.heard && !f.restart && (|ops| <= 3 ==> f.status == 0)
    }

    // A connection set up from call `n` on comes up.
    ghost predicate ComesUp(n: nat) {
      connects(n) && Smooth(n) && Smooth(n + 1) && Smooth(n + 2) && Smooth(n + 3)
    }

    constructor (plan: (nat, seq<Op>) -> Fate, connects: nat -> bool, random: nat -> seq<u8>, horizon: nat,
                 server: Server)
      requires forall n, ops :: Honest(ops, plan(n, ops))
      requires forall n, ops :: n >= horizon && Creates(ops) ==> Calm(plan(n, ops))
      requires forall n :: |random(n)| == 16
      ensures Valid() && turn == 0 && this.server == server && ids == [] && sent == [] && ran == []
      ensures this.plan == plan && this.connects == connects && this.random == random && this.horizon == horizon
    {
      this.plan, this.connects, this.random, this.horizon := plan, connects, random, horizon;
      this.server := server;
      turn, ids, sent, ran := 0, [], [], [];
    }

    // Calls left until CREATE_SESSION is sure to come through.
    ghost function Left(): nat
      reads this
    {
      if turn < horizon then horizon - turn else 0
    }

    /** Put a record on the wire and wait for the answer.  What is no call is never answered. */
    method Exchange(wire: seq<u8>, ghost forward: bool) returns (reply: Option<seq<u8>>)
      requires Valid()
      modifies this
      ensures turn == old(turn) + 1
      ensures match DecodeCall(wire)
              case None =>
                reply == None && server == old(server) && ids == old(ids) && sent == old(sent) && ran == old(ran)
              case Some(call) =>
                var f := plan(old(turn), call.ops);
                var e := Handle(old(server), f, call);
                && server == e.server
                && ids == Sent(old(ids), call.ops, f) && sent == old(sent) + [call.ops]
                && ran == old(ran) + (if e.ran && forward then [More(call.ops)] else [])
                && (if Heard(e) then
                      WellFormed(call.ops, call.xid, e.answer.value) && reply == Some(EncodeReply(e.answer.value))
                    else reply == None)
                && (Succeeded(e) ==> e.answer.value.results == f.results)
    {
      hide DecodeCall, Handle, Honest, EncodeReply, WellFormed;
      var n := turn;
      turn := turn + 1;
      reply := None;
      match DecodeCall(wire)
      case None =>
      case Some(call) =>
        var f := plan(n, call.ops);
        var e := Handle(server, f, call);
        AnswerWellFormed(server, f, call);
        ids, sent := Sent(ids, call.ops, f), sent + [call.ops];
        ran := ran + if e.ran && forward then [More(call.ops)] else [];
        server := e.server;
        if e.answer.Some? {
          Encodable(call.ops, call.xid, e.answer.value);
          reply := Some(EncodeReply(e.answer.value));
        }
    }
  }
}
