/** replay_rpc: patching session id, sequence id and xid into a request that was already built. */
module Replay {
  import opened Bytes
  import opened Wire
  import opened Call

  function Overlay(b: seq<u8>, at: nat, x: seq<u8>): (r: seq<u8>)
    requires at + |x| <= |b|
    ensures |r| == |b|
  {
    b[..at] + x + b[at + |x|..]
  }

  lemma OverlayMiddle(a: seq<u8>, x: seq<u8>, c: seq<u8>, y: seq<u8>)
    requires |x| == |y|
    ensures Overlay(a + x + c, |a|, y) == a + y + c
  {
  }

  lemma OverlayPrefix(b: seq<u8>, at: nat, x: seq<u8>, end: nat)
    requires at + |x| <= end <= |b|
    ensures Overlay(b, at, x)[..end] == Overlay(b[..end], at, x)
  {
  }

  /** What replay_rpc does when the session id is taken to stand at byte `at`. */
  function Patch(b: seq<u8>, at: nat, session: seq<u8>, seqid: u32, xid: u32): (r: seq<u8>)
    requires |session| == 16 && 8 <= at && at + 20 <= |b|
    ensures |r| == |b|
  {
    Overlay(Overlay(Overlay(b, at, session), at + 16, Be32(seqid)), 4, Be32(xid))
  }

  // Where push_sequence puts the session id: behind mark, header, operation count and operation code.
  const SESSION_OFFSET: nat := 4 + 84 + 4 + 4
  // The offset written in the source, which does not count the credential body.
  const LITERAL_OFFSET: nat := 4 * 15

  function Seq(session: seq<u8>, seqid: u32): Op {
    Sequence(session, seqid, 0, 0, 0)
  }

  // Everything behind the sequence id of a call that starts with SEQUENCE.
  function After(more: seq<Op>): seq<u8>
    requires OpsOk(more)
  {
    Be32(0) + Be32(0) + Be32(0) + Body(more)
  }

  lemma SequenceFields(session: seq<u8>, seqid: u32)
    requires |session| == 16
    ensures FieldsOk(OpFields(Seq(session, seqid)))
    ensures EncodeFields(OpFields(Seq(session, seqid)))
            == Be32(OP_SEQUENCE) + (session + Be32(seqid) + Be32(0) + Be32(0) + Be32(0))
  {
    hide EncodeFields;
    var op := Seq(session, seqid);
    ArgsOk(op);
    CodeEncoded(OP_SEQUENCE);
    EncodeCons(U32(OP_SEQUENCE), Args(op));
    EncodeFive(Fixed(session), U32(seqid), U32(0), U32(0), U32(0));
    assert Zeros(Fill(16)) == [] && session + [] == session;
  }

  lemma BodyShape(session: seq<u8>, seqid: u32, more: seq<Op>)
    requires |session| == 16 && OpsOk(more) && OpsOk([Seq(session, seqid)] + more)
    ensures Body([Seq(session, seqid)] + more) == Be32(OP_SEQUENCE) + session + Be32(seqid) + After(more)
  {
    hide EncodeFields, OpFields, OpOk, FieldOk;
    var op := Seq(session, seqid);
    var ops := [op] + more;
    assert ops[0] == op && ops[1..] == more;
    SequenceFields(session, seqid);
    OpsFieldsOk(more);
    EncodeAppend(OpFields(op), OpsFields(more));
    assert Body(ops) == Be32(OP_SEQUENCE) + (session + Be32(seqid) + Be32(0) + Be32(0) + Be32(0)) + Body(more);
  }

  function Frame(mark: u32, xid: u32, rest: seq<u8>, count: u32, session: seq<u8>, seqid: u32, tail: seq<u8>): seq<u8> {
    Be32(mark) + Be32(xid) + rest + Be32(count) + Be32(OP_SEQUENCE) + session + Be32(seqid) + tail
  }

  function CallFrame(xid: u32, session: seq<u8>, seqid: u32, more: seq<Op>): seq<u8>
    requires |session| == 16 && OpsOk(more) && 112 + |After(more)| < LAST_FRAGMENT && 1 + |more| < U32_SIZE
  {
    Frame(LAST_FRAGMENT + 112 + |After(more)|, xid, HeaderRest(), 1 + |more|, session, seqid, After(more))
  }

  lemma CallShape(xid: u32, session: seq<u8>, seqid: u32, more: seq<Op>)
    requires |session| == 16 && OpsOk(more) && OpsOk([Seq(session, seqid)] + more) && Fits([Seq(session, seqid)] + more)
    ensures |After(more)| + 112 < LAST_FRAGMENT && 1 + |more| < U32_SIZE
    ensures EncodeCall(xid, [Seq(session, seqid)] + more) == CallFrame(xid, session, seqid, more)
  {
    hide Body, HeaderRest, OpOk, After;
    BodyShape(session, seqid, more);
    HeaderShape(xid);
  }

  lemma PatchCallFrame(xid: u32, session: seq<u8>, seqid: u32, more: seq<Op>, xid': u32, session': seq<u8>, seqid': u32)
    requires |session| == |session'| == 16 && OpsOk(more) && 112 + |After(more)| < LAST_FRAGMENT
             && 1 + |more| < U32_SIZE
    ensures |CallFrame(xid, session, seqid, more)| >= SESSION_OFFSET + 20
    ensures Patch(CallFrame(xid, session, seqid, more), SESSION_OFFSET, session', seqid', xid')
            == CallFrame(xid', session', seqid', more)
    ensures Patch(CallFrame(xid, session, seqid, more), LITERAL_OFFSET, session', seqid', xid')
            == CallFrame(xid', session', seqid', more)
            <==> session == session' == Zeros(16) && seqid == seqid' == 0
  {
    hide Frame, Patch, After, HeaderRest;
    HeaderShape(0);
    var mark, tail := LAST_FRAGMENT + 112 + |After(more)|, After(more);
    FrameLength(mark, xid, HeaderRest(), 1 + |more|, session, seqid, tail);
    PatchFrame(mark, xid, HeaderRest(), 1 + |more|, session, seqid, tail, xid', session', seqid');
    LiteralPatchFrame(mark, xid, HeaderRest(), 1 + |more|, session, seqid, tail, xid', session', seqid');
  }

  lemma PatchFrame(mark: u32, xid: u32, rest: seq<u8>, count: u32, session: seq<u8>, seqid: u32, tail: seq<u8>,
                   xid': u32, session': seq<u8>, seqid': u32)
    requires |rest| == 80 && |session| == |session'| == 16
    ensures Patch(Frame(mark, xid, rest, count, session, seqid, tail), SESSION_OFFSET, session', seqid', xid')
            == Frame(mark, xid', rest, count, session', seqid', tail)
  {
    hide Be32;
    var b := Frame(mark, xid, rest, count, session, seqid, tail);
    var lead := Be32(mark) + Be32(xid) + rest + Be32(count) + Be32(OP_SEQUENCE);
    assert b == lead + session + Be32(seqid) + tail && |lead| == 96;
    var b1 := Overlay(b, 96, session');
    assert b1 == lead + session' + Be32(seqid) + tail;
    var b2 := Overlay(b1, 112, Be32(seqid'));
    assert b2 == lead + session' + Be32(seqid') + tail;
    var behind := rest + Be32(count) + Be32(OP_SEQUENCE) + session' + Be32(seqid') + tail;
    assert b2 == Be32(mark) + Be32(xid) + behind;
    assert Overlay(b2, 4, Be32(xid')) == Be32(mark) + Be32(xid') + behind;
  }

  /** Patching at the place push_sequence wrote to gives exactly the bytes that building the same
      compound under the new session would give. */
  lemma ReplayIsRebuild(xid: u32, session: seq<u8>, seqid: u32, more: seq<Op>,
                        xid': u32, session': seq<u8>, seqid': u32)
    requires |session| == |session'| == 16 && OpsOk([Seq(session, seqid)] + more) && Fits([Seq(session, seqid)] + more)
    ensures |EncodeCall(xid, [Seq(session, seqid)] + more)| >= SESSION_OFFSET + 20
    ensures OpsOk([Seq(session', seqid')] + more) && Fits([Seq(session', seqid')] + more)
    ensures Patch(EncodeCall(xid, [Seq(session, seqid)] + more), SESSION_OFFSET, session', seqid', xid')
            == EncodeCall(xid', [Seq(session', seqid')] + more)
  {
    SameOps(session, seqid, more, session', seqid');
    hide *;
    CallShape(xid, session, seqid, more);
    CallShape(xid', session', seqid', more);
    PatchCallFrame(xid, session, seqid, more, xid', session', seqid');
  }

  lemma FrameLength(mark: u32, xid: u32, rest: seq<u8>, count: u32, session: seq<u8>, seqid: u32, tail: seq<u8>)
    requires |rest| == 80 && |session| == 16
    ensures |Frame(mark, xid, rest, count, session, seqid, tail)| == 116 + |tail|
  {
  }

  lemma SameOps(session: seq<u8>, seqid: u32, more: seq<Op>, session': seq<u8>, seqid': u32)
    requires |session| == |session'| == 16 && OpsOk([Seq(session, seqid)] + more) && Fits([Seq(session, seqid)] + more)
    ensures OpsOk(more) && OpsOk([Seq(session', seqid')] + more) && Fits([Seq(session', seqid')] + more)
  {
    var ops, ops' := [Seq(session, seqid)] + more, [Seq(session', seqid')] + more;
    assert OpOk(Seq(session', seqid'));
    hide OpOk, Body;
    assert forall i | 0 <= i < |more| :: more[i] == ops[i + 1];
    assert forall i | 0 < i < |ops'| :: ops'[i] == ops[i];
    BodyShape(session, seqid, more);
    BodyShape(session', seqid', more);
  }

  // A frame whose header has `zeroed` bytes where the credential's ids and the verifier stand.
  function Split(front: seq<u8>, hole: seq<u8>, m: seq<u8>, session: seq<u8>, seqid: u32, tail: seq<u8>): seq<u8> {
    front + hole + m + session + Be32(seqid) + tail
  }

  lemma FrameSplits(mark: u32, xid: u32, rest: seq<u8>, count: u32, session: seq<u8>, seqid: u32, tail: seq<u8>)
    requires |rest| == 80 && rest[52..76] == Zeros(24)
    ensures Frame(mark, xid, rest, count, session, seqid, tail)
            == Split(Be32(mark) + Be32(xid) + rest[..52], Zeros(20), rest[72..] + Be32(count) + Be32(OP_SEQUENCE),
                     session, seqid, tail)
  {
    hide Be32;
    assert rest == rest[..52] + rest[52..72] + rest[72..];
    assert rest[52..72] == rest[52..76][..20] == Zeros(20);
  }

  lemma LiteralPatchSplit(mark: u32, xid: u32, front: seq<u8>, m: seq<u8>, session: seq<u8>, seqid: u32, tail: seq<u8>,
                          xid': u32, session': seq<u8>, seqid': u32)
    requires |front| == 52 && |session'| == 16
    ensures Patch(Split(Be32(mark) + Be32(xid) + front, Zeros(20), m, session, seqid, tail), LITERAL_OFFSET, session',
                  seqid', xid')
            == Split(Be32(mark) + Be32(xid') + front, session' + Be32(seqid'), m, session, seqid, tail)
  {
    hide Be32, Overlay;
    var lead, behind := Be32(mark) + Be32(xid) + front, m + session + Be32(seqid) + tail;
    var b := Split(lead, Zeros(20), m, session, seqid, tail);
    assert Zeros(20) == Zeros(16) + Zeros(4);
    assert b == lead + Zeros(16) + (Zeros(4) + behind);
    OverlayMiddle(lead, Zeros(16), Zeros(4) + behind, session');
    assert lead + session' + (Zeros(4) + behind) == (lead + session') + Zeros(4) + behind;
    OverlayMiddle(lead + session', Zeros(4), behind, Be32(seqid'));
    var rest := front + session' + Be32(seqid') + behind;
    assert (lead + session') + Be32(seqid') + behind == Be32(mark) + Be32(xid) + rest;
    OverlayMiddle(Be32(mark), Be32(xid), rest, Be32(xid'));
    assert Be32(mark) + Be32(xid') + rest
        == Split(Be32(mark) + Be32(xid') + front, session' + Be32(seqid'), m, session, seqid, tail);
  }

  lemma SplitsEqualIff(front: seq<u8>, hole: seq<u8>, hole': seq<u8>, m: seq<u8>,
                       session: seq<u8>, seqid: u32, session': seq<u8>, seqid': u32, tail: seq<u8>)
    requires |hole| == |hole'| && |session| == |session'| == 16
    ensures Split(front, hole, m, session, seqid, tail) == Split(front, hole', m, session', seqid', tail)
            <==> hole == hole' && session == session' && seqid == seqid'
  {
    Be32RoundTrip(seqid);
    Be32RoundTrip(seqid');
    hide Be32;
    var a, b := Split(front, hole, m, session, seqid, tail), Split(front, hole', m, session', seqid', tail);
    var i, j := |front|, |front| + |hole| + |m|;
    assert a[i..i + |hole|] == hole && b[i..i + |hole|] == hole';
    assert a[j..j + 16] == session && b[j..j + 16] == session';
    assert a[j + 16..j + 20] == Be32(seqid) && b[j + 16..j + 20] == Be32(seqid');
  }

  lemma LiteralPatchFrame(mark: u32, xid: u32, rest: seq<u8>, count: u32, session: seq<u8>, seqid: u32, tail: seq<u8>,
                          xid': u32, session': seq<u8>, seqid': u32)
    requires |rest| == 80 && rest[52..76] == Zeros(24) && |session| == |session'| == 16
    ensures Patch(Frame(mark, xid, rest, count, session, seqid, tail), LITERAL_OFFSET, session', seqid', xid')
            == Frame(mark, xid', rest, count, session', seqid', tail)
            <==> session == session' == Zeros(16) && seqid == seqid' == 0
  {
    FrameSplits(mark, xid, rest, count, session, seqid, tail);
    FrameSplits(mark, xid', rest, count, session', seqid', tail);
    HoleIsZeroIff(session', seqid');
    hide Frame, Split, Patch;
    var front, m := rest[..52], rest[72..] + Be32(count) + Be32(OP_SEQUENCE);
    LiteralPatchSplit(mark, xid, front, m, session, seqid, tail, xid', session', seqid');
    SplitsEqualIff(Be32(mark) + Be32(xid') + front, session' + Be32(seqid'), Zeros(20), m, session, seqid,
                   session', seqid', tail);
  }

  lemma HoleIsZeroIff(session: seq<u8>, seqid: u32)
    requires |session| == 16
    ensures session + Be32(seqid) == Zeros(20) <==> session == Zeros(16) && seqid == 0
  {
    var h := session + Be32(seqid);
    Be32RoundTrip(seqid);
    assert Be32(0) == Zeros(4);
    assert h[..16] == session && h[16..] == Be32(seqid);
    assert Zeros(20)[..16] == Zeros(16) && Zeros(20)[16..] == Zeros(4);
    if session == Zeros(16) && seqid == 0 {
      assert Zeros(20) == Zeros(16) + Zeros(4);
    }
  }

  /** Patching at the offset written in the source overwrites the credential and the verifier instead; it
      gives the rebuilt request only when every id involved is zero, which no session under way has. */
  lemma LiteralOffsetRebuildsIff(xid: u32, session: seq<u8>, seqid: u32, more: seq<Op>,
                                 xid': u32, session': seq<u8>, seqid': u32)
    requires |session| == |session'| == 16 && OpsOk([Seq(session, seqid)] + more) && Fits([Seq(session, seqid)] + more)
    ensures |EncodeCall(xid, [Seq(session, seqid)] + more)| >= SESSION_OFFSET + 20
    ensures OpsOk([Seq(session', seqid')] + more) && Fits([Seq(session', seqid')] + more)
    ensures Patch(EncodeCall(xid, [Seq(session, seqid)] + more), LITERAL_OFFSET, session', seqid', xid')
            == EncodeCall(xid', [Seq(session', seqid')] + more)
            <==> session == session' == Zeros(16) && seqid == seqid' == 0
  {
    SameOps(session, seqid, more, session', seqid');
    hide *;
    CallShape(xid, session, seqid, more);
    CallShape(xid', session', seqid', more);
    PatchCallFrame(xid, session, seqid, more, xid', session', seqid');
  }
}
