/** What sending with reconnection and replay guarantees: the sequence ids stay in step with the server's slot, a
    compound is carried out at most once unless an answer is lost, and how each of the two comes to an end. */
module SessionSafety {
  import opened Bytes
  import opened Wire
  import opened Call
  import opened Replay
  import opened Peer
  import opened Session

  // ---------- Slot agreement ----------

  lemma RenewedIsDue(link: Link, s: State, after: State, more: seq<Op>)
    requires Renewed(link, s, after)
    ensures Due(s, [Seq(s.session, 3)] + more)
  {
    hide SetUpFrom;
  }

  /** Whatever state it is made in, a call that was built in step, or that reconnected, and that ended with an answer
      leaves client and slot in step: answered refusals as well as successes. */
  lemma SettledIsInStep(link: Link, s: State, ops: seq<Op>, tries: seq<Try>, ok: bool, end: End, s': State)
    requires Transacted(link, s, ops, tries, ok, end, s') && end == Settled
    requires Due(s, ops) || |tries| == 2
    ensures InStep(s')
  {
    hide Due, Renewed, Honest, InStep, Try.After;
    var last := tries[|tries| - 1];
    if |tries| == 2 {
      RenewedIsDue(link, last.before, tries[0].After(), ops[1..]);
    }
    DueThenInStep(last);
  }

  /** On a link that loses nothing, while the server keeps the session, every call made in step is answered at its first
      try and leaves client and slot in step, whatever its status. */
  lemma SteadyIsInStep(link: Link, s: State, ops: seq<Op>, tries: seq<Try>, ok: bool, end: End, s': State)
    requires Transacted(link, s, ops, tries, ok, end, s') && Due(s, ops) && s.log.server.live == Some(s.session)
    requires var f := link.plan(s.turn, ops); f.written && f.heard && !f.restart
    ensures |tries| == 1 && end == Settled && InStep(s') && s'.log.server.live == Some(s'.session)
    ensures s'.log.ran == s.log.ran + [ops[1..]] && (ok <==> link.plan(s.turn, ops).status == 0)
  {
    FirstInOrder(s, tries[0]);
    hide Due, Honest, Renewed, Link.ComesUp, InStep;
    assert tries[0].CarriedOut() && !tries[0].Bad();
    SettledIsInStep(link, s, ops, tries, ok, end, s');
  }

  /** The client's counter is `gap` sequence ids further than the slot expects. */
  ghost predicate Ahead(s: State, gap: nat) {
    s.log.server.live == Some(s.session) && s.sequence == (s.log.server.slot + 1 + gap) % U32_SIZE
  }

  /** As long as no reconnection fails, a call made in step ends out of step if and only if both its tries ended with a
      bad session; then replay_rpc has taken an id that is never sent, and the counter is one ahead. */
  lemma OutOfStepIff(link: Link, s: State, ops: seq<Op>, tries: seq<Try>, ok: bool, end: End, s': State)
    requires Transacted(link, s, ops, tries, ok, end, s') && Due(s, ops) && end != Disconnected
    ensures !InStep(s') <==> |tries| == 2 && tries[0].Bad() && tries[1].Bad()
    ensures !InStep(s') ==> end == Exhausted && !ok && Ahead(s', 1)
  {
    hide Due, Honest, Link.ComesUp, Try.After, Consecutive, SetUpFrom;
    if end == Settled {
      SettledIsInStep(link, s, ops, tries, ok, end, s');
    }
  }

  /** Out of step on a live session, a compound that is answered is not carried out: it is refused as misordered, not as
      a bad session, so that there is no second try and no reconnection, and the gap grows by one. */
  lemma AheadIsRefused(link: Link, s: State, gap: nat, more: seq<Op>, tries: seq<Try>, ok: bool, end: End, s': State)
    requires Ahead(s, gap) && 0 < gap < U32_SIZE
    requires var ops := [Seq(s.session, s.sequence)] + more;
      var f := link.plan(s.turn, ops);
      Transacted(link, Taken(s), ops, tries, ok, end, s') && f.written && f.heard && !f.restart
    ensures |tries| == 1 && !ok && end == Settled && s'.log.ran == s.log.ran && Ahead(s', gap + 1)
  {
    hide Honest, Renewed, Link.ComesUp;
    var k := s.log.server.slot + 1;
    NotNext(k, gap);
    assert tries[0].Current() && !tries[0].Bad();
  }

  lemma NotNext(k: nat, gap: nat)
    requires 0 < gap < U32_SIZE
    ensures (k + gap) % U32_SIZE != k % U32_SIZE && Next32((k + gap) % U32_SIZE) == (k + gap + 1) % U32_SIZE
  {
  }

  // ---------- How often a compound is carried out ----------

  /** What the server carried out in one call, in order: the compound, once for each try that was carried out. */
  lemma CarriedOut(link: Link, s: State, ops: seq<Op>, tries: seq<Try>, ok: bool, end: End, s': State)
    requires Transacted(link, s, ops, tries, ok, end, s')
    ensures s'.log.ran == s.log.ran + (if tries[0].CarriedOut() then [ops[1..]] else [])
                          + (if |tries| == 2 && tries[1].CarriedOut() then [ops[1..]] else [])
    ensures |tries| == 2 ==> !(tries[0].Answered() && tries[0].CarriedOut())
    ensures ok ==> tries[|tries| - 1].CarriedOut()
  {
    hide Honest, Link.ComesUp, SetUpFrom;
    if |tries| == 2 {
      assert tries[1].ops[1..] == ops[1..];
    }
  }

  /** Every call comes through and is answered. */
  ghost predicate Reliable(link: Link) {
    forall n, ops :: link.plan(n, ops).written && link.plan(n, ops).heard
  }

  /** On a reliable link a compound is carried out at most once, and exactly once if the call succeeds: a server that
      restarts and forgets the session makes no difference. */
  lemma AtMostOnce(link: Link, s: State, ops: seq<Op>, tries: seq<Try>, ok: bool, end: End, s': State)
    requires Transacted(link, s, ops, tries, ok, end, s') && Reliable(link)
    ensures s'.log.ran == s.log.ran || s'.log.ran == s.log.ran + [ops[1..]]
    ensures ok ==> s'.log.ran == s.log.ran + [ops[1..]]
  {
    hide Transacted, Try.CarriedOut;
    CarriedOut(link, s, ops, tries, ok, end, s');
    TheFirst(link, s, ops, tries, ok, end, s');
    if |tries| == 2 {
      TheSecond(link, s, ops, tries, ok, end, s');
    }
    assert tries[0].Answered() && (|tries| == 2 ==> tries[1].Answered());
  }

  // The answer to the first try is lost although the server, which has the session, carried it out.
  predicate FirstAnswerLost(f: Fate, s: State) {
    f.written && !f.heard && !f.restart && s.log.server.live == Some(s.session)
  }

  lemma FirstInOrder(s: State, try: Try)
    requires Due(s, try.ops) && try.before == s
    ensures try.CarriedOut() <==> try.fate.written && !try.fate.restart && s.log.server.live == Some(s.session)
  {
    NextOfMod(|s.log.ids|);
  }

  lemma ReplayInOrder(link: Link, after: State, try: Try, more: seq<Op>)
    requires Renewed(link, try.before, after) && try.ops == [Seq(try.before.session, 3)] + more
    ensures try.CarriedOut() <==> try.fate.written && !try.fate.restart
    ensures try.before.turn == after.turn + 4
  {
    hide SetUpFrom;
  }

  /** Made in step, a compound is carried out twice if and only if the answer to the first try is lost, the reconnection
      comes up, and the replay reaches a server that has not restarted since. */
  lemma TwiceIff(link: Link, s: State, ops: seq<Op>, tries: seq<Try>, ok: bool, end: End, s': State)
    requires Transacted(link, s, ops, tries, ok, end, s') && Due(s, ops)
    ensures s'.log.ran == s.log.ran + [ops[1..], ops[1..]]
            <==> FirstAnswerLost(link.plan(s.turn, ops), s) && tries[0].up && |tries| == 2
                 && var f := link.plan(s.turn + 5, tries[1].ops); f.written && !f.restart
  {
    hide Transacted, Due, Try.CarriedOut, Link.ComesUp;
    RanTwiceIff(link, s, ops, tries, ok, end, s');
    TheFirst(link, s, ops, tries, ok, end, s');
    FirstInOrder(s, tries[0]);
    if |tries| == 2 {
      TheSecond(link, s, ops, tries, ok, end, s');
    }
  }

  lemma TheFirst(link: Link, s: State, ops: seq<Op>, tries: seq<Try>, ok: bool, end: End, s': State)
    requires Transacted(link, s, ops, tries, ok, end, s')
    ensures 1 <= |tries| <= 2 && tries[0].before == s && tries[0].ops == ops && tries[0].fate == link.plan(s.turn, ops)
    ensures Sequenced(ops) && (tries[0].Bad() && link.ComesUp(s.turn + 1) ==> tries[0].up)
    ensures |tries| == 2 <==> tries[0].Bad() && tries[0].up
  {
    hide Renewed, Honest, Link.ComesUp, Try.Bad, Try.After;
  }

  lemma TheSecond(link: Link, s: State, ops: seq<Op>, tries: seq<Try>, ok: bool, end: End, s': State)
    requires Transacted(link, s, ops, tries, ok, end, s') && |tries| == 2
    ensures var f := tries[1].fate;
      f == link.plan(s.turn + 5, tries[1].ops) && (tries[1].CarriedOut() <==> f.written && !f.restart)
  {
    hide Honest, Link.ComesUp, Try.Bad, Try.CarriedOut, Renewed;
    ReplayInOrder(link, tries[0].After(), tries[1], ops[1..]);
  }

  lemma RanTwiceIff(link: Link, s: State, ops: seq<Op>, tries: seq<Try>, ok: bool, end: End, s': State)
    requires Transacted(link, s, ops, tries, ok, end, s')
    ensures s'.log.ran == s.log.ran + [ops[1..], ops[1..]]
            <==> |tries| == 2 && tries[0].CarriedOut() && !tries[0].Answered() && tries[1].CarriedOut()
  {
    hide Transacted, Try.CarriedOut, Try.Answered;
    TheFirst(link, s, ops, tries, ok, end, s');
    CarriedOut(link, s, ops, tries, ok, end, s');
    Twice(s.log.ran, ops[1..], tries[0].CarriedOut(), |tries| == 2 && tries[1].CarriedOut());
  }

  lemma Twice(ran: seq<seq<Op>>, more: seq<Op>, first: bool, second: bool)
    ensures ran + (if first then [more] else []) + (if second then [more] else []) == ran + [more, more]
            <==> first && second
  {
    var all := ran + (if first then [more] else []) + if second then [more] else [];
    assert first && second ==> all == ran + [more, more];
    assert all == ran + [more, more] ==> |all| == |ran| + 2;
  }

  // Whatever is sent as call `n` reaches a server that has not restarted.
  ghost predicate Arrives(link: Link, n: nat) {
    forall ops :: link.plan(n, ops).written && !link.plan(n, ops).restart
  }

  /** So on a link that loses the answer to the first try, and lets the reconnection and the replay through, every
      compound made in step is carried out twice. */
  lemma LostAnswerRunsTwice(link: Link, s: State, ops: seq<Op>, tries: seq<Try>, ok: bool, end: End, s': State)
    requires Transacted(link, s, ops, tries, ok, end, s') && Due(s, ops)
    requires FirstAnswerLost(link.plan(s.turn, ops), s) && link.ComesUp(s.turn + 1)
    requires Arrives(link, s.turn + 5)
    ensures s'.log.ran == s.log.ran + [ops[1..], ops[1..]]
  {
    hide Transacted, Due, Try.CarriedOut, Link.ComesUp;
    TwiceIff(link, s, ops, tries, ok, end, s');
    TheFirst(link, s, ops, tries, ok, end, s');
  }
}
