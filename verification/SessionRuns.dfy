/** Whole runs: any sequence of calls on one client, what stays true along it, and the runs that show where a guarantee
    ends. */
module SessionRuns {
  import opened Bytes
  import opened Buffer
  import opened Wire
  import opened Call
  import opened Replay
  import opened Rpc
  import opened Reply
  import opened Peer
  import opened Session
  import opened SessionSafety
  import opened Files

  /** One call of a run, as it came out. */
  datatype Step = Step(more: seq<Op>, tries: seq<Try>, ok: bool, end: End)

  ghost predicate StepFrom(link: Link, s: State, step: Step, s': State) {
    Performed(link, s, step.more, step.tries, step.ok, step.end, s')
  }

  // Step `i` leads from the i-th state to the next.
  ghost predicate StepAt(link: Link, states: seq<State>, steps: seq<Step>, i: nat) {
    i < |steps| && i + 1 < |states| && StepFrom(link, states[i], steps[i], states[i + 1])
  }

  /** A run: the states between the calls, and the calls. */
  ghost predicate IsRun(link: Link, states: seq<State>, steps: seq<Step>) {
    |states| == |steps| + 1 && forall i | 0 <= i < |steps| :: StepAt(link, states, steps, i)
  }

  lemma SettledStep(link: Link, s: State, step: Step, s': State)
    requires StepFrom(link, s, step, s') && step.end == Settled && (InStep(s) || |step.tries| == 2)
    ensures InStep(s')
  {
    hide Transacted, InStep, Due;
    if InStep(s) {
      TakenIsDue(s, step.more);
    }
    SettledIsInStep(link, Taken(s), [Seq(s.session, s.sequence)] + step.more, step.tries, step.ok, step.end, s');
  }

  /** Slot agreement over every run: started in step, and as long as no reconnection fails and no call uses both its
      tries up, after every call, answered refusals included, the k-th SEQUENCE of the session carried k, and the
      counter is one ahead of the slot. */
  lemma {:induction false} SlotAgreement(link: Link, states: seq<State>, steps: seq<Step>, i: nat)
    requires IsRun(link, states, steps) && InStep(states[0]) && i < |states|
    requires forall j | 0 <= j < i :: steps[j].end == Settled
    ensures InStep(states[i])
  {
    hide InStep, StepFrom;
    if i > 0 {
      SlotAgreement(link, states, steps, i - 1);
      assert StepAt(link, states, steps, i - 1);
      SettledStep(link, states[i - 1], steps[i - 1], states[i]);
    }
  }

  /** And a call that reconnects and is answered brings any run back in step. */
  lemma ReconnectionRecovers(link: Link, states: seq<State>, steps: seq<Step>, i: nat)
    requires IsRun(link, states, steps) && i < |steps| && steps[i].end == Settled && |steps[i].tries| == 2
    ensures InStep(states[i + 1])
  {
    hide InStep, StepFrom;
    assert StepAt(link, states, steps, i);
    SettledStep(link, states[i], steps[i], states[i + 1]);
  }

  // From call `n` on everything is answered, and the server does not restart.
  ghost predicate SteadyFrom(link: Link, n: nat) {
    forall m, ops :: m >= n ==> var f := link.plan(m, ops); f.written && f.heard && !f.restart
  }

  /** Once a call has used both its tries up, and the server keeps the session from then on, no later call of the run is
      carried out or succeeds; every one is answered at its first try, so that the client does not reconnect. */
  lemma {:induction false} AheadForEver(link: Link, states: seq<State>, steps: seq<Step>, i: nat)
    requires IsRun(link, states, steps) && i < |states| && i + 1 < U32_SIZE
    requires Ahead(states[0], 1) && SteadyFrom(link, states[0].turn)
    ensures Ahead(states[i], i + 1) && states[i].log.ran == states[0].log.ran && states[i].turn >= states[0].turn
    ensures forall j | 0 <= j < i :: !steps[j].ok && steps[j].end == Settled && |steps[j].tries| == 1
  {
    hide Ahead, Transacted;
    if i > 0 {
      AheadForEver(link, states, steps, i - 1);
      assert StepAt(link, states, steps, i - 1);
      var s, step := states[i - 1], steps[i - 1];
      assert link.plan(s.turn, [Seq(s.session, s.sequence)] + step.more).heard;
      AheadIsRefused(link, s, i, step.more, step.tries, step.ok, step.end, states[i]);
      TurnsPass(link, Taken(s), [Seq(s.session, s.sequence)] + step.more, step.tries, step.ok, step.end, states[i]);
    }
  }

  lemma TurnsPass(link: Link, s: State, ops: seq<Op>, tries: seq<Try>, ok: bool, end: End, s': State)
    requires Transacted(link, s, ops, tries, ok, end, s')
    ensures s'.turn > s.turn
  {
  }

  /** Over every run on a reliable link: as many executions as successful calls at least, and no more than calls. */
  lemma {:induction false} OncePerCall(link: Link, states: seq<State>, steps: seq<Step>, i: nat)
    requires IsRun(link, states, steps) && Reliable(link) && i < |states|
    ensures |states[0].log.ran| + Successes(steps[..i]) <= |states[i].log.ran| <= |states[0].log.ran| + i
  {
    hide Transacted, Reliable;
    if i > 0 {
      OncePerCall(link, states, steps, i - 1);
      assert StepAt(link, states, steps, i - 1);
      var s, step := states[i - 1], steps[i - 1];
      AtMostOnce(link, Taken(s), [Seq(s.session, s.sequence)] + step.more, step.tries, step.ok, step.end, states[i]);
      assert steps[..i][..i - 1] == steps[..i - 1];
    }
  }

  function Successes(steps: seq<Step>): nat {
    if steps == [] then 0 else Successes(steps[..|steps| - 1]) + if steps[|steps| - 1].ok then 1 else 0
  }

  // ---------- Runs are made ----------

  /** What a caller can ask of a file. */
  datatype Action =
    | TakeLock(kind: u32, offset: u64, length: u64)
    | DropLock(kind: u32, offset: u64, length: u64)
    | Fetch(offset: u64, count: u32)
    | Store(offset: u64, data: seq<u8>)
    | Measure
    | Reopen(path: seq<seq<u8>>, writable: bool, create: bool)

  // Requests stay below 2^31 bytes; opening needs a name.
  predicate Possible(a: Action) {
    match a
    case Store(_, data) => |data| < LIMIT - 1024
    case Reopen(path, _, _) => PathRoom(path) < LIMIT - 4096 && path != []
    case _ => true
  }

  ghost predicate Asks(a: Action, more: seq<Op>) {
    match a
    case TakeLock(kind, offset, length) =>
      |more| == 2 && more[1].Lock? && more[1].kind == kind && more[1].offset == offset && more[1].length == length
    case DropLock(kind, offset, length) =>
      |more| == 2 && more[1].LockU? && more[1].kind == kind && more[1].offset == offset && more[1].length == length
    case Fetch(offset, count) => |more| == 2 && more[1].Read? && more[1].offset == offset && more[1].count == count
    case Store(offset, data) => |more| == 2 && more[1].Write? && more[1].offset == offset && more[1].data == data
    case Measure => |more| == 2 && more[1] == GetAttr(ATTR_SIZE)
    case Reopen(path, _, _) =>
      path != [] && |more| == |path| + 2 && more[|path|].Open? && more[|path|].name == path[|path| - 1]
  }

  method Perform(file: File, link: Link, a: Action) returns (ok: bool, ghost step: Step)
    requires file.Valid() && link.Valid() && Possible(a)
    modifies file, file.c, file.c.forward, file.c.forward.contents, file.c.reverse, file.c.reverse.contents, link
    ensures file.Valid() && Asks(a, step.more) && step.ok == ok
    ensures StepFrom(link, old(StateOf(file.c, link)), step, StateOf(file.c, link))
    ensures SameBuffers(file.c)
  {
    hide Transacted, BodyOk, PathRoom;
    var end;
    ghost var more, tries;
    match a {
      case TakeLock(kind, offset, length) =>
        more := [PutFh(file.filehandle),
                 Lock(kind, 0, offset, length, 0, file.openSid, 0, file.c.clientid, file.c.owner)];
        ok, end, tries := file.LockRange(link, kind, offset, length);
      case DropLock(kind, offset, length) =>
        more := [PutFh(file.filehandle), LockU(kind, 0, file.latestSid, offset, length)];
        ok, end, tries := file.UnlockRange(link, kind, offset, length);
      case Fetch(offset, count) =>
        more := [PutFh(file.filehandle), Read(file.latestSid, offset, count)];
        var data;
        ok, data, end, tries := file.ReadChunk(link, offset, count);
      case Store(offset, data) =>
        more := [PutFh(file.filehandle), Write(file.latestSid, offset, FILE_SYNC, data)];
        ok, end, tries := file.WriteChunk(link, data, offset);
      case Measure =>
        more := [PutFh(file.filehandle), GetAttr(ATTR_SIZE)];
        var size;
        ok, size, end, tries := file.FileSize(link);
      case Reopen(path, writable, create) =>
        ghost var open := OpenOp(file.c, path[|path| - 1], writable, create);
        more := [PutFh(file.c.rootFh)] + Lookups(path[..|path| - 1]) + [open] + [GetFh];
        ok, end, tries := OpenFile(file, link, path, writable, create);
    }
    step := Step(more, tries, ok, end);
  }

  /** Any sequence of calls, each made whatever became of those before it, is a run. */
  method Play(file: File, link: Link, script: seq<Action>) returns (ghost states: seq<State>, ghost steps: seq<Step>)
    requires file.Valid() && link.Valid() && forall i | 0 <= i < |script| :: Possible(script[i])
    modifies file, file.c, file.c.forward, file.c.forward.contents, file.c.reverse, file.c.reverse.contents, link
    ensures IsRun(link, states, steps) && |steps| == |script|
    ensures forall i | 0 <= i < |script| :: Asks(script[i], steps[i].more)
    ensures states[0] == old(StateOf(file.c, link)) && states[|script|] == StateOf(file.c, link)
  {
    hide StepFrom, Asks, Possible;
    states, steps := [StateOf(file.c, link)], [];
    var n := 0;
    while n < |script|
      invariant 0 <= n <= |script| && file.Valid()
      invariant file.c.forward.contents == old(file.c.forward.contents) || fresh(file.c.forward.contents)
      invariant file.c.reverse.contents == old(file.c.reverse.contents) || fresh(file.c.reverse.contents)
      invariant |steps| == n && IsRun(link, states, steps)
      invariant forall i | 0 <= i < n :: Asks(script[i], steps[i].more)
      invariant states[0] == old(StateOf(file.c, link)) && states[n] == StateOf(file.c, link)
    {
      var ok;
      ghost var step;
      ok, step := Perform(file, link, script[n]);
      RunGrows(link, states, steps, step, StateOf(file.c, link));
      states, steps := states + [StateOf(file.c, link)], steps + [step];
      n := n + 1;
    }
  }

  lemma RunGrows(link: Link, states: seq<State>, steps: seq<Step>, step: Step, s': State)
    requires IsRun(link, states, steps) && StepFrom(link, states[|steps|], step, s')
    ensures IsRun(link, states + [s'], steps + [step])
  {
    hide StepFrom;
    forall i | 0 <= i < |steps| + 1 ensures StepAt(link, states + [s'], steps + [step], i) {
      if i < |steps| {
        assert StepAt(link, states, steps, i);
      }
    }
  }

  /** What create_client starts from. */
  function Defaults(verifier: seq<u8>): Profile {
    Profile(verifier, Zeros(8), 0, 1024 * 1024, 1024 * 1024, 16, 32, Zeros(FHSIZE), 0)
  }

  /** create_client: a client with the source's defaults, and its first connection. */
  method CreateClient(link: Link, verifier: seq<u8>, owner: seq<u8>) returns (c: Client, up: bool)
    requires link.Valid() && |verifier| == 8 && |owner| < 1024
    modifies link
    ensures c.Valid() && fresh(c) && fresh(c.forward) && fresh(c.reverse)
    ensures fresh(c.forward.contents) && fresh(c.reverse.contents)
    ensures up ==>
              var s := State(old(link.turn), Zeros(16), 0, Defaults(verifier), old(LogOf(link)));
              Connected(link, s, StateOf(c, link))
    ensures up ==> InStep(StateOf(c, link)) && c.sequence == 3 && link.turn == old(link.turn) + 4
    ensures up ==> link.server.live == Some(c.session) && link.ran == old(link.ran)
    ensures link.ComesUp(old(link.turn)) ==> up
  {
    hide Link.ComesUp, SetUpFrom;
    c := new Client(0xb956bea4, Zeros(8), Zeros(16), verifier, owner, 0x10_0000, 0x10_0000, 16, 32, Zeros(FHSIZE), 0);
    up := RpcConnection(c, link);
  }

  // ---------- Where the guarantees end ----------

  /** A link on which only the answer to call 4 is lost. */
  function LosesAnswer(n: nat, ops: seq<Op>): Fate {
    if n == 4 then Generous(ops).(heard := false) else Generous(ops)
  }

  /** A server that restarts at calls 4 and 9. */
  function RestartsTwice(n: nat, ops: seq<Op>): Fate {
    if n == 4 || n == 9 then Generous(ops).(restart := true) else Generous(ops)
  }

  lemma BothAreHonest(n: nat, ops: seq<Op>)
    ensures Honest(ops, LosesAnswer(n, ops)) && Honest(ops, RestartsTwice(n, ops))
    ensures n >= 5 && Creates(ops) ==> Calm(LosesAnswer(n, ops))
    ensures Calm(RestartsTwice(n, ops))
  {
    hide Answers, EncodeResults;
    GenerousIsHonest(ops);
  }

  ghost predicate Easy(link: Link, n: nat) {
    link.connects(n) && forall ops :: link.plan(n, ops) == Generous(ops)
  }

  lemma EasyIsSmooth(link: Link, n: nat)
    requires Easy(link, n)
    ensures link.Smooth(n) && link.connects(n)
  {
    forall ops
      ensures var f := link.plan(n, ops); f.written && f.heard && !f.restart && (|ops| <= 3 ==> f.status == 0)
    {
      assert link.plan(n, ops) == Generous(ops);
    }
  }

  lemma EasyComesUp(link: Link, n: nat)
    requires Easy(link, n) && Easy(link, n + 1) && Easy(link, n + 2) && Easy(link, n + 3)
    ensures link.ComesUp(n)
  {
    hide Easy, Link.Smooth;
    EasyIsSmooth(link, n);
    EasyIsSmooth(link, n + 1);
    EasyIsSmooth(link, n + 2);
    EasyIsSmooth(link, n + 3);
  }

  method NewLink(plan: (nat, seq<Op>) -> Fate, horizon: nat) returns (link: Link)
    requires forall n, ops :: Honest(ops, plan(n, ops))
    requires forall n, ops :: n >= horizon && Creates(ops) ==> Calm(plan(n, ops))
    ensures fresh(link) && link.Valid() && link.turn == 0 && link.ran == [] && link.plan == plan
    ensures forall n :: link.connects(n)
  {
    link := new Link(plan, n => true, n => Zeros(16), horizon, Server(None, 0));
  }

  /** A compound carried out twice: the client connects, asks for the size of a file, the answer is lost, it reconnects,
      and the replay succeeds. */
  method CarriedOutTwice() returns (c: Client, link: Link, ok: bool)
    ensures fresh(c) && fresh(link) && link.Valid() && c.Valid()
    ensures ok && link.ran == [[PutFh([]), GetAttr(ATTR_SIZE)], [PutFh([]), GetAttr(ATTR_SIZE)]]
  {
    hide Transacted, Honest, Calm, Link.ComesUp, InStep, Generous, Connected, Performed;
    forall n, ops ensures Honest(ops, LosesAnswer(n, ops)) && (n >= 5 && Creates(ops) ==> Calm(LosesAnswer(n, ops))) {
      BothAreHonest(n, ops);
    }
    link := NewLink(LosesAnswer, 5);
    EasyComesUp(link, 0);
    EasyComesUp(link, 5);
    var up;
    c, up := CreateClient(link, Zeros(8), []);
    ghost var s, more := StateOf(c, link), [PutFh([]), GetAttr(ATTR_SIZE)];
    var file := new File(c);
    var size, end;
    ghost var tries;
    ok, size, end, tries := file.FileSize(link);
    LostThenTwice(link, s, more, tries, ok, end, StateOf(c, link));
  }

  lemma LostThenTwice(link: Link, s: State, more: seq<Op>, tries: seq<Try>, ok: bool, end: End, s': State)
    requires Performed(link, s, more, tries, ok, end, s') && InStep(s) && s.turn == 4 && |more| == 2
    requires s.log.server.live == Some(s.session) && s.log.ran == []
    requires (forall ops :: link.plan(4, ops) == LosesAnswer(4, ops)) && Easy(link, 9) && link.ComesUp(5)
    ensures ok && s'.log.ran == [more, more]
  {
    hide InStep, Due, Honest, Renewed, Link.ComesUp, OkBody;
    var ops := [Seq(s.session, s.sequence)] + more;
    TakenIsDue(s, more);
    GenerousIsHonest(ops);
    assert ops[1..] == more;
    LostAnswerRunsTwice(link, Taken(s), ops, tries, ok, end, s');
    assert [] + [more, more] == [more, more];
    RanTwiceIff(link, Taken(s), ops, tries, ok, end, s');
    ReplayInOrder(link, tries[0].After(), tries[1], more);
    assert tries[1].fate == link.plan(9, tries[1].ops) && |tries[1].ops| == 3;
    GenerousIsHonest(tries[1].ops);
  }

  /** Out of step for good: the server forgets the session before both tries at one call; the next call is refused
      although nothing is lost any more and the server has the session. */
  method RefusedForGood() returns (c: Client, link: Link, end: End, ok: bool)
    ensures fresh(c) && fresh(link) && link.Valid() && c.Valid()
    ensures end == Exhausted && !ok && link.ran == [] && Ahead(StateOf(c, link), 2)
  {
    hide Transacted, Honest, Calm, Link.ComesUp, InStep, Generous, Ahead, Connected;
    forall n, ops ensures Honest(ops, RestartsTwice(n, ops)) && Calm(RestartsTwice(n, ops)) {
      BothAreHonest(n, ops);
    }
    link := NewLink(RestartsTwice, 0);
    RestartsComesUp(link);
    var up;
    c, up := CreateClient(link, Zeros(8), []);
    ghost var s, more := StateOf(c, link), [PutFh([]), GetAttr(ATTR_SIZE)];
    var file := new File(c);
    var size;
    ghost var tries;
    ok, size, end, tries := file.FileSize(link);
    ghost var s' := StateOf(c, link);
    RestartedTwice(link, s, more, tries, ok, end, s');
    var last;
    ok, size, last, tries := file.FileSize(link);
    ThenRefused(link, s', more, tries, ok, last, StateOf(c, link));
  }

  lemma RestartsComesUp(link: Link)
    requires link.plan == RestartsTwice && forall n :: link.connects(n)
    ensures link.ComesUp(0) && link.ComesUp(5) && link.ComesUp(10)
  {
    hide Generous, Link.ComesUp;
    EasyComesUp(link, 0);
    EasyComesUp(link, 5);
    EasyComesUp(link, 10);
  }

  lemma RestartedTwice(link: Link, s: State, more: seq<Op>, tries: seq<Try>, ok: bool, end: End, s': State)
    requires Performed(link, s, more, tries, ok, end, s') && InStep(s) && s.turn == 4 && s.log.ran == []
    requires forall n, ops :: link.plan(n, ops) == RestartsTwice(n, ops)
    requires link.ComesUp(5) && link.ComesUp(10)
    ensures end == Exhausted && s'.turn == 14 && s'.log.ran == [] && Ahead(s', 1)
  {
    hide InStep, Due, Honest, Link.ComesUp, Generous, SetUpFrom;
    TakenIsDue(s, more);
    var ops := [Seq(s.session, s.sequence)] + more;
    GenerousIsHonest(ops);
    assert tries[0].Bad() && tries[0].up;
    assert tries[1].before.turn == 9;
    assert tries[1].Bad() && tries[1].up;
  }

  lemma ThenRefused(link: Link, s: State, more: seq<Op>, tries: seq<Try>, ok: bool, end: End, s': State)
    requires Performed(link, s, more, tries, ok, end, s') && Ahead(s, 1) && s.turn == 14 && s.log.ran == []
    requires forall n, ops :: link.plan(n, ops) == RestartsTwice(n, ops)
    ensures !ok && s'.log.ran == [] && Ahead(s', 2)
  {
    hide Transacted, Ahead, OkBody;
    var ops := [Seq(s.session, s.sequence)] + more;
    assert link.plan(14, ops) == Generous(ops);
    AheadIsRefused(link, s, 1, more, tries, ok, end, s');
  }
}
