/** What the locking protocol guarantees over every run: mutual exclusion, the PENDING gate,
    exact release and stateid agreement, with the runs that show where each stops holding. */
module LockSafety {
  import opened LockProtocol

  lemma InitInv(n: nat)
    ensures Inv(Init(n))
  {
  }

  /** Every world of every run satisfies the invariant. */
  lemma ReachableInv(n: nat, es: seq<Event>)
    requires IsRun(Init(n), es)
    ensures Inv(Exec(Init(n), es))
  {
    InitInv(n);
    RunKeepsInv(Init(n), es);
  }

  ghost predicate IdleTrusted(w: World, i: nat) {
    i < |w.handles| && w.handles[i].pc.Idle? && w.handles[i].trusted
  }

  /** Level implies possession, so the levels that exclude each other do, in every run. */
  lemma MutualExclusion(n: nat, es: seq<Event>, i: nat, j: nat)
    requires IsRun(Init(n), es)
    requires var w := Exec(Init(n), es); IdleTrusted(w, i) && IdleTrusted(w, j) && i != j
    ensures var w := Exec(Init(n), es);
            && Possesses(w.owners[i].locks, w.handles[i].level)
            && w.handles[i].level != PENDING_LOCK
            && (w.handles[i].level == EXCLUSIVE_LOCK ==> w.handles[j].level == NO_LOCK)
            && (w.handles[i].level >= RESERVED_LOCK ==> w.handles[j].level < RESERVED_LOCK)
  {
    ReachableInv(n, es);
    var w := Exec(Init(n), es);
    var a, b := w.owners[i].locks, w.owners[j].locks;
    assert i < j ==> Compatible(a, b);
    assert j < i ==> Compatible(b, a);
    assert w.handles[i].level == EXCLUSIVE_LOCK ==> SHARED_FIRST in a && a[SHARED_FIRST] == Write;
    assert w.handles[j].level >= SHARED_LOCK ==> SHARED_FIRST in b;
    assert w.handles[j].level == EXCLUSIVE_LOCK ==> b[SHARED_FIRST] == Write;
    assert w.handles[i].level == RESERVED_LOCK ==> RESERVED_BYTE in a && a[RESERVED_BYTE] == Write;
    assert w.handles[j].level == RESERVED_LOCK ==> RESERVED_BYTE in b && b[RESERVED_BYTE] == Write;
  }

  /** Whenever any two handles hold the same byte, both hold it for reading: no run breaks the server's table. */
  lemma NoTwoWriters(n: nat, es: seq<Event>, i: nat, j: nat, b: nat)
    requires IsRun(Init(n), es) && i < n && j < n && i != j
    requires var w := Exec(Init(n), es); b in w.owners[i].locks && b in w.owners[j].locks
    ensures var w := Exec(Init(n), es); w.owners[i].locks[b] == Read && w.owners[j].locks[b] == Read
  {
    ReachableInv(n, es);
    var w := Exec(Init(n), es);
    assert i < j ==> Compatible(w.owners[i].locks, w.owners[j].locks);
    assert j < i ==> Compatible(w.owners[j].locks, w.owners[i].locks);
  }

  // ---------- PENDING gates readers ----------

  ghost predicate HoldsPending(w: World, i: nat) {
    i < |w.owners| && Covers(w.owners[i].locks, Write, PENDING_BYTE, 1)
  }

  ghost predicate AllTrusted(w: World) {
    forall i | 0 <= i < |w.handles| :: w.handles[i].trusted
  }

  function SharedHeld(w: World, i: nat): set<nat>
    requires i < |w.owners|
  {
    set b | b in w.owners[i].locks && Within(b, SHARED_FIRST, SHARED_SIZE)
  }

  /** While `writer` holds PENDING for writing, a step can give another client SHARED bytes it did not hold
      only by an untrusted handle's downgrade. */
  lemma GateStep(w: World, e: Event, writer: nat, i: nat)
    requires Inv(w) && Enabled(w, e) && HoldsPending(w, writer)
    requires i < |w.owners| && i != writer
    requires e.who == i ==> w.handles[i].trusted || !w.handles[i].pc.Downgrade?
    ensures SharedHeld(Step(w, e), i) <= SharedHeld(w, i)
  {
    assert PENDING_BYTE in w.owners[writer].locks && w.owners[writer].locks[PENDING_BYTE] == Write;
    assert writer < i ==> Compatible(w.owners[writer].locks, w.owners[i].locks);
    assert i < writer ==> Compatible(w.owners[i].locks, w.owners[writer].locks);
    assert PENDING_BYTE !in w.owners[i].locks;
  }

  ghost predicate Gated(w: World, es: seq<Event>, writer: nat)
    requires Sized(w) && IsRun(w, es)
    decreases |es|
  {
    && AllTrusted(w) && HoldsPending(w, writer)
    && (es != [] ==> Gated(Step(w, es[0]), es[1..], writer))
  }

  /** As long as `writer` keeps PENDING and every handle stays trusted, its competitors only shrink;
      and once none of them holds a SHARED byte, its request for EXCLUSIVE cannot conflict. */
  lemma {:induction false} PendingGatesReaders(w: World, es: seq<Event>, writer: nat)
    requires Inv(w) && IsRun(w, es) && Gated(w, es, writer)
    ensures forall i | 0 <= i < |w.owners| && i != writer :: SharedHeld(Exec(w, es), i) <= SharedHeld(w, i)
    ensures (forall i | 0 <= i < |w.owners| && i != writer :: SharedHeld(w, i) == {})
            ==> Grants(Exec(w, es), writer, RequestAt(TakeMain(EXCLUSIVE_LOCK)))
    decreases |es|
  {
    if es != [] {
      var w1 := Step(w, es[0]);
      StepKeepsInv(w, es[0]);
      PendingGatesReaders(w1, es[1..], writer);
      forall i | 0 <= i < |w.owners| && i != writer
        ensures SharedHeld(w1, i) <= SharedHeld(w, i)
      {
        GateStep(w, es[0], writer, i);
      }
    }
    var last := Exec(w, es);
    if forall i | 0 <= i < |w.owners| && i != writer :: SharedHeld(last, i) == {} {
      forall i | 0 <= i < |last.owners| && i != writer
        ensures Compatible(last.owners[i].locks, Span(Write, SHARED_FIRST, SHARED_SIZE))
      {
        forall b | b in last.owners[i].locks ensures b !in Span(Write, SHARED_FIRST, SHARED_SIZE) {
          assert b !in SharedHeld(last, i);
        }
      }
    }
  }

  // ---------- Exact release ----------

  /** A handle none of whose calls failed holds, at every return, exactly the bytes of its level. */
  lemma ExactHoldings(n: nat, es: seq<Event>, i: nat)
    requires IsRun(Init(n), es) && i < n
    requires var h := Exec(Init(n), es).handles[i]; h.clean && h.pc.Idle?
    ensures var w := Exec(Init(n), es);
            var h, locks := w.handles[i], w.owners[i].locks;
            && (forall b: nat :: At(locks, b) == LevelAt(h.level, h.viaReserved, b))
            && (h.level == NO_LOCK ==> locks == map[])
  {
    ReachableInv(n, es);
    var w := Exec(Init(n), es);
    var h, locks := w.handles[i], w.owners[i].locks;
    assert HandleInv(h, w.owners[i]);
    forall b: nat ensures h.level == NO_LOCK ==> b !in locks {
      assert At(locks, b) == LevelAt(h.level, h.viaReserved, b);
    }
  }

  /** The unlock to NO_LOCK releases everything exactly when it started above SHARED, or when
      neither PENDING nor RESERVED was left over from a failed acquisition. */
  lemma ReleasesAllIff(w: World, i: nat)
    requires Inv(w) && i < |w.handles| && w.handles[i].pc.DropShared?
    ensures Enabled(w, Reply(i, Done))
    ensures var locks := w.owners[i].locks;
            var w' := Step(w, Reply(i, Done));
            && w'.handles[i].level == NO_LOCK
            && (w'.owners[i].locks == map[]
                <==> w.handles[i].level > SHARED_LOCK || (PENDING_BYTE !in locks && RESERVED_BYTE !in locks))
  {
    var locks := w.owners[i].locks;
    var left := Step(w, Reply(i, Done)).owners[i].locks;
    assert HandleInv(w.handles[i], w.owners[i]);
    assert forall b :: b in left <==> b in locks && !Within(b, SHARED_FIRST, SHARED_SIZE);
    assert forall b | b in left :: b == PENDING_BYTE || b == RESERVED_BYTE;
    if PENDING_BYTE in locks {
      assert PENDING_BYTE in left;
    }
    if RESERVED_BYTE in locks {
      assert RESERVED_BYTE in left;
    }
    if PENDING_BYTE !in locks && RESERVED_BYTE !in locks {
      assert left.Keys == {};
    }
  }

  // ---------- Lock stateids ----------

  /** latest_sid is the server's current stateid exactly when the last effect was answered,
      and no LOCKU ever carries the open stateid. */
  lemma StateidAgreement(n: nat, es: seq<Event>, i: nat)
    requires IsRun(Init(n), es) && i < n
    ensures var w := Exec(Init(n), es);
            var h := w.handles[i];
            && (h.latest == CurrentSid(w.owners[i]) <==> !h.stale)
            && (!h.pc.Idle? && RequestAt(h.pc).UnlockRange? ==> h.latest != OpenSid)
  {
    ReachableInv(n, es);
    assert HandleInv(Exec(Init(n), es).handles[i], Exec(Init(n), es).owners[i]);
  }

  // How one event changes the marks of a handle.
  lemma HistoryMarks(w: World, e: Event, i: nat)
    requires Sized(w) && Enabled(w, e) && i < |w.handles|
    ensures var h, h' := w.handles[i], Step(w, e).handles[i];
            var failed := e == Reply(i, Lost) || e == Reply(i, Refused);
            && h'.stale == (if e == Reply(i, Lost) then true else if e == Reply(i, Done) then false else h.stale)
            && h'.clean == (h.clean && !failed)
            && h'.trusted == (if failed && Unlocking(h.pc) then false
                              else h.trusted || (e == Reply(i, Done) && Unlocking(h.pc) && h'.pc.Idle?))
  {
    if e.who == i && e.Reply? && e.outcome == Done {
      var o := Apply(w.owners[i], RequestAt(w.handles[i].pc));
      assert Step(w, e).handles[i] == Succeed(w.handles[i], CurrentSid(o));
    }
  }

  /** The byte range of every remote call, in numbers: SQLite's PENDING byte, RESERVED byte and SHARED range. */
  lemma RequestsInNumbers()
    ensures RequestAt(TakePending(1)) == LockRange(Read, 0x4000_0000, 1)
    ensures RequestAt(TakePending(4)) == LockRange(Write, 0x4000_0000, 1)
    ensures RequestAt(TakeMain(1)) == LockRange(Read, 0x4000_0002, 510)
    ensures RequestAt(TakeMain(2)) == LockRange(Write, 0x4000_0001, 1)
    ensures RequestAt(TakeMain(4)) == LockRange(Write, 0x4000_0002, 510)
    ensures RequestAt(DropPending) == UnlockRange(0x4000_0000, 1)
    ensures RequestAt(Downgrade) == LockRange(Read, 0x4000_0002, 510)
    ensures RequestAt(DropPair(0)) == RequestAt(DropPair(1)) == UnlockRange(0x4000_0000, 2)
    ensures RequestAt(Pc.DropShared) == UnlockRange(0x4000_0002, 510)
  {
  }

  /** What a call does to the table of the server, byte by byte. */
  lemma EffectAt(o: Owner, req: Request, b: nat)
    ensures var first, last := req.first, req.first + req.count;
      if first <= b < last then At(Apply(o, req).locks, b) == (if req.LockRange? then Held(req.kind) else Free)
      else At(Apply(o, req).locks, b) == At(o.locks, b)
  {
  }

  // ---------- What the marks say of a run ----------

  lemma {:induction false} RunFront(w: World, es: seq<Event>, e: Event)
    requires Sized(w) && IsRun(w, es + [e])
    ensures IsRun(w, es) && Enabled(Exec(w, es), e) && Exec(w, es + [e]) == Step(Exec(w, es), e)
    decreases |es|
  {
    hide Enabled, Step;
    if es == [] {
      assert es + [e] == [e] && [e][1..] == [];
    } else {
      assert (es + [e])[0] == es[0] && (es + [e])[1..] == es[1..] + [e];
      RunFront(Step(w, es[0]), es[1..], e);
    }
  }

  predicate Failing(e: Event, i: nat) {
    e == Reply(i, Lost) || e == Reply(i, Refused)
  }

  // Where handle `i` stands before event `k` of a run.
  function PcBefore(n: nat, es: seq<Event>, k: nat, i: nat): Pc {
    if k <= |es| && IsRun(Init(n), es[..k]) && i < n then Exec(Init(n), es[..k]).handles[i].pc else Idle
  }

  predicate UnlockFails(n: nat, es: seq<Event>, k: nat, i: nat) {
    k < |es| && Failing(es[k], i) && Unlocking(PcBefore(n, es, k, i))
  }

  predicate UnlockEnds(n: nat, es: seq<Event>, k: nat, i: nat) {
    k < |es| && es[k] == Reply(i, Done) && Unlocking(PcBefore(n, es, k, i)) && PcBefore(n, es, k + 1, i) == Idle
  }

  // The last effect of a call of `i` was one whose reply was lost.
  ghost predicate LastEffectLost(es: seq<Event>, i: nat) {
    exists k | 0 <= k < |es| :: es[k] == Reply(i, Lost) && forall j | k < j < |es| :: es[j] != Reply(i, Done)
  }

  // Some nfs4Unlock of `i` failed, and none has run to its end since.
  ghost predicate UnlockOpen(n: nat, es: seq<Event>, i: nat) {
    exists k: nat | k < |es| ::
      UnlockFails(n, es, k, i) && forall j: nat | k < j < |es| :: !UnlockEnds(n, es, j, i)
  }

  /** The history marks tell the history of every run: a handle is clean if and only if none of its calls has failed,
      its stateid is stale if and only if the last of its calls to take effect was one whose reply was lost, and it is
      trusted if and only if since its last nfs4Unlock that failed another has run to its end. */
  lemma {:induction false} MarksTellHistory(n: nat, es: seq<Event>, i: nat)
    requires IsRun(Init(n), es) && i < n
    ensures var h := Exec(Init(n), es).handles[i];
            && (h.clean <==> forall k | 0 <= k < |es| :: !Failing(es[k], i))
            && (h.stale <==> LastEffectLost(es, i))
            && (h.trusted <==> !UnlockOpen(n, es, i))
    decreases |es|
  {
    if es != [] {
      var front, e := es[..|es| - 1], es[|es| - 1];
      assert es == front + [e];
      RunFront(Init(n), front, e);
      MarksTellHistory(n, front, i);
      HistoryMarks(Exec(Init(n), front), e, i);
      CleanGrows(front, e, i);
      LostGrows(front, e, i);
      OpenGrows(n, front, e, i);
    }
  }

  lemma CleanGrows(front: seq<Event>, e: Event, i: nat)
    ensures (forall k | 0 <= k < |front + [e]| :: !Failing((front + [e])[k], i))
            <==> (forall k | 0 <= k < |front| :: !Failing(front[k], i)) && !Failing(e, i)
  {
    var es := front + [e];
    assert es[|front|] == e;
    assert forall k | 0 <= k < |front| :: es[k] == front[k];
  }

  lemma LostGrows(front: seq<Event>, e: Event, i: nat)
    ensures LastEffectLost(front + [e], i)
            <==> e == Reply(i, Lost) || (e != Reply(i, Done) && LastEffectLost(front, i))
  {
    var es := front + [e];
    assert es[|front|] == e;
    assert forall k | 0 <= k < |front| :: es[k] == front[k];
    if e != Reply(i, Done) && LastEffectLost(front, i) {
      var k :| 0 <= k < |front| && front[k] == Reply(i, Lost)
          && forall j | k < j < |front| :: front[j] != Reply(i, Done);
      assert es[k] == Reply(i, Lost);
    }
  }

  // What an event means for an unlock depends only on the run before it.
  lemma SameBefore(n: nat, front: seq<Event>, e: Event, i: nat, k: nat)
    requires k < |front|
    ensures UnlockFails(n, front + [e], k, i) == UnlockFails(n, front, k, i)
    ensures UnlockEnds(n, front + [e], k, i) == UnlockEnds(n, front, k, i)
  {
    var es := front + [e];
    assert es[..k] == front[..k] && es[..k + 1] == front[..k + 1] && es[k] == front[k];
  }

  lemma LastEvent(n: nat, front: seq<Event>, e: Event, i: nat)
    requires IsRun(Init(n), front + [e]) && IsRun(Init(n), front) && i < n
    ensures var pc, pc' := Exec(Init(n), front).handles[i].pc, Exec(Init(n), front + [e]).handles[i].pc;
      && UnlockFails(n, front + [e], |front|, i) == (Failing(e, i) && Unlocking(pc))
      && UnlockEnds(n, front + [e], |front|, i) == (e == Reply(i, Done) && Unlocking(pc) && pc' == Idle)
  {
    var es := front + [e];
    assert es[..|front|] == front && es[..|front| + 1] == es && es[|front|] == e;
  }

  lemma OpenGrows(n: nat, front: seq<Event>, e: Event, i: nat)
    requires IsRun(Init(n), front + [e]) && IsRun(Init(n), front) && i < n
    ensures var v, w := Exec(Init(n), front), Exec(Init(n), front + [e]);
      UnlockOpen(n, front + [e], i)
      <==> (Failing(e, i) && Unlocking(v.handles[i].pc))
           || (UnlockOpen(n, front, i)
               && !(e == Reply(i, Done) && Unlocking(v.handles[i].pc) && w.handles[i].pc == Idle))
  {
    LastEvent(n, front, e, i);
    forall k: nat | k < |front|
      ensures UnlockFails(n, front + [e], k, i) == UnlockFails(n, front, k, i)
      ensures UnlockEnds(n, front + [e], k, i) == UnlockEnds(n, front, k, i)
    {
      SameBefore(n, front, e, i, k);
    }
    hide UnlockFails, UnlockEnds, IsRun, Exec;
    var es := front + [e];
    if UnlockOpen(n, front, i) {
      var k: nat :| k < |front| && UnlockFails(n, front, k, i)
          && forall j: nat | k < j < |front| :: !UnlockEnds(n, front, j, i);
      assert UnlockFails(n, es, k, i);
    }
    if UnlockOpen(n, es, i) {
      var k: nat :| k < |es| && UnlockFails(n, es, k, i) && forall j: nat | k < j < |es| :: !UnlockEnds(n, es, j, i);
      if k < |front| {
        assert UnlockFails(n, front, k, i) && !UnlockEnds(n, es, |front|, i);
        assert forall j: nat | k < j < |front| :: !UnlockEnds(n, front, j, i);
      }
    }
  }

  // ---------- Where the guarantees stop ----------

  lemma {:induction false} RunSnoc(w: World, es: seq<Event>, e: Event)
    requires Sized(w) && IsRun(w, es) && Enabled(Exec(w, es), e)
    ensures IsRun(w, es + [e]) && Exec(w, es + [e]) == Step(Exec(w, es), e)
    decreases |es|
  {
    if es == [] {
      assert es + [e] == [e];
      assert [e][1..] == [];
    } else {
      assert (es + [e])[1..] == es[1..] + [e];
      RunSnoc(Step(w, es[0]), es[1..], e);
    }
  }

  lemma {:induction false} RunAppend(w: World, es: seq<Event>, fs: seq<Event>)
    requires Sized(w) && IsRun(w, es) && IsRun(Exec(w, es), fs)
    ensures IsRun(w, es + fs) && Exec(w, es + fs) == Exec(Exec(w, es), fs)
    decreases |es|
  {
    if es == [] {
      assert es + fs == fs;
    } else {
      assert (es + fs)[1..] == es[1..] + fs;
      RunAppend(Step(w, es[0]), es[1..], fs);
    }
  }

  ghost predicate LeadsTo(v: World, e: Event, w: World) {
    Sized(v) && Enabled(v, e) && Step(v, e) == w
  }

  // `w` is what the events `es` make of two freshly opened handles.
  ghost predicate Reached(es: seq<Event>, w: World) {
    IsRun(Init(2), es) && Exec(Init(2), es) == w
  }

  lemma Then(es: seq<Event>, v: World, e: Event, w: World) returns (es': seq<Event>)
    requires Reached(es, v) && LeadsTo(v, e, w)
    ensures Reached(es', w)
  {
    RunSnoc(Init(2), es, e);
    es' := es + [e];
  }

  ghost predicate Pair(w: World) {
    |w.handles| == |w.owners| == 2
  }

  ghost predicate SameRival(v: World, w: World, i: nat)
    requires Pair(v) && i < 2
  {
    Pair(w) && w.handles[1 - i] == v.handles[1 - i] && w.owners[1 - i] == v.owners[1 - i]
  }

  // A client whose rival holds no byte, or only reads the SHARED range.
  ghost predicate Unhindered(w: World, i: nat) {
    && Pair(w) && i < 2
    && (w.owners[1 - i].locks == map[] || w.owners[1 - i].locks == Span(Read, SHARED_FIRST, SHARED_SIZE))
  }

  lemma PendingReadSteps(w: World, i: nat) returns (w1: World, w2: World)
    requires Unhindered(w, i) && w.handles[i].pc.Idle? && w.handles[i].level == NO_LOCK && w.owners[i].locks == map[]
    ensures LeadsTo(w, CallLock(i, SHARED_LOCK), w1) && LeadsTo(w1, Reply(i, Done), w2) && SameRival(w, w2, i)
    ensures w2.handles[i].pc == TakeMain(SHARED_LOCK) && w2.owners[i].locks == Span(Read, PENDING_BYTE, 1)
    ensures w2.handles[i].level == NO_LOCK
    ensures w2.handles[i].trusted == w.handles[i].trusted && w2.handles[i].clean == w.handles[i].clean
  {
    w1 := Step(w, CallLock(i, SHARED_LOCK));
    w2 := Step(w1, Reply(i, Done));
    assert map[] + Span(Read, PENDING_BYTE, 1) == Span(Read, PENDING_BYTE, 1);
  }

  lemma SharedReadSteps(w: World, i: nat) returns (w1: World, w2: World)
    requires Unhindered(w, i) && w.handles[i].pc == TakeMain(SHARED_LOCK)
             && w.owners[i].locks == Span(Read, PENDING_BYTE, 1)
    ensures LeadsTo(w, Reply(i, Done), w1) && LeadsTo(w1, Reply(i, Done), w2) && SameRival(w, w2, i)
    ensures w2.handles[i].level == SHARED_LOCK && w2.handles[i].pc.Idle?
    ensures w2.handles[i].trusted == w.handles[i].trusted && w2.handles[i].clean == w.handles[i].clean
    ensures w2.owners[i].locks == Span(Read, SHARED_FIRST, SHARED_SIZE)
  {
    w1 := Step(w, Reply(i, Done));
    w2 := Step(w1, Reply(i, Done));
  }

  // It reaches SHARED.
  lemma SharedSteps(w: World, i: nat) returns (w1: World, w2: World, w3: World, w4: World)
    requires Unhindered(w, i) && w.handles[i].pc.Idle? && w.handles[i].level == NO_LOCK && w.owners[i].locks == map[]
    ensures LeadsTo(w, CallLock(i, SHARED_LOCK), w1)
    ensures LeadsTo(w1, Reply(i, Done), w2) && LeadsTo(w2, Reply(i, Done), w3) && LeadsTo(w3, Reply(i, Done), w4)
    ensures SameRival(w, w4, i)
    ensures w4.handles[i].level == SHARED_LOCK && w4.handles[i].pc.Idle?
    ensures w4.handles[i].trusted == w.handles[i].trusted && w4.handles[i].clean == w.handles[i].clean
    ensures w4.owners[i].locks == Span(Read, SHARED_FIRST, SHARED_SIZE)
  {
    hide LeadsTo, Span;
    w1, w2 := PendingReadSteps(w, i);
    w3, w4 := SharedReadSteps(w2, i);
  }

  lemma ClimbShared(es: seq<Event>, w: World, i: nat) returns (es': seq<Event>, w': World)
    requires Reached(es, w) && Pair(w) && i < 2
    requires w.handles[i].pc.Idle? && w.handles[i].level == NO_LOCK && w.owners[i].locks == map[]
    requires w.owners[1 - i].locks == map[] || w.owners[1 - i].locks == Span(Read, SHARED_FIRST, SHARED_SIZE)
    ensures Reached(es', w') && SameRival(w, w', i)
    ensures w'.handles[i].level == SHARED_LOCK && w'.handles[i].pc.Idle?
    ensures w'.handles[i].trusted == w.handles[i].trusted && w'.handles[i].clean == w.handles[i].clean
    ensures w'.owners[i].locks == Span(Read, SHARED_FIRST, SHARED_SIZE)
  {
    var w1, w2, w3, w4 := SharedSteps(w, i);
    es' := Then(es, w, CallLock(i, SHARED_LOCK), w1);
    es' := Then(es', w1, Reply(i, Done), w2);
    es' := Then(es', w2, Reply(i, Done), w3);
    es' := Then(es', w3, Reply(i, Done), w4);
    w' := w4;
  }

  // A client at SHARED asks for EXCLUSIVE and gets PENDING.
  lemma PendingSteps(w: World, i: nat) returns (w1: World, w2: World)
    requires Pair(w) && i < 2 && PENDING_BYTE !in w.owners[1 - i].locks
    requires w.handles[i].pc.Idle? && w.handles[i].level == SHARED_LOCK
    ensures LeadsTo(w, CallLock(i, EXCLUSIVE_LOCK), w1) && LeadsTo(w1, Reply(i, Done), w2)
    ensures SameRival(w, w2, i)
    ensures w2.handles[i].pc == TakeMain(EXCLUSIVE_LOCK) && w2.handles[i].level == SHARED_LOCK
    ensures w2.handles[i].trusted == w.handles[i].trusted && w2.handles[i].clean == w.handles[i].clean
    ensures HoldsPending(w2, i)
  {
    w1 := Step(w, CallLock(i, EXCLUSIVE_LOCK));
    w2 := Step(w1, Reply(i, Done));
  }

  lemma ClimbPending(es: seq<Event>, w: World, i: nat) returns (es': seq<Event>, w': World)
    requires Reached(es, w) && Pair(w) && i < 2 && PENDING_BYTE !in w.owners[1 - i].locks
    requires w.handles[i].pc.Idle? && w.handles[i].level == SHARED_LOCK
    ensures Reached(es', w') && SameRival(w, w', i)
    ensures w'.handles[i].pc == TakeMain(EXCLUSIVE_LOCK) && w'.handles[i].level == SHARED_LOCK
    ensures w'.handles[i].trusted == w.handles[i].trusted && w'.handles[i].clean == w.handles[i].clean
    ensures HoldsPending(w', i)
  {
    var w1, w2 := PendingSteps(w, i);
    es' := Then(es, w, CallLock(i, EXCLUSIVE_LOCK), w1);
    es' := Then(es', w1, Reply(i, Done), w2);
    w' := w2;
  }

  // With no rival holding a byte, it then reaches EXCLUSIVE.
  lemma ExclusiveStep(w: World, i: nat) returns (w1: World)
    requires Pair(w) && i < 2 && w.handles[i].pc == TakeMain(EXCLUSIVE_LOCK) && w.owners[1 - i].locks == map[]
    ensures LeadsTo(w, Reply(i, Done), w1) && SameRival(w, w1, i)
    ensures w1.handles[i].level == EXCLUSIVE_LOCK && w1.handles[i].pc.Idle?
            && w1.handles[i].trusted == w.handles[i].trusted
  {
    w1 := Step(w, Reply(i, Done));
  }

  lemma ClimbExclusive(es: seq<Event>, w: World, i: nat) returns (es': seq<Event>, w': World)
    requires Reached(es, w) && Pair(w) && i < 2 && w.owners[1 - i].locks == map[]
    requires w.handles[i].pc.Idle? && w.handles[i].level == SHARED_LOCK
    ensures Reached(es', w') && SameRival(w, w', i)
    ensures w'.handles[i].level == EXCLUSIVE_LOCK && w'.handles[i].pc.Idle?
            && w'.handles[i].trusted == w.handles[i].trusted
  {
    var v;
    es', v := ClimbPending(es, w, i);
    w' := ExclusiveStep(v, i);
    es' := Then(es', v, Reply(i, Done), w');
  }

  // Client 0 at EXCLUSIVE releases PENDING and RESERVED, then loses the reply to its last LOCKU.
  lemma LoseSteps(w: World) returns (w1: World, w2: World, w3: World)
    requires Pair(w) && w.handles[0].pc.Idle? && w.handles[0].level == EXCLUSIVE_LOCK
    ensures LeadsTo(w, CallUnlock(0, NO_LOCK), w1) && LeadsTo(w1, Reply(0, Done), w2) && LeadsTo(w2, Reply(0, Lost), w3)
    ensures SameRival(w, w3, 0) && w2.handles[0].pc.DropShared? && w2.handles[0].level == EXCLUSIVE_LOCK
    ensures w3.handles[0].pc.Idle? && w3.handles[0].level == EXCLUSIVE_LOCK && !w3.handles[0].trusted
    ensures w3.owners == Step(w2, Reply(0, Done)).owners
  {
    w1 := Step(w, CallUnlock(0, NO_LOCK));
    w2 := Step(w1, Reply(0, Done));
    w3 := Step(w2, Reply(0, Lost));
  }

  lemma LoseUnlock() returns (es: seq<Event>, w: World)
    ensures Reached(es, w) && Pair(w)
    ensures w.handles[1] == OPENED && w.owners[1] == Owner(map[], 0)
    ensures w.handles[0].pc.Idle? && w.handles[0].level == EXCLUSIVE_LOCK && !w.handles[0].trusted
    ensures w.owners[0].locks == map[]
  {
    var v := Init(2);
    es, v := ClimbShared([], v, 0);
    es, v := ClimbExclusive(es, v, 0);
    var w1, w2;
    w1, w2, w := LoseSteps(v);
    es := Then(es, v, CallUnlock(0, NO_LOCK), w1);
    es := Then(es, w1, Reply(0, Done), w2);
    ReachableInv(2, es);
    ReleasesAllIff(w2, 0);
    es := Then(es, w2, Reply(0, Lost), w);
  }

  /** Trust is needed: after an unlock whose last reply is lost, two handles are idle at EXCLUSIVE. */
  lemma MutualExclusionNeedsTrust() returns (es: seq<Event>)
    ensures IsRun(Init(2), es)
    ensures var w := Exec(Init(2), es);
            && w.handles[0].pc.Idle? && w.handles[0].level == EXCLUSIVE_LOCK && !w.handles[0].trusted
            && IdleTrusted(w, 1) && w.handles[1].level == EXCLUSIVE_LOCK
  {
    var w;
    es, w := LoseUnlock();
    es, w := ClimbShared(es, w, 1);
    es, w := ClimbExclusive(es, w, 1);
  }

  /** The gate needs trust as well: a downgrade by an untrusted handle adds readers past a held PENDING lock. */
  lemma GateNeedsTrust() returns (es: seq<Event>, e: Event)
    ensures IsRun(Init(2), es) && Enabled(Exec(Init(2), es), e)
    ensures var w := Exec(Init(2), es);
            && HoldsPending(w, 1) && w.handles[1].trusted
            && SharedHeld(w, 0) == {} && SHARED_FIRST in SharedHeld(Step(w, e), 0)
  {
    var w;
    es, w := LoseUnlock();
    es, w := ClimbShared(es, w, 1);
    var w1 := DowngradeCall(w);
    es := Then(es, w, CallUnlock(0, SHARED_LOCK), w1);
    es, w := ClimbPending(es, w1, 1);
    ReachableInv(2, es);
    DowngradeGains(w);
    e := Reply(0, Done);
  }

  lemma DowngradeCall(w: World) returns (w1: World)
    requires Pair(w) && w.handles[0].pc.Idle? && w.handles[0].level == EXCLUSIVE_LOCK
    ensures LeadsTo(w, CallUnlock(0, SHARED_LOCK), w1) && SameRival(w, w1, 0)
    ensures w1.handles[0] == w.handles[0].(pc := Downgrade) && w1.owners == w.owners
  {
    w1 := Step(w, CallUnlock(0, SHARED_LOCK));
  }

  // The rival waits at PENDING but still only reads the SHARED range, so the downgrade is granted.
  lemma DowngradeGains(w: World)
    requires Inv(w) && Pair(w) && w.handles[0].pc.Downgrade? && w.owners[0].locks == map[]
    requires w.handles[1].pc == TakeMain(EXCLUSIVE_LOCK) && w.handles[1].level == SHARED_LOCK && w.handles[1].clean
    ensures Enabled(w, Reply(0, Done)) && SharedHeld(w, 0) == {}
            && SHARED_FIRST in SharedHeld(Step(w, Reply(0, Done)), 0)
  {
    assert HandleInv(w.handles[1], w.owners[1]);
    forall b | b in w.owners[1].locks && Within(b, SHARED_FIRST, SHARED_SIZE) ensures w.owners[1].locks[b] == Read {
      assert At(w.owners[1].locks, b) == CleanAt(w.handles[1], b);
    }
    assert Compatible(w.owners[1].locks, Span(Read, SHARED_FIRST, SHARED_SIZE));
    assert SHARED_FIRST in Apply(w.owners[0], RequestAt(w.handles[0].pc)).locks;
  }

  /** A refused EXCLUSIVE request from SHARED leaks PENDING: the handle unlocks to NO_LOCK, still trusted,
      with PENDING held for writing. */
  lemma RefusedExclusiveLeaksPending() returns (es: seq<Event>)
    ensures IsRun(Init(2), es)
    ensures var w := Exec(Init(2), es);
            IdleTrusted(w, 0) && w.handles[0].level == NO_LOCK && HoldsPending(w, 0)
  {
    var w := Init(2);
    es, w := ClimbShared([], w, 0);
    es, w := ClimbShared(es, w, 1);
    es, w := ClimbPending(es, w, 0);
    var w1, w2, w3 := LeakSteps(w);
    es := Then(es, w, Reply(0, Refused), w1);
    es := Then(es, w1, CallUnlock(0, NO_LOCK), w2);
    es := Then(es, w2, Reply(0, Done), w3);
  }

  lemma LeakSteps(w: World) returns (w1: World, w2: World, w3: World)
    requires Pair(w) && w.handles[0].pc == TakeMain(EXCLUSIVE_LOCK) && w.handles[0].level == SHARED_LOCK
    requires w.handles[0].trusted && HoldsPending(w, 0)
    ensures LeadsTo(w, Reply(0, Refused), w1) && LeadsTo(w1, CallUnlock(0, NO_LOCK), w2)
            && LeadsTo(w2, Reply(0, Done), w3)
    ensures IdleTrusted(w3, 0) && w3.handles[0].level == NO_LOCK && HoldsPending(w3, 0)
  {
    w1 := Step(w, Reply(0, Refused));
    w2 := Step(w1, CallUnlock(0, NO_LOCK));
    w3 := Step(w2, Reply(0, Done));
  }

  /** While a handle holds PENDING for writing, whatever its level, no other client can begin to lock. */
  lemma HeldPendingBlocksNewReaders(w: World, i: nat, j: nat)
    requires Inv(w) && HoldsPending(w, i) && j < |w.owners| && i != j
    requires w.handles[j].pc == TakePending(SHARED_LOCK) || w.handles[j].pc == TakePending(EXCLUSIVE_LOCK)
    ensures !Enabled(w, Reply(j, Done)) && !Enabled(w, Reply(j, Lost))
  {
    assert PENDING_BYTE in w.owners[i].locks && w.owners[i].locks[PENDING_BYTE] == Write;
    assert PENDING_BYTE in Span(Read, PENDING_BYTE, 1) && PENDING_BYTE in Span(Write, PENDING_BYTE, 1);
  }
}
