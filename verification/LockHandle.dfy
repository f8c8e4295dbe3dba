/** nfs4Lock and nfs4Unlock as they are written: straight-line code over lock_range and unlock_range
    that returns at the first error.  Between the remote calls every other client may take any steps.
    Each method is proved to be a run of the step machine of LockProtocol, so that the theorems about
    runs hold of the code. */
module LockHandle {
  import opened LockProtocol
  import opened LockSafety

  /** The events of one client in a run. */
  function Mine(es: seq<Event>, me: nat): seq<Event> {
    if es == [] then []
    else (if es[0].who == me then [es[0]] else []) + Mine(es[1..], me)
  }

  lemma {:induction false} MineSnoc(es: seq<Event>, e: Event, me: nat)
    ensures Mine(es + [e], me) == Mine(es, me) + (if e.who == me then [e] else [])
  {
    if es == [] {
      assert es + [e] == [e] && [e][1..] == [];
    } else {
      var first := if es[0].who == me then [es[0]] else [];
      var last := if e.who == me then [e] else [];
      assert (es + [e])[1..] == es[1..] + [e];
      MineSnoc(es[1..], e, me);
      assert first + (Mine(es[1..], me) + last) == (first + Mine(es[1..], me)) + last;
    }
  }

  /** The events of one client after it entered operation `e` and made `k` successful remote calls. */
  function Progress(e: Event, before: seq<Event>, k: nat): seq<Event> {
    before + [e] + seq(k, _ => Reply(e.who, Done))
  }

  /** `after` extends `before` by one whole operation: all its remote calls succeeded, or it stopped at the first
      error. */
  ghost predicate OneCall(e: Event, before: seq<Event>, after: seq<Event>, trips: nat, ok: bool) {
    if ok then after == Progress(e, before, trips)
    else exists k: nat, o :: k < trips && o != Done && after == Progress(e, before, k) + [Reply(e.who, o)]
  }

  lemma NothingSoFar(e: Event, before: seq<Event>)
    ensures before + [e] == Progress(e, before, 0)
  {
  }

  lemma EndedOk(e: Event, before: seq<Event>, after: seq<Event>, trips: nat)
    requires after == Progress(e, before, trips)
    ensures OneCall(e, before, after, trips, true)
  {
  }

  lemma EndedEarly(e: Event, before: seq<Event>, after: seq<Event>, k: nat, trips: nat)
    requires k < trips && exists o :: o != Done && after == Progress(e, before, k) + [Reply(e.who, o)]
    ensures OneCall(e, before, after, trips, false)
  {
  }

  /** Remote calls nfs4Lock makes when none fails. */
  function LockTrips(current: Level, level: Level): nat {
    if current >= level then 0
    else if level == SHARED_LOCK then 3
    else if level == RESERVED_LOCK || current == PENDING_LOCK then 1 else 2
  }

  function UnlockTrips(current: Level, level: Level): nat {
    if current <= level then 0 else if current > SHARED_LOCK then 2 else 1
  }

  /** The bytes held after a successful nfs4Lock. */
  function Obtained(locks: ByteLocks, current: Level, level: Level): ByteLocks {
    if current >= level then locks
    else if level == SHARED_LOCK then MainObtained(locks + Span(Read, PENDING_BYTE, 1), level)
    else if level == EXCLUSIVE_LOCK && current < PENDING_LOCK then
      MainObtained(locks + Span(Write, PENDING_BYTE, 1), level)
    else MainObtained(locks, level)
  }

  function MainObtained(locks: ByteLocks, level: Level): ByteLocks {
    if level == SHARED_LOCK then locks + Span(Read, SHARED_FIRST, SHARED_SIZE) - Bytes(PENDING_BYTE, 1)
    else if level == RESERVED_LOCK then locks + Span(Write, RESERVED_BYTE, 1)
    else locks + Span(Write, SHARED_FIRST, SHARED_SIZE)
  }

  /** The bytes held after a successful nfs4Unlock. */
  function Released(locks: ByteLocks, current: Level, level: Level): ByteLocks {
    if current <= level then locks
    else if level == SHARED_LOCK then locks + Span(Read, SHARED_FIRST, SHARED_SIZE) - Bytes(PENDING_BYTE, 2)
    else if current > SHARED_LOCK then locks - Bytes(PENDING_BYTE, 2) - Bytes(SHARED_FIRST, SHARED_SIZE)
    else locks - Bytes(SHARED_FIRST, SHARED_SIZE)
  }

  /** An unlock to NO_LOCK leaves nothing exactly when it started above SHARED, or when no failed
      acquisition had left PENDING or RESERVED behind. */
  lemma NothingLeft(locks: ByteLocks, current: Level)
    requires current != NO_LOCK
    requires forall b | b in locks :: PENDING_BYTE <= b < SHARED_FIRST + SHARED_SIZE
    ensures Released(locks, current, NO_LOCK) == map[]
            <==> current > SHARED_LOCK || (PENDING_BYTE !in locks && RESERVED_BYTE !in locks)
  {
    var left := Released(locks, current, NO_LOCK);
    if current > SHARED_LOCK || (PENDING_BYTE !in locks && RESERVED_BYTE !in locks) {
      forall b: nat ensures b !in left {
        assert b in left ==> b in locks && !Within(b, SHARED_FIRST, SHARED_SIZE);
      }
    } else if PENDING_BYTE in locks {
      assert PENDING_BYTE in left;
    } else {
      assert RESERVED_BYTE in left;
    }
  }

  lemma {:induction false} TraceIsRun(es: seq<Event>, trace: seq<World>)
    requires |trace| == |es| + 1 && Sized(trace[0])
    requires forall k | 0 <= k < |es| :: LeadsTo(trace[k], es[k], trace[k + 1])
    ensures IsRun(trace[0], es) && Exec(trace[0], es) == trace[|es|]
  {
    if es != [] {
      assert LeadsTo(trace[0], es[0], trace[1]);
      forall k | 0 <= k < |es[1..]| ensures LeadsTo(trace[1..][k], es[1..][k], trace[1..][k + 1]) {
        assert LeadsTo(trace[k + 1], es[k + 1], trace[k + 2]);
      }
      TraceIsRun(es[1..], trace[1..]);
    }
  }

  /** The server together with all its clients, and the history of what happened. */
  class Site {
    const clients: nat
    var world: World
    ghost var log: seq<Event>
    ghost var trace: seq<World>  // the worlds between the events of `log`

    ghost predicate Valid()
      reads this
    {
      && Sized(world) && |world.handles| == clients
      && |trace| == |log| + 1 && trace[0] == Init(clients) && trace[|log|] == world
      && forall k | 0 <= k < |log| :: LeadsTo(trace[k], log[k], trace[k + 1])
    }

    /** The history is a run from freshly opened handles to the present world. */
    lemma History()
      requires Valid()
      ensures IsRun(Init(clients), log) && Exec(Init(clients), log) == world
    {
      TraceIsRun(log, trace);
    }

    constructor (clients: nat)
      ensures Valid() && log == [] && this.clients == clients
    {
      this.clients := clients;
      world := Init(clients);
      log := [];
      trace := [Init(clients)];
    }

    method Advance(e: Event)
      requires Valid() && Enabled(world, e)
      modifies this
      ensures Valid() && world == Step(old(world), e) && log == old(log) + [e]
      ensures forall i: nat :: Mine(log, i) == old(Mine(log, i)) + (if e.who == i then [e] else [])
    {
      forall i: nat {
        MineSnoc(log, e, i);
      }
      assert LeadsTo(world, e, Step(world, e));
      world := Step(world, e);
      log := log + [e];
      trace := trace + [world];
    }

    /** Any run of the other clients. */
    method Interfere(me: nat)
      requires Valid() && me < clients
      modifies this
      ensures Valid()
      ensures world.handles[me] == old(world).handles[me] && world.owners[me] == old(world).owners[me]
      ensures Mine(log, me) == old(Mine(log, me))
    {
      var es: seq<Event> := *;
      for i := 0 to |es|
        invariant Valid()
        invariant world.handles[me] == old(world).handles[me] && world.owners[me] == old(world).owners[me]
        invariant Mine(log, me) == old(Mine(log, me))
      {
        if es[i].who != me && Enabled(world, es[i]) {
          Advance(es[i]);
        }
      }
    }

    /** One remote call of `me`, whichever way it ends. */
    method Transact(me: nat, ghost req: Request) returns (ok: bool, sid: Sid)
      requires Valid() && me < clients && !world.handles[me].pc.Idle? && RequestAt(world.handles[me].pc) == req
      modifies this
      ensures Valid()
      ensures exists outcome ::
                && (ok <==> outcome == Done)
                && Mine(log, me) == old(Mine(log, me)) + [Reply(me, outcome)]
      ensures var o := old(world).owners[me];
              && (ok ==> && world.owners[me] == Apply(o, req) && sid == CurrentSid(Apply(o, req))
                         && world.handles[me] == Succeed(old(world).handles[me], sid))
              && (!ok ==> && (world.owners[me] == o || world.owners[me] == Apply(o, req))
                          && world.handles[me] == Fail(old(world).handles[me], world.owners[me] != o))
    {
      Interfere(me);
      var outcome: Outcome := *;
      if outcome != Refused && !Grants(world, me, RequestAt(world.handles[me].pc)) {
        outcome := Refused;
      }
      Advance(Reply(me, outcome));
      ok := outcome == Done;
      sid := CurrentSid(world.owners[me]);
    }
  }

  /** An open database file: the fields eFileLock and latest_sid, and whose they are. */
  class SqlFile {
    const site: Site
    const me: nat
    var eFileLock: Level
    var latestSid: Sid

    ghost function Mirror(): Handle
      reads this, site
      requires site.Valid() && me < site.clients
    {
      site.world.handles[me]
    }

    ghost function Locks(): ByteLocks
      reads this, site
      requires site.Valid() && me < site.clients
    {
      site.world.owners[me].locks
    }

    // The object agrees with the step machine, which stands at `pc`.
    ghost predicate At(pc: Pc)
      reads this, site
    {
      && site.Valid() && me < site.clients
      && Mirror().level == eFileLock && Mirror().latest == latestSid && Mirror().pc == pc
    }

    constructor (site: Site, me: nat)
      requires site.Valid() && site.log == [] && me < site.clients
      ensures At(Idle) && this.site == site && this.me == me && eFileLock == NO_LOCK && latestSid == OpenSid
    {
      this.site := site;
      this.me := me;
      eFileLock := NO_LOCK;
      latestSid := OpenSid;
    }

    method Call(req: Request, ghost e: Event, ghost before: seq<Event>, ghost k: nat) returns (ok: bool)
      requires site.Valid() && me < site.clients && At(Mirror().pc)
      requires !Mirror().pc.Idle? && RequestAt(Mirror().pc) == req
      requires e.who == me && Mine(site.log, me) == Progress(e, before, k)
      modifies site, this`latestSid
      ensures site.Valid() && Mirror().latest == latestSid
      ensures ok ==> Mine(site.log, me) == Progress(e, before, k + 1)
      ensures !ok ==> exists o :: o != Done && Mine(site.log, me) == Progress(e, before, k) + [Reply(me, o)]
      ensures var h, o := old(Mirror()), old(site.world.owners[me]);
              && (ok ==> site.world.owners[me] == Apply(o, req) && Mirror() == Succeed(h, latestSid))
              && (!ok ==> && (site.world.owners[me] == o || site.world.owners[me] == Apply(o, req))
                          && Mirror() == Fail(h, site.world.owners[me] != o))
    {
      var sid;
      ok, sid := site.Transact(me, req);
      if ok {
        latestSid := sid;
        assert Progress(e, before, k) + [Reply(me, Done)] == Progress(e, before, k + 1);
      }
    }

    // The start of nfs4Lock or nfs4Unlock, before any remote call.
    method Enter(e: Event)
      requires At(Idle) && e.who == me && !e.Reply?
      requires if e.CallLock? then LockAllowed(eFileLock, e.level) else e.level <= SHARED_LOCK
      modifies site
      ensures site.Valid() && site.world.owners == old(site.world).owners
      ensures var pc := if e.CallLock? then StartLock(eFileLock, e.level) else StartUnlock(eFileLock, e.level);
              Mirror() == old(Mirror()).(pc := pc)
      ensures Mine(site.log, me) == Progress(e, old(Mine(site.log, me)), 0)
    {
      hide Progress;
      NothingSoFar(e, Mine(site.log, me));
      site.Advance(e);
    }

    // Between calls, what the theorems about runs say of this handle.
    lemma Settled()
      requires At(Idle)
      ensures HandleInv(Mirror(), site.world.owners[me])
      ensures Mirror().trusted ==> Possesses(Locks(), eFileLock)
      ensures Mirror().trusted && eFileLock == EXCLUSIVE_LOCK ==>
                forall j: nat | j != me && IdleTrusted(site.world, j) :: site.world.handles[j].level == NO_LOCK
    {
      site.History();
      ReachableInv(site.clients, site.log);
      forall j: nat | j != me && IdleTrusted(site.world, j) && Mirror().trusted && eFileLock == EXCLUSIVE_LOCK
        ensures site.world.handles[j].level == NO_LOCK
      {
        MutualExclusion(site.clients, site.log, me, j);
      }
    }

    // The rest of nfs4Lock, once PENDING is held where it is needed.
    method LockMain(level: Level, ghost e: Event, ghost before: seq<Event>, ghost k: nat) returns (ok: bool)
      requires At(TakeMain(level)) && eFileLock < level
      requires e.who == me && Mine(site.log, me) == Progress(e, before, k)
      modifies site, this`eFileLock, this`latestSid
      ensures At(Idle)
      ensures eFileLock == if ok then level else old(eFileLock)
      ensures Mirror().trusted == old(Mirror()).trusted
      ensures ok ==> Locks() == MainObtained(old(Locks()), level)
      ensures OneCall(e, before, Mine(site.log, me), k + if level == SHARED_LOCK then 2 else 1, ok)
    {
      if level == SHARED_LOCK {
        ok := Call(LockRange(Read, SHARED_FIRST, SHARED_SIZE), e, before, k);
        if !ok {
          return;
        }
        ok := Call(UnlockRange(PENDING_BYTE, 1), e, before, k + 1);
        if !ok {
          return;
        }
      } else {
        ok := Call(if level == RESERVED_LOCK then LockRange(Write, RESERVED_BYTE, 1)
                   else LockRange(Write, SHARED_FIRST, SHARED_SIZE), e, before, k);
        if !ok {
          return;
        }
      }
      eFileLock := level;
    }

    /** nfs4Lock: climb to `level`, or leave eFileLock alone and report the error. */
    method Lock(level: Level) returns (ok: bool)
      requires At(Idle) && LockAllowed(eFileLock, level)
      modifies site, this`eFileLock, this`latestSid
      ensures At(Idle)
      ensures eFileLock == if ok && level > old(eFileLock) then level else old(eFileLock)
      ensures Mirror().trusted == old(Mirror()).trusted
      ensures ok ==> Locks() == Obtained(old(Locks()), old(eFileLock), level)
      ensures OneCall(CallLock(me, level), old(Mine(site.log, me)), Mine(site.log, me),
                      LockTrips(old(eFileLock), level), ok)
    {
      hide OneCall, Progress, Mine, Site.Valid;
      ghost var e, before, k := CallLock(me, level), Mine(site.log, me), 0;
      Enter(CallLock(me, level));
      if eFileLock >= level {
        EndedOk(e, before, Mine(site.log, me), 0);
        return true;
      }
      if level == SHARED_LOCK || (level == EXCLUSIVE_LOCK && eFileLock < PENDING_LOCK) {
        ok := Call(LockRange(if level == SHARED_LOCK then Read else Write, PENDING_BYTE, 1), e, before, k);
        if !ok {
          EndedEarly(e, before, Mine(site.log, me), k, LockTrips(eFileLock, level));
          return;
        }
        k := k + 1;
      }
      ok := LockMain(level, e, before, k);
    }

    // The last call of nfs4Unlock on the way to NO_LOCK.
    method DropShared(ghost e: Event, ghost before: seq<Event>, ghost k: nat) returns (ok: bool)
      requires At(Pc.DropShared) && e.who == me && Mine(site.log, me) == Progress(e, before, k)
      modifies site, this`latestSid
      ensures site.Valid() && Mirror().latest == latestSid && Mirror().pc == Idle
      ensures ok ==> Mirror().level == NO_LOCK && Mirror().trusted
      ensures ok ==> Locks() == old(Locks()) - Bytes(SHARED_FIRST, SHARED_SIZE)
      ensures !ok ==> Mirror().level == eFileLock && !Mirror().trusted
      ensures OneCall(e, before, Mine(site.log, me), k + 1, ok)
    {
      ok := Call(UnlockRange(SHARED_FIRST, SHARED_SIZE), e, before, k);
    }

    // The calls of nfs4Unlock from above SHARED: back to a read lock if that is where it goes, and PENDING and
    // RESERVED off.
    method DropHigh(level: Level, ghost e: Event, ghost before: seq<Event>) returns (ok: bool, ghost k: nat)
      requires At(StartUnlock(eFileLock, level)) && level <= SHARED_LOCK < eFileLock
      requires e.who == me && Mine(site.log, me) == Progress(e, before, 0)
      modifies site, this`latestSid
      ensures site.Valid() && Mirror().latest == latestSid
      ensures ok ==> if level == NO_LOCK then Mirror().pc == Pc.DropShared && Mirror().level == eFileLock
                     else Mirror().pc == Idle && Mirror().level == level && Mirror().trusted
      ensures ok && level == SHARED_LOCK ==>
                Locks() == old(Locks()) + Span(Read, SHARED_FIRST, SHARED_SIZE) - Bytes(PENDING_BYTE, 2)
      ensures ok && level == NO_LOCK ==> Locks() == old(Locks()) - Bytes(PENDING_BYTE, 2)
      ensures ok ==> k == (if level == NO_LOCK then 1 else 2) && Mine(site.log, me) == Progress(e, before, k)
      ensures !ok ==> Mirror().pc == Idle && Mirror().level == eFileLock && !Mirror().trusted
                      && OneCall(e, before, Mine(site.log, me), 2, false)
    {
      hide OneCall, Progress, Mine, Site.Valid, Span, Bytes;
      k := 0;
      if level == SHARED_LOCK {
        ok := Call(LockRange(Read, SHARED_FIRST, SHARED_SIZE), e, before, k);
        if !ok {
          EndedEarly(e, before, Mine(site.log, me), k, 2);
          return;
        }
        k := k + 1;
      }
      ok := Call(UnlockRange(PENDING_BYTE, 2), e, before, k);
      if !ok {
        EndedEarly(e, before, Mine(site.log, me), k, 2);
        return;
      }
      k := k + 1;
    }

    /** nfs4Unlock: come down to `level`; an error leaves eFileLock at the old level. */
    method Unlock(level: Level) returns (ok: bool)
      requires At(Idle) && level <= SHARED_LOCK
      modifies site, this`eFileLock, this`latestSid
      ensures At(Idle)
      ensures eFileLock == if ok && level < old(eFileLock) then level else old(eFileLock)
      ensures Mirror().trusted == (ok && (old(Mirror()).trusted || level < old(eFileLock)))
      ensures ok ==> Locks() == Released(old(Locks()), old(eFileLock), level)
      ensures OneCall(CallUnlock(me, level), old(Mine(site.log, me)), Mine(site.log, me),
                      UnlockTrips(old(eFileLock), level), ok)
    {
      hide OneCall, Progress, Mine, Site.Valid;
      ghost var e, before, k := CallUnlock(me, level), Mine(site.log, me), 0;
      Enter(CallUnlock(me, level));
      if eFileLock <= level {
        EndedOk(e, before, Mine(site.log, me), 0);
        return true;
      }
      if eFileLock > SHARED_LOCK {
        ok, k := DropHigh(level, e, before);
        if !ok {
          return;
        }
      }
      if level == NO_LOCK {
        ok := DropShared(e, before, k);
        if !ok {
          return;
        }
      } else {
        EndedOk(e, before, Mine(site.log, me), k);
      }
      eFileLock := level;
    }
  }
}
