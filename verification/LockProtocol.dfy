/** The byte-range locking protocol behind nfs4Lock and nfs4Unlock, as a step machine.

    Any number of clients each own one handle on the same database file.  A client talks to
    the server in separate LOCK and LOCKU remote calls, so its `pc` says which call it is about
    to make, and the steps of all clients interleave at that grain.  A call ends in one of three
    ways: it succeeds, it is refused without effect, or it takes effect and the reply is lost. */
module LockProtocol {

  const PENDING_BYTE: nat := 0x40000000
  const RESERVED_BYTE: nat := PENDING_BYTE + 1
  const SHARED_FIRST: nat := PENDING_BYTE + 2
  const SHARED_SIZE: nat := 510

  type Level = x: int | 0 <= x <= 4
  const NO_LOCK: Level := 0
  const SHARED_LOCK: Level := 1
  const RESERVED_LOCK: Level := 2
  const PENDING_LOCK: Level := 3
  const EXCLUSIVE_LOCK: Level := 4

  datatype LockType = Read | Write

  // The bytes one lock owner holds
  type ByteLocks = map<nat, LockType>

  // A lock stateid is identified by its seqid; until the first LOCK succeeds a file carries the open stateid.
  datatype Sid = OpenSid | LockSid(seqid: nat)

  // The server's record of one lock owner: the bytes it holds, and how many lock stateids it was issued.
  datatype Owner = Owner(locks: ByteLocks, issued: nat)

  datatype Request =
    | LockRange(kind: LockType, first: nat, count: nat)
    | UnlockRange(first: nat, count: nat)

  datatype Pc =
    | Idle
    | TakePending(target: Level)  // about to lock the PENDING byte for `target`
    | TakeMain(target: Level)     // about to lock the range `target` is about
    | DropPending                 // about to release the temporary PENDING lock
    | Downgrade                   // about to turn the SHARED range back to READ
    | DropPair(target: Level)     // about to release PENDING and RESERVED
    | DropShared                  // about to release the SHARED range

  /** `level` is the field eFileLock and `latest` the field latest_sid.  The other fields record history:
      - trusted: no nfs4Unlock has returned an error since one last ran to its end;
      - clean: no remote call of this handle has failed;
      - viaReserved: the current level was reached through RESERVED;
      - stale: the last call that took effect on the server was one whose reply was lost. */
  datatype Handle = Handle(level: Level, pc: Pc, latest: Sid,
                           trusted: bool, clean: bool, viaReserved: bool, stale: bool)

  datatype World = World(handles: seq<Handle>, owners: seq<Owner>)

  datatype Outcome = Done | Refused | Lost

  datatype Event =
    | CallLock(who: nat, level: Level)
    | CallUnlock(who: nat, level: Level)
    | Reply(who: nat, outcome: Outcome)

  // ---------- The server ----------

  predicate Within(b: nat, first: nat, count: nat) {
    first <= b < first + count
  }

  function Span(kind: LockType, first: nat, count: nat): ByteLocks {
    map b: nat | first <= b < first + count && Within(b, first, count) :: kind
  }

  function Bytes(first: nat, count: nat): set<nat> {
    set b: nat | first <= b < first + count && Within(b, first, count)
  }

  predicate Compatible(a: ByteLocks, b: ByteLocks) {
    forall x | x in a && x in b :: a[x] == Read && b[x] == Read
  }

  /** A LOCK is granted when no other owner holds a conflicting byte; a LOCKU always is. */
  predicate Grants(w: World, who: nat, req: Request) {
    req.LockRange? ==>
      forall i | 0 <= i < |w.owners| && i != who :: Compatible(w.owners[i].locks, Span(req.kind, req.first, req.count))
  }

  /** An owner's own locks are replaced by a new LOCK; a LOCKU removes whatever of the range is held. */
  function Apply(o: Owner, req: Request): Owner {
    match req
    case LockRange(kind, first, count) => Owner(o.locks + Span(kind, first, count), o.issued + 1)
    case UnlockRange(first, count) => Owner(o.locks - Bytes(first, count), o.issued + 1)
  }

  function CurrentSid(o: Owner): Sid {
    if o.issued == 0 then OpenSid else LockSid(o.issued)
  }

  // ---------- One client ----------

  /** The call that a client at `pc` makes next. */
  function RequestAt(pc: Pc): Request
    requires !pc.Idle?
  {
    match pc
    case TakePending(t) => LockRange(if t == SHARED_LOCK then Read else Write, PENDING_BYTE, 1)
    case TakeMain(t) =>
      if t == RESERVED_LOCK then LockRange(Write, RESERVED_BYTE, 1)
      else LockRange(if t == SHARED_LOCK then Read else Write, SHARED_FIRST, SHARED_SIZE)
    case DropPending => UnlockRange(PENDING_BYTE, 1)
    case Downgrade => LockRange(Read, SHARED_FIRST, SHARED_SIZE)
    case DropPair(_) => UnlockRange(PENDING_BYTE, 2)
    case DropShared => UnlockRange(SHARED_FIRST, SHARED_SIZE)
  }

  /** What nfs4Lock asserts of its caller, checked only when the call is not already satisfied. */
  predicate LockAllowed(current: Level, level: Level) {
    || current >= level
    || (&& (current != NO_LOCK || level == SHARED_LOCK)
        && level != PENDING_LOCK
        && (level != RESERVED_LOCK || current == SHARED_LOCK))
  }

  function StartLock(current: Level, level: Level): Pc {
    if current >= level then Idle
    else if level == SHARED_LOCK || (level == EXCLUSIVE_LOCK && current < PENDING_LOCK) then TakePending(level)
    else TakeMain(level)
  }

  function StartUnlock(current: Level, level: Level): Pc {
    if current <= level then Idle
    else if current > SHARED_LOCK then
      if level == SHARED_LOCK then Downgrade else DropPair(level)
    else DropShared
  }

  predicate Unlocking(pc: Pc) {
    pc.Downgrade? || pc.DropPair? || pc.DropShared?
  }

  function Reached(h: Handle, level: Level): Handle {
    h.(level := level, pc := Idle,
       viaReserved := level == RESERVED_LOCK || (level == EXCLUSIVE_LOCK && h.viaReserved),
       trusted := h.trusted || Unlocking(h.pc))
  }

  /** The handle after its pending call succeeded; `sid` is the stateid the reply carried. */
  function Succeed(h: Handle, sid: Sid): Handle
    requires !h.pc.Idle?
  {
    var h := h.(latest := sid, stale := false);
    match h.pc
    case TakePending(t) => h.(pc := TakeMain(t))
    case TakeMain(t) => if t == SHARED_LOCK then h.(pc := DropPending) else Reached(h, t)
    case DropPending => Reached(h, SHARED_LOCK)
    case Downgrade => h.(pc := DropPair(SHARED_LOCK))
    case DropPair(t) => if t == NO_LOCK then h.(pc := DropShared) else Reached(h, t)
    case DropShared => Reached(h, NO_LOCK)
  }

  function Fail(h: Handle, lost: bool): Handle {
    h.(pc := Idle, clean := false, trusted := h.trusted && !Unlocking(h.pc), stale := h.stale || lost)
  }

  // ---------- All clients together ----------

  predicate Sized(w: World) {
    |w.handles| == |w.owners|
  }

  predicate Enabled(w: World, e: Event)
    requires Sized(w)
  {
    && e.who < |w.handles|
    && var h := w.handles[e.who];
    match e
    case CallLock(_, level) => h.pc.Idle? && LockAllowed(h.level, level)
    case CallUnlock(_, level) => h.pc.Idle? && level <= SHARED_LOCK
    case Reply(_, outcome) => !h.pc.Idle? && (outcome == Refused || Grants(w, e.who, RequestAt(h.pc)))
  }

  function Step(w: World, e: Event): (w': World)
    requires Sized(w) && Enabled(w, e)
    ensures Sized(w') && |w'.handles| == |w.handles|
  {
    var h := w.handles[e.who];
    match e
    case CallLock(who, level) => w.(handles := w.handles[who := h.(pc := StartLock(h.level, level))])
    case CallUnlock(who, level) => w.(handles := w.handles[who := h.(pc := StartUnlock(h.level, level))])
    case Reply(who, Refused) => w.(handles := w.handles[who := Fail(h, false)])
    case Reply(who, Lost) =>
      World(w.handles[who := Fail(h, true)], w.owners[who := Apply(w.owners[who], RequestAt(h.pc))])
    case Reply(who, Done) =>
      var o := Apply(w.owners[who], RequestAt(h.pc));
      World(w.handles[who := Succeed(h, CurrentSid(o))], w.owners[who := o])
  }

  predicate IsRun(w: World, es: seq<Event>)
    requires Sized(w)
    decreases |es|
  {
    es == [] || (Enabled(w, es[0]) && IsRun(Step(w, es[0]), es[1..]))
  }

  function Exec(w: World, es: seq<Event>): (w': World)
    requires Sized(w) && IsRun(w, es)
    ensures Sized(w') && |w'.handles| == |w.handles|
    decreases |es|
  {
    if es == [] then w else Exec(Step(w, es[0]), es[1..])
  }

  const OPENED := Handle(NO_LOCK, Idle, OpenSid, true, true, false, false)

  function Init(n: nat): (w: World)
    ensures Sized(w) && |w.handles| == n
  {
    World(seq(n, _ => OPENED), seq(n, _ => Owner(map[], 0)))
  }

  // ---------- The invariant ----------

  ghost predicate Covers(locks: ByteLocks, kind: LockType, first: nat, count: nat) {
    forall b | first <= b < first + count :: b in locks && (kind == Write ==> locks[b] == Write)
  }

  /** The bytes that justify a lock level. */
  ghost predicate Possesses(locks: ByteLocks, level: Level) {
    && (level >= SHARED_LOCK ==> Covers(locks, Read, SHARED_FIRST, SHARED_SIZE))
    && (level == RESERVED_LOCK ==> Covers(locks, Write, RESERVED_BYTE, 1))
    && (level == EXCLUSIVE_LOCK ==>
          Covers(locks, Write, PENDING_BYTE, 1) && Covers(locks, Write, SHARED_FIRST, SHARED_SIZE))
  }

  /** Which program counters go with which level. */
  ghost predicate PcFits(h: Handle) {
    && h.level != PENDING_LOCK
    && match h.pc
       case Idle => true
       case TakePending(t) => (t == SHARED_LOCK && h.level == NO_LOCK)
                              || (t == EXCLUSIVE_LOCK && SHARED_LOCK <= h.level < PENDING_LOCK)
       case TakeMain(t) => (t == SHARED_LOCK && h.level == NO_LOCK)
                           || (t == RESERVED_LOCK && h.level == SHARED_LOCK)
                           || (t == EXCLUSIVE_LOCK && SHARED_LOCK <= h.level < PENDING_LOCK)
       case DropPending => h.level == NO_LOCK
       case Downgrade => h.level > SHARED_LOCK
       case DropPair(t) => h.level > SHARED_LOCK && t <= SHARED_LOCK
       case DropShared => h.level >= SHARED_LOCK
  }

  /** What the calls already made in the current operation secured, whatever failed before it. */
  ghost predicate Secured(h: Handle, locks: ByteLocks) {
    match h.pc
    case TakeMain(t) => (t == SHARED_LOCK ==> Covers(locks, Read, PENDING_BYTE, 1))
                        && (t == EXCLUSIVE_LOCK ==> Covers(locks, Write, PENDING_BYTE, 1))
    case DropPending => Covers(locks, Read, SHARED_FIRST, SHARED_SIZE)
    case DropPair(t) => t == SHARED_LOCK ==> Covers(locks, Read, SHARED_FIRST, SHARED_SIZE)
    case DropShared => h.level > SHARED_LOCK ==> PENDING_BYTE !in locks && RESERVED_BYTE !in locks
    case _ => true
  }

  /** What a trusted handle holds at each program counter. */
  ghost predicate TrustedHolds(h: Handle, locks: ByteLocks) {
    match h.pc
    case DropPair(_) => true
    case DropShared => true
    case _ => Possesses(locks, h.level)
  }

  // What is held at one byte, if anything.
  datatype Hold = Free | Held(kind: LockType)

  function At(locks: ByteLocks, b: nat): Hold {
    if b in locks then Held(locks[b]) else Free
  }

  function LevelAt(level: Level, viaReserved: bool, b: nat): Hold {
    if level != NO_LOCK && Within(b, SHARED_FIRST, SHARED_SIZE) then
      Held(if level == EXCLUSIVE_LOCK then Write else Read)
    else if (b == RESERVED_BYTE && viaReserved) || (b == PENDING_BYTE && level == EXCLUSIVE_LOCK) then Held(Write)
    else Free
  }

  /** Exactly what a handle holds at byte `b` when none of its calls has ever failed. */
  function CleanAt(h: Handle, b: nat): Hold {
    var own := LevelAt(h.level, h.viaReserved, b);
    var shared := Within(b, SHARED_FIRST, SHARED_SIZE);
    match h.pc
    case TakeMain(t) =>
      if b == PENDING_BYTE && t != RESERVED_LOCK then Held(if t == SHARED_LOCK then Read else Write) else own
    case DropPending => if b == PENDING_BYTE || shared then Held(Read) else Free
    case DropPair(t) => if t == SHARED_LOCK && shared then Held(Read) else own
    case DropShared => if shared then own else Free
    case _ => own
  }

  function SidNumber(s: Sid): nat {
    if s.OpenSid? then 0 else s.seqid
  }

  /** latest_sid is the server's current lock stateid exactly when no effect is waiting to be learnt,
      and it is a lock stateid wherever a LOCKU can be sent. */
  ghost predicate SidInv(h: Handle, o: Owner) {
    && (h.latest.LockSid? ==> h.latest.seqid > 0)
    && (if h.stale then SidNumber(h.latest) < o.issued else SidNumber(h.latest) == o.issued)
    && (h.level != NO_LOCK || h.pc.DropPending? || h.pc == TakeMain(SHARED_LOCK) ==> h.latest.LockSid?)
  }

  // Locks are only ever taken on these bytes.
  ghost predicate InRange(locks: ByteLocks) {
    forall b | b in locks :: PENDING_BYTE <= b < SHARED_FIRST + SHARED_SIZE
  }

  ghost predicate HandleInv(h: Handle, o: Owner) {
    && PcFits(h)
    && Secured(h, o.locks)
    && (h.trusted ==> TrustedHolds(h, o.locks))
    && (h.viaReserved ==> h.level == RESERVED_LOCK || h.level == EXCLUSIVE_LOCK)
    && (h.level == RESERVED_LOCK ==> h.viaReserved)
    && (h.clean ==> forall b: nat :: At(o.locks, b) == CleanAt(h, b))
    && SidInv(h, o)
    && InRange(o.locks)
  }

  ghost predicate NoConflict(w: World) {
    forall i, j | 0 <= i < j < |w.owners| :: Compatible(w.owners[i].locks, w.owners[j].locks)
  }

  ghost predicate Inv(w: World) {
    && Sized(w)
    && NoConflict(w)
    && forall i | 0 <= i < |w.handles| :: HandleInv(w.handles[i], w.owners[i])
  }

  // ---------- The invariant holds in every run ----------

  // Where a reply answers a lock request.
  predicate Taking(pc: Pc) {
    pc.TakePending? || pc.TakeMain? || pc.Downgrade?
  }

  lemma TakeKeepsClean(h: Handle, o: Owner, b: nat)
    requires Taking(h.pc) && PcFits(h) && At(o.locks, b) == CleanAt(h, b)
    requires h.viaReserved ==> h.level == RESERVED_LOCK || h.level == EXCLUSIVE_LOCK
    requires h.level == RESERVED_LOCK ==> h.viaReserved
    ensures var o' := Apply(o, RequestAt(h.pc)); At(o'.locks, b) == CleanAt(Succeed(h, CurrentSid(o')), b)
  {
  }

  lemma DropKeepsClean(h: Handle, o: Owner, b: nat)
    requires !h.pc.Idle? && !Taking(h.pc) && PcFits(h) && At(o.locks, b) == CleanAt(h, b)
    requires h.viaReserved ==> h.level == RESERVED_LOCK || h.level == EXCLUSIVE_LOCK
    ensures var o' := Apply(o, RequestAt(h.pc)); At(o'.locks, b) == CleanAt(Succeed(h, CurrentSid(o')), b)
  {
  }

  /** After a successful call a handle none of whose calls has failed holds at each byte what it should. */
  lemma ReplyKeepsClean(h: Handle, o: Owner, b: nat)
    requires !h.pc.Idle? && PcFits(h) && At(o.locks, b) == CleanAt(h, b)
    requires h.viaReserved ==> h.level == RESERVED_LOCK || h.level == EXCLUSIVE_LOCK
    requires h.level == RESERVED_LOCK ==> h.viaReserved
    ensures var o' := Apply(o, RequestAt(h.pc)); At(o'.locks, b) == CleanAt(Succeed(h, CurrentSid(o')), b)
  {
    hide PcFits, At, CleanAt, Apply, Succeed;
    if Taking(h.pc) {
      TakeKeepsClean(h, o, b);
    } else {
      DropKeepsClean(h, o, b);
    }
  }

  lemma ReplyKeepsSid(h: Handle, o: Owner)
    requires PcFits(h) && SidInv(h, o) && !h.pc.Idle?
    ensures var o' := Apply(o, RequestAt(h.pc)); SidInv(Succeed(h, CurrentSid(o')), o')
  {
  }

  lemma ReplyKeepsSecured(h: Handle, o: Owner)
    requires PcFits(h) && Secured(h, o.locks) && !h.pc.Idle?
    ensures var o' := Apply(o, RequestAt(h.pc));
      var h' := Succeed(h, CurrentSid(o'));
      PcFits(h') && Secured(h', o'.locks)
  {
  }

  lemma ReplyKeepsPossession(h: Handle, o: Owner)
    requires PcFits(h) && Secured(h, o.locks) && TrustedHolds(h, o.locks) && !h.pc.Idle?
    ensures var o' := Apply(o, RequestAt(h.pc)); TrustedHolds(Succeed(h, CurrentSid(o')), o'.locks)
  {
    hide PcFits, Secured, TrustedHolds, Apply, Succeed;
    if Taking(h.pc) {
      TakeKeepsPossession(h, o);
    } else {
      DropKeepsPossession(h, o);
    }
  }

  lemma TakeKeepsPossession(h: Handle, o: Owner)
    requires PcFits(h) && Secured(h, o.locks) && TrustedHolds(h, o.locks) && Taking(h.pc)
    ensures var o' := Apply(o, RequestAt(h.pc)); TrustedHolds(Succeed(h, CurrentSid(o')), o'.locks)
  {
  }

  lemma DropKeepsPossession(h: Handle, o: Owner)
    requires PcFits(h) && Secured(h, o.locks) && TrustedHolds(h, o.locks) && !h.pc.Idle? && !Taking(h.pc)
    ensures var o' := Apply(o, RequestAt(h.pc)); TrustedHolds(Succeed(h, CurrentSid(o')), o'.locks)
  {
  }

  lemma UnlockEarnsTrust(h: Handle, o: Owner)
    requires PcFits(h) && Secured(h, o.locks) && !h.pc.Idle?
    ensures var o' := Apply(o, RequestAt(h.pc));
      var h' := Succeed(h, CurrentSid(o'));
      h'.trusted && !h.trusted ==> TrustedHolds(h', o'.locks)
  {
  }

  lemma ReplyKeepsRange(h: Handle, o: Owner)
    requires InRange(o.locks) && !h.pc.Idle?
    ensures InRange(Apply(o, RequestAt(h.pc)).locks)
  {
  }

  lemma ReplyKeepsHandle(h: Handle, o: Owner)
    requires HandleInv(h, o) && !h.pc.Idle?
    ensures var o' := Apply(o, RequestAt(h.pc)); HandleInv(Succeed(h, CurrentSid(o')), o')
  {
    hide PcFits, Secured, TrustedHolds, SidInv, At, CleanAt, Apply, InRange;
    var o' := Apply(o, RequestAt(h.pc));
    ReplyKeepsSid(h, o);
    ReplyKeepsSecured(h, o);
    ReplyKeepsRange(h, o);
    UnlockEarnsTrust(h, o);
    if h.trusted {
      ReplyKeepsPossession(h, o);
    }
    ReachedFits(h, CurrentSid(o'));
    if h.clean {
      forall b: nat ensures At(o'.locks, b) == CleanAt(Succeed(h, CurrentSid(o')), b) {
        ReplyKeepsClean(h, o, b);
      }
    }
  }

  lemma ReachedFits(h: Handle, sid: Sid)
    requires !h.pc.Idle? && PcFits(h)
    requires h.viaReserved ==> h.level == RESERVED_LOCK || h.level == EXCLUSIVE_LOCK
    requires h.level == RESERVED_LOCK ==> h.viaReserved
    ensures var h' := Succeed(h, sid);
      && (h'.viaReserved ==> h'.level == RESERVED_LOCK || h'.level == EXCLUSIVE_LOCK)
      && (h'.level == RESERVED_LOCK ==> h'.viaReserved)
      && h'.clean == h.clean
  {
  }

  lemma FailureKeepsHandle(h: Handle, o: Owner, lost: bool)
    requires HandleInv(h, o) && !h.pc.Idle?
    ensures HandleInv(Fail(h, lost), if lost then Apply(o, RequestAt(h.pc)) else o)
  {
  }

  lemma CallKeepsHandle(h: Handle, o: Owner, level: Level)
    requires HandleInv(h, o) && h.pc.Idle?
    ensures LockAllowed(h.level, level) ==> HandleInv(h.(pc := StartLock(h.level, level)), o)
    ensures level <= SHARED_LOCK ==> HandleInv(h.(pc := StartUnlock(h.level, level)), o)
  {
  }

  lemma GrantKeepsTable(w: World, who: nat, req: Request)
    requires Inv(w) && who < |w.owners| && Grants(w, who, req)
    ensures NoConflict(w.(owners := w.owners[who := Apply(w.owners[who], req)]))
  {
    var o := Apply(w.owners[who], req);
    forall i | 0 <= i < |w.owners| && i != who
      ensures Compatible(w.owners[i].locks, o.locks) && Compatible(o.locks, w.owners[i].locks)
    {
      if i < who {
        assert Compatible(w.owners[i].locks, w.owners[who].locks);
      } else {
        assert Compatible(w.owners[who].locks, w.owners[i].locks);
      }
    }
  }

  lemma StepKeepsInv(w: World, e: Event)
    requires Inv(w) && Enabled(w, e)
    ensures Inv(Step(w, e))
  {
    var h, o := w.handles[e.who], w.owners[e.who];
    match e
    case CallLock(_, level) => CallKeepsHandle(h, o, level);
    case CallUnlock(_, level) => CallKeepsHandle(h, o, level);
    case Reply(who, Refused) => FailureKeepsHandle(h, o, false);
    case Reply(who, Lost) =>
      FailureKeepsHandle(h, o, true);
      GrantKeepsTable(w, who, RequestAt(h.pc));
    case Reply(who, Done) =>
      ReplyKeepsHandle(h, o);
      GrantKeepsTable(w, who, RequestAt(h.pc));
  }

  lemma {:induction false} RunKeepsInv(w: World, es: seq<Event>)
    requires Inv(w) && IsRun(w, es)
    ensures Inv(Exec(w, es))
    decreases |es|
  {
    if es != [] {
      StepKeepsInv(w, es[0]);
      RunKeepsInv(Step(w, es[0]), es[1..]);
    }
  }
}
