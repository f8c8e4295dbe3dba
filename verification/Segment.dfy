/** segment: reading and writing a range in chunks of at most a given size. */
module Segment {
  import opened Bytes

  // ---------- One transfer ----------

  function Extended(file: seq<u8>, n: nat): (r: seq<u8>)
    ensures |r| >= n && |r| >= |file|
  {
    if |file| >= n then file else file + Zeros(n - |file|)
  }

  /** The file after a WRITE of `data` at `offset`: a gap before it reads as zeros. */
  function Put(file: seq<u8>, offset: nat, data: seq<u8>): seq<u8> {
    if data == [] then file
    else
      var base := Extended(file, offset + |data|);
      base[..offset] + data + base[offset + |data|..]
  }

  /** What a READ of `n` bytes at `offset` returns: full count up to the end of the file. */
  function Get(file: seq<u8>, offset: nat, n: nat): (r: seq<u8>)
    ensures |r| <= n
  {
    if offset >= |file| then []
    else if offset + n <= |file| then file[offset..offset + n] else file[offset..]
  }

  lemma PutLength(file: seq<u8>, offset: nat, data: seq<u8>)
    requires data != []
    ensures |Put(file, offset, data)| == if |file| > offset + |data| then |file| else offset + |data|
  {
  }

  // The file after a write, byte by byte.
  lemma PutAt(file: seq<u8>, offset: nat, data: seq<u8>, i: nat)
    requires data != [] && i < |Put(file, offset, data)|
    ensures Put(file, offset, data)[i]
            == if offset <= i < offset + |data| then data[i - offset] else if i < |file| then file[i] else 0
  {
  }

  /** Two adjacent writes are one. */
  lemma PutAppend(file: seq<u8>, offset: nat, a: seq<u8>, b: seq<u8>)
    ensures Put(Put(file, offset, a), offset + |a|, b) == Put(file, offset, a + b)
  {
    if a == [] {
      assert a + b == b;
    } else if b == [] {
      assert a + b == a;
    } else {
      hide Put;
      var half := Put(file, offset, a);
      var once, twice := Put(file, offset, a + b), Put(half, offset + |a|, b);
      PutLength(file, offset, a);
      PutLength(file, offset, a + b);
      PutLength(half, offset + |a|, b);
      forall i | 0 <= i < |once| ensures once[i] == twice[i] {
        PutTwiceAt(file, offset, a, b, i);
      }
    }
  }

  lemma PutTwiceAt(file: seq<u8>, offset: nat, a: seq<u8>, b: seq<u8>, i: nat)
    requires a != [] && b != []
    requires i < |Put(file, offset, a + b)| == |Put(Put(file, offset, a), offset + |a|, b)|
    ensures Put(file, offset, a + b)[i] == Put(Put(file, offset, a), offset + |a|, b)[i]
  {
    hide Put;
    var half := Put(file, offset, a);
    PutAt(file, offset, a + b, i);
    PutAt(half, offset + |a|, b, i);
    PutLength(file, offset, a);
    if i < |half| {
      PutAt(file, offset, a, i);
    }
  }

  /** Two adjacent reads are one. */
  lemma GetAppend(file: seq<u8>, offset: nat, n: nat, m: nat)
    ensures |Get(file, offset, n)| < n ==> Get(file, offset + n, m) == []
    ensures Get(file, offset, n) + Get(file, offset + n, m) == Get(file, offset, n + m)
  {
  }

  /** A range that was written reads back as what was written, and every other byte is as it was, with zeros in a
      gap beyond the old end. */
  lemma WriteThenRead(file: seq<u8>, offset: nat, data: seq<u8>)
    ensures Get(Put(file, offset, data), offset, |data|) == data
    ensures data != [] ==> |Put(file, offset, data)| == if |file| > offset + |data| then |file| else offset + |data|
    ensures forall i | 0 <= i < |Put(file, offset, data)| && !(offset <= i < offset + |data|) ::
              Put(file, offset, data)[i] == if i < |file| then file[i] else 0
  {
  }

  // ---------- The chunks ----------

  datatype Chunk = Chunk(offset: nat, length: nat)

  // MIN(length - done, chunksize).
  function Xfer(left: u32, limit: u32): u32 {
    if left < limit then left else limit
  }

  /** The chunks of a range, for a positive limit. */
  function Chunks(offset: nat, length: u32, limit: u32): seq<Chunk>
    requires limit > 0
    decreases length
  {
    if length == 0 then []
    else
      var x := Xfer(length, limit);
      [Chunk(offset, x)] + Chunks(offset + x, length - x, limit)
  }

  lemma MulGrows(a: nat, b: nat, c: nat)
    requires a <= b
    ensures a * c <= b * c && (a + 1) * c == a * c + c
  {
    if a < b {
      assert b * c == a * c + (b - a) * c;
    }
  }

  lemma Quotient(n: nat, b: nat, k: nat)
    requires b > 0 && k * b <= n < k * b + b
    ensures n / b == k
  {
    var q := n / b;
    assert n == q * b + n % b && n % b < b;
    if q < k {
      MulGrows(q + 1, k, b);
      MulGrows(q, q, b);
    } else if k < q {
      MulGrows(k + 1, q, b);
      MulGrows(k, k, b);
    }
  }

  predicate Tiles(cs: seq<Chunk>, offset: nat, length: u32, limit: u32) {
    && (forall i | 0 <= i < |cs| :: 0 < cs[i].length <= limit)
    && (forall i | 0 <= i < |cs| - 1 :: cs[i].length == limit && cs[i + 1].offset == cs[i].offset + cs[i].length)
    && (cs != [] ==> cs[0].offset == offset && cs[|cs| - 1].offset + cs[|cs| - 1].length == offset + length)
    && (cs == [] ==> length == 0)
  }

  lemma {:induction false} ChunksTileFrom(offset: nat, length: u32, limit: u32)
    requires limit > 0
    ensures var cs := Chunks(offset, length, limit);
      Tiles(cs, offset, length, limit) && length <= |cs| * limit < length + limit
    decreases length
  {
    if length > 0 {
      hide Tiles;
      var x := Xfer(length, limit);
      var more := Chunks(offset + x, length - x, limit);
      ChunksTileFrom(offset + x, length - x, limit);
      TilesCons(more, offset, x, length, limit);
      OneMoreChunk(|more|, x, length, limit);
    }
  }

  lemma OneMoreChunk(k: nat, x: u32, length: u32, limit: u32)
    requires 0 < length && x == Xfer(length, limit) && (x == length ==> k == 0)
    requires length - x <= k * limit < length - x + limit
    ensures length <= (k + 1) * limit < length + limit
  {
    MulGrows(k, k, limit);
  }

  lemma TilesCons(more: seq<Chunk>, offset: nat, x: u32, length: u32, limit: u32)
    requires 0 < x <= limit && x <= length && (x < length ==> x == limit)
    requires Tiles(more, offset + x, length - x, limit) && (more == [] <==> x == length)
    ensures Tiles([Chunk(offset, x)] + more, offset, length, limit)
  {
    var cs := [Chunk(offset, x)] + more;
    forall i | 0 <= i < |cs| - 1 ensures cs[i].length == limit && cs[i + 1].offset == cs[i].offset + cs[i].length {
      assert cs[i + 1] == more[i] && (i > 0 ==> cs[i] == more[i - 1]);
    }
    assert more != [] ==> cs[|cs| - 1] == more[|more| - 1];
  }

  /** The chunks are contiguous, none empty or longer than the limit, exactly ceil(length / limit) of them, and they
      cover the range. */
  lemma ChunksTile(offset: nat, length: u32, limit: u32)
    requires limit > 0
    ensures Tiles(Chunks(offset, length, limit), offset, length, limit)
    ensures |Chunks(offset, length, limit)| == (length + limit - 1) / limit
  {
    ChunksTileFrom(offset, length, limit);
    Quotient(length + limit - 1, limit, |Chunks(offset, length, limit)|);
  }

  /** With a limit of zero the loop does not get anywhere; with any other it does. */
  lemma NoProgressIff(length: u32, done: u32, limit: u32)
    requires done < length
    ensures done + Xfer(length - done, limit) == done <==> limit == 0
    ensures done + Xfer(length - done, limit) < U32_SIZE
  {
  }

  // ---------- The other side, and the loop ----------

  /** What becomes of one chunk: done; failed without effect; or carried out although the answer says or is an error. */
  datatype Ending = Done | Failed | Lost

  datatype Each = ReadChunk | WriteChunk

  class Remote {
    const plan: nat -> Ending
    var turn: nat
    var file: seq<u8>
    ghost var log: seq<Chunk>  // the chunks asked for

    constructor (plan: nat -> Ending, file: seq<u8>)
      ensures this.plan == plan && this.file == file && turn == 0 && log == []
    {
      this.plan, this.file, turn, log := plan, file, 0, [];
    }

    /** read_chunk or write_chunk, for `n` bytes of `x` from `at`. */
    method Transfer(each: Each, x: array<u8>, at: nat, offset: nat, n: nat) returns (ok: bool)
      requires at + n <= x.Length
      modifies this, x
      ensures turn == old(turn) + 1 && ok == plan(old(turn)).Done?
      ensures log == old(log) + [Chunk(offset, n)]
      ensures each.WriteChunk? ==>
                && x[..] == old(x[..])
                && file == if plan(old(turn)).Failed? then old(file) else Put(old(file), offset, x[at..at + n])
      ensures each.ReadChunk? ==> file == old(file)
      ensures each.ReadChunk? && !ok ==> x[..] == old(x[..])
      ensures each.ReadChunk? && ok ==>
                var data := Get(file, offset, n); x[..] == old(x[..at]) + data + old(x[at + |data|..])
    {
      var f := plan(turn);
      turn := turn + 1;
      log := log + [Chunk(offset, n)];
      ok := f == Done;
      if each == WriteChunk {
        if f != Failed {
          file := Put(file, offset, x[at..at + n]);
        }
      } else if ok {
        var data := Get(file, offset, n);
        forall i | 0 <= i < |data| {
          x[at + i] := data[i];
        }
      }
    }
  }

  // `x` with `data` at its start.
  function Filled(x: seq<u8>, data: seq<u8>): seq<u8>
    requires |data| <= |x|
  {
    data + x[|data|..]
  }

  lemma FilledMore(x: seq<u8>, file: seq<u8>, offset: nat, done: nat, n: nat)
    requires done + n <= |x|
    ensures var now, data := Filled(x, Get(file, offset, done)), Get(file, offset + done, n);
      now[..done] + data + now[done + |data|..] == Filled(x, Get(file, offset, done + n))
  {
    GetAppend(file, offset, done, n);
    var before, data := Get(file, offset, done), Get(file, offset + done, n);
    var now := Filled(x, before);
    if |before| < done {
      assert before + [] == before;
      assert now[..done] + [] + now[done..] == now;
    } else {
      assert now[..done] == before && now[done + |data|..] == x[done + |data|..];
    }
  }

  lemma NoChunks(offset: nat, limit: u32)
    requires limit > 0
    ensures Chunks(offset, 0, limit) == []
  {
  }

  lemma FirstChunk(cs: seq<Chunk>, k: nat, offset: nat, left: u32, limit: u32)
    requires limit > 0 && left > 0 && k <= |cs| && cs[k..] == Chunks(offset, left, limit)
    ensures k < |cs| && cs[k] == Chunk(offset, Xfer(left, limit))
    ensures cs[k + 1..] == Chunks(offset + Xfer(left, limit), left - Xfer(left, limit), limit)
    ensures cs[..k] + [Chunk(offset, Xfer(left, limit))] == cs[..k + 1]
  {
    assert cs[k] == cs[k..][0] && cs[k + 1..] == cs[k..][1..];
  }

  lemma WriteMore(file: seq<u8>, offset: nat, x: seq<u8>, done: nat, n: nat)
    requires done + n <= |x|
    ensures Put(Put(file, offset, x[..done]), offset + done, x[done..done + n]) == Put(file, offset, x[..done + n])
  {
    hide Put;
    PutAppend(file, offset, x[..done], x[done..done + n]);
    assert x[..done] + x[done..done + n] == x[..done + n];
  }

  // How many bytes the first `k` chunks are.
  function Reach(cs: seq<Chunk>, offset: nat, length: u32, k: nat): int {
    if k < |cs| then cs[k].offset - offset else length
  }

  lemma ReachIs(cs: seq<Chunk>, offset: nat, length: u32, k: nat, limit: u32, at: u32)
    requires limit > 0 && at <= length && k <= |cs| && cs[k..] == Chunks(offset + at, length - at, limit)
    ensures Reach(cs, offset, length, k) == at && (at == length ==> k == |cs|)
  {
    if at < length {
      FirstChunk(cs, k, offset + at, length - at, limit);
    }
  }

  /** segment: chunk after chunk until the range is done or one fails.  The chunks are asked for in order up to the
      first that the remote does not complete, number `k`; exactly the chunks before it took effect, and it did only if
      its answer was lost. */
  method Segment(each: Each, limit: u32, remote: Remote, x: array<u8>, offset: nat, length: u32)
    returns (ok: bool, ghost k: nat)
    requires limit > 0 && length <= x.Length
    modifies remote, x
    ensures var cs := Chunks(offset, length, limit);
      && k <= |cs| && ok == (k == |cs|)
      && (forall n | old(remote.turn) <= n < old(remote.turn) + k :: remote.plan(n) == Done)
      && (!ok ==> remote.plan(old(remote.turn) + k) != Done)
      && remote.log == old(remote.log) + cs[..if ok then k else k + 1]
      && remote.turn == old(remote.turn) + if ok then k else k + 1
    ensures 0 <= Reach(Chunks(offset, length, limit), offset, length, k) <= length
    ensures each.WriteChunk? ==>
              var done := Reach(Chunks(offset, length, limit), offset, length, k);
              && x[..] == old(x[..])
              && remote.file == Put(old(remote.file), offset,
                                    if !ok && remote.plan(old(remote.turn) + k) == Lost then
                                      x[..done + Xfer(length - done, limit)]
                                    else x[..done])
    ensures each.ReadChunk? ==>
              && remote.file == old(remote.file)
              && var done := Reach(Chunks(offset, length, limit), offset, length, k);
                 x[..] == Filled(old(x[..]), Get(remote.file, offset, done))
  {
    hide Put, Get, Filled, Chunks, Reach;
    ghost var cs := Chunks(offset, length, limit);
    NoChunks(offset + length, limit);
    k, ok := 0, true;
    var at: u32 := 0;
    NothingDone(remote.file, offset, x[..]);
    while at < length
      invariant 0 <= at <= length && k <= |cs| && ok
      invariant cs[k..] == Chunks(offset + at, length - at, limit)
      invariant forall n | old(remote.turn) <= n < old(remote.turn) + k :: remote.plan(n) == Done
      invariant remote.log == old(remote.log) + cs[..k] && remote.turn == old(remote.turn) + k
      invariant each.WriteChunk? ==> x[..] == old(x[..]) && remote.file == Put(old(remote.file), offset, x[..at])
      invariant each.ReadChunk? ==>
                remote.file == old(remote.file) && x[..] == Filled(old(x[..]), Get(remote.file, offset, at))
      decreases length - at
    {
      var n := Xfer(length - at, limit);
      FirstChunk(cs, k, offset + at, length - at, limit);
      ReachIs(cs, offset, length, k, limit, at);
      WriteMore(old(remote.file), offset, x[..], at, n);
      FilledMore(old(x[..]), remote.file, offset, at, n);
      ok := remote.Transfer(each, x, at, offset + at, n);
      if !ok {
        return;
      }
      k := k + 1;
      at := at + n;
    }
    ReachIs(cs, offset, length, k, limit, at);
  }

  lemma NothingDone(file: seq<u8>, offset: nat, x: seq<u8>)
    ensures Put(file, offset, x[..0]) == file && Filled(x, Get(file, offset, 0)) == x
  {
  }

  // The remote completes the calls from..to.
  ghost predicate AllDone(plan: nat -> Ending, from: nat, to: nat) {
    forall n | from <= n < to :: plan(n) == Done
  }

  /** What asking a remote for the chunks `cs` comes to: it is asked in order, up to the first chunk that it does not
      complete, number `k`; the whole succeeds if and only if it completes every one. */
  twostate predicate Asked(remote: Remote, cs: seq<Chunk>, ok: bool, k: nat)
    reads remote
  {
    var turn := old(remote.turn);
    && (ok <==> AllDone(remote.plan, turn, turn + |cs|))
    && AllDone(remote.plan, turn, turn + k)
    && (if ok then k == |cs| else k < |cs| && remote.plan(turn + k) != Done)
    && (var n := if ok then k else k + 1; remote.log == old(remote.log) + cs[..n] && remote.turn == turn + n)
  }

  /** readfile, with the limit the session agreed on. */
  method ReadFile(remote: Remote, dest: array<u8>, offset: nat, length: u32, maxresp: u32)
    returns (ok: bool, ghost k: nat)
    requires maxresp > 0 && length <= dest.Length
    modifies remote, dest
    ensures Asked(remote, Chunks(offset, length, maxresp), ok, k) && remote.file == old(remote.file)
    ensures 0 <= Reach(Chunks(offset, length, maxresp), offset, length, k) <= length
    ensures var done := Reach(Chunks(offset, length, maxresp), offset, length, k);
            dest[..] == Filled(old(dest[..]), Get(remote.file, offset, done))
    ensures ok ==> dest[..] == Filled(old(dest[..]), Get(remote.file, offset, length))
  {
    hide Chunks, Get, Filled;
    ok, k := Segment(ReadChunk, maxresp, remote, dest, offset, length);
  }

  /** writefile.  One that fails on a remote that loses no answers has had the effect of exactly the chunks before the
      one that failed. */
  method WriteFile(remote: Remote, source: array<u8>, offset: nat, length: u32, maxreq: u32)
    returns (ok: bool, ghost k: nat)
    requires maxreq > 0 && length <= source.Length
    modifies remote, source
    ensures Asked(remote, Chunks(offset, length, maxreq), ok, k) && source[..] == old(source[..])
    ensures ok ==> remote.file == Put(old(remote.file), offset, source[..length])
    ensures 0 <= Reach(Chunks(offset, length, maxreq), offset, length, k) <= length
    ensures !ok ==>
              var done := Reach(Chunks(offset, length, maxreq), offset, length, k);
              var lost := remote.plan(old(remote.turn) + k) == Lost;
              var reached := if lost then done + Xfer(length - done, maxreq) else done;
              remote.file == Put(old(remote.file), offset, source[..reached])
  {
    hide Chunks, Put;
    ok, k := Segment(WriteChunk, maxreq, remote, source, offset, length);
  }

  /** Any data, offset, length and two positive limits: writing and then reading back succeeds if and only if the remote
      completes every chunk of both; then what was written comes back, and the rest of the file is as it was. */
  method WriteReadBack(remote: Remote, source: array<u8>, dest: array<u8>, offset: nat, length: u32,
                       maxreq: u32, maxresp: u32)
    returns (ok: bool)
    requires maxreq > 0 && maxresp > 0 && source != dest && length <= source.Length && length <= dest.Length
    modifies remote, source, dest
    ensures var n := |Chunks(offset, length, maxreq)| + |Chunks(offset, length, maxresp)|;
            ok <==> AllDone(remote.plan, old(remote.turn), old(remote.turn) + n)
    ensures ok ==> remote.log == old(remote.log) + Chunks(offset, length, maxreq) + Chunks(offset, length, maxresp)
    ensures ok ==> dest[..length] == source[..length] == old(source[..length]) && dest[length..] == old(dest[length..])
    ensures ok ==> remote.file == Put(old(remote.file), offset, old(source[..length]))
  {
    hide Chunks, Put, Get;
    ghost var file := remote.file;
    ghost var k;
    ok, k := WriteFile(remote, source, offset, length, maxreq);
    if ok {
      ghost var data := source[..length];
      WriteThenRead(file, offset, data);
      ok, k := ReadFile(remote, dest, offset, length, maxresp);
    }
  }
}
