/** The growable byte buffer of buffer.h: a window start..end into an array that is replaced when it is full. */
module Buffer {
  import opened Bytes

  // Below this the 32-bit sizes of buffer.h cannot wrap.
  const LIMIT := 0x8000_0000

  // The capacity after growing by `len`: doubled, or more.
  function Grown(capacity: nat, len: nat): nat {
    if capacity < len then capacity + len else 2 * capacity
  }

  class ByteBuffer {
    var contents: array<u8>
    var start: nat
    var end: nat
    ghost var copied: nat  // bytes moved by growing since the buffer was last emptied

    ghost predicate Valid()
      reads this
    {
      start <= end <= contents.Length && copied <= contents.Length
    }

    ghost function Contents(): (s: seq<u8>)
      reads this, contents
      requires Valid()
      ensures |s| == Length()
    {
      contents[start..end]
    }

    ghost predicate Empty()
      reads this
    {
      start == end == 0
    }

    // Every byte copied so far is paid for by a byte that is in the buffer.
    ghost predicate Amortised()
      reads this
    {
      copied <= 2 * end
    }

    /** The window once there is room for `len` more bytes: as it is if there is, and otherwise what growing copies. */
    ghost function Roomy(len: nat): (s: seq<u8>)
      reads this, contents
      requires Valid()
      ensures start == 0 || start == end || end + len <= contents.Length ==> s == Contents()
    {
      if contents.Length < end + len then contents[..end - start] else Contents()
    }

    // What every push leaves: `tail` behind the window, and from start == 0 everything that was there before it.
    twostate predicate Pushed(room: nat, tail: seq<u8>)
      requires old(Valid())
      reads this, contents
    {
      && Valid() && contents.Length >= old(contents.Length) && (contents == old(contents) || fresh(contents))
      && Contents() == old(Roomy(room)) + tail
      && (old(end + room <= contents.Length) ==> contents == old(contents) && start == old(start))
      && (old(start) == 0 ==> start == 0)
    }

    function Length(): nat
      reads this
      requires Valid()
    {
      end - start
    }

    constructor (capacity: nat)
      ensures Valid() && fresh(contents) && Empty() && contents.Length == capacity && Amortised()
    {
      contents := new u8[capacity];
      start, end, copied := 0, 0, 0;
    }

    /** buffer_extend: make room for `len` more bytes.  The copy always begins at byte 0 of the old array. */
    method Extend(len: nat)
      requires Valid() && end + len < LIMIT
      modifies this
      ensures Valid() && end + len <= contents.Length && Contents() == old(Roomy(len))
      ensures old(end + len <= contents.Length) ==> unchanged(this)
      ensures old(end + len > contents.Length) ==>
                && fresh(contents) && contents.Length < U32_SIZE
                && contents.Length == Grown(old(contents.Length), len)
                && start == 0 && end == old(end - start)
                && copied == old(copied) + end
    {
      if contents.Length < end + len {
        var oldcap: u32 := contents.Length;
        var newcap: u32 := if 2 * oldcap > oldcap + len then 2 * oldcap else oldcap + len;
        var grown := new u8[newcap];
        var n := end - start;
        forall i | 0 <= i < n {
          grown[i] := contents[i];
        }
        copied := copied + n;
        end := n;
        start := 0;
        contents := grown;
      }
    }

    /** push_bytes, and the copy at the heart of every push. */
    method PushBytes(x: seq<u8>)
      requires Valid() && end + |x| < LIMIT
      modifies this, contents
      ensures Pushed(|x|, x)
      ensures old(Amortised() && start == 0) ==> Amortised()
    {
      Extend(|x|);
      Append(x);
    }

    // Write behind the window, where there is room.
    method Append(x: seq<u8>)
      requires Valid() && end + |x| <= contents.Length
      modifies this`end, contents
      ensures Valid() && Contents() == old(Contents()) + x && end == old(end) + |x|
    {
      forall i | 0 <= i < |x| {
        contents[end + i] := x[i];
      }
      end := end + |x|;
    }

    /** Overwrite bytes in place, at an absolute position in the array. */
    method Poke(at: nat, x: seq<u8>)
      requires at + |x| <= contents.Length
      modifies contents
      ensures contents[..] == old(contents[..at]) + x + old(contents[at + |x|..])
    {
      forall i | 0 <= i < |x| {
        contents[at + i] := x[i];
      }
    }

    /** What base_transact and read_response do with a frame `x` from the socket: empty the buffer, make room, and
        let the frame be its contents. */
    method Load(x: seq<u8>)
      requires |x| < LIMIT && Valid()
      modifies this, contents
      ensures Valid() && start == 0 && Contents() == x && (contents == old(contents) || fresh(contents))
      ensures contents.Length >= old(contents.Length)
    {
      start, end, copied := 0, 0, 0;
      Extend(|x|);
      forall i | 0 <= i < |x| {
        contents[i] := x[i];
      }
      end := |x|;
    }

    method PushChar(x: u8)
      requires Valid() && end + 1 < LIMIT
      modifies this, contents
      ensures Pushed(1, [x])
      ensures old(Amortised() && start == 0) ==> Amortised()
    {
      Extend(1);
      Append([x]);
    }

    method Concat(source: ByteBuffer)
      requires Valid() && source.Valid() && source != this && source.contents != contents
      requires end + source.end - source.start < LIMIT
      modifies this, contents
      ensures Pushed(|old(source.Contents())|, old(source.Contents()))
      ensures old(Amortised() && start == 0) ==> Amortised()
    {
      PushBytes(source.contents[source.start..source.end]);
    }

    method PushBe32(w: u32)
      requires Valid() && end + 4 < LIMIT
      modifies this, contents
      ensures Pushed(4, Be32(w))
      ensures old(Amortised() && start == 0) ==> Amortised()
    {
      PushBytes(Be32(w));
    }

    method PushBe64(d: u64)
      requires Valid() && end + 8 < LIMIT
      modifies this, contents
      ensures Pushed(8, Be64(d))
      ensures old(Amortised() && start == 0) ==> Amortised()
    {
      PushBytes(Be64(d));
    }

    /** push_string: length, data, and zeros up to a multiple of four. */
    method PushString(x: seq<u8>)
      requires Valid() && end + |x| + 8 < LIMIT
      modifies this, contents
      ensures Pushed(|x| + Fill(|x|) + 4, Be32(|x|) + x + Zeros(Fill(|x|)))
      ensures old(Amortised() && start == 0) ==> Amortised()
    {
      PadIsFill(|x|);
      var plen := Pad4(|x|) - |x|;
      Extend(|x| + plen + 4);
      Append(Be32(|x|) + x + Zeros(plen));
    }

    /** push_fixed_string: the same without the length, though it makes room for one. */
    method PushFixedString(x: seq<u8>)
      requires Valid() && end + |x| + 8 < LIMIT
      modifies this, contents
      ensures Pushed(|x| + Fill(|x|) + 4, x + Zeros(Fill(|x|)))
      ensures old(Amortised() && start == 0) && |x| >= 3 ==> Amortised()
    {
      PadIsFill(|x|);
      var plen := Pad4(|x|) - |x|;
      Extend(|x| + plen + 4);
      Append(x + Zeros(plen));
    }
  }

  // ---------- When growing keeps the window ----------

  /** The bytes that growing copies are those of the window, for every content of the array, if and only if the window
      starts at byte 0 or is empty. */
  lemma GrowthKeepsWindowIff(capacity: nat, start: nat, end: nat)
    requires start <= end <= capacity
    ensures (forall bytes: seq<u8> | |bytes| == capacity :: bytes[..end - start] == bytes[start..end])
            <==> start == 0 || start == end
  {
    if 0 < start < end {
      var bytes: seq<u8> := seq(capacity, i => if i < start then 1 else 0);
      assert bytes[..end - start][0] == 1 && bytes[start..end][0] == 0;
    } else if start == end {
      forall bytes: seq<u8> | |bytes| == capacity ensures bytes[..end - start] == bytes[start..end] {
      }
    }
  }

  // A buffer with a given array and window.
  method BufferOf(bytes: seq<u8>, start: nat, end: nat) returns (b: ByteBuffer)
    requires start <= end <= |bytes|
    ensures fresh(b) && fresh(b.contents) && b.Valid() && b.contents[..] == bytes && b.start == start && b.end == end
  {
    b := new ByteBuffer(|bytes|);
    forall i | 0 <= i < |bytes| {
      b.contents[i] := bytes[i];
    }
    b.start, b.end := start, end;
  }

  /** And so it is with buffer_extend itself: for every window that is not empty and does not start at byte 0 there is
      an array whose window growing does not keep. */
  method GrowthLosesWindow(capacity: nat, start: nat, end: nat, len: nat) returns (b: ByteBuffer, was: seq<u8>)
    requires 0 < start < end <= capacity < end + len < LIMIT
    ensures b.Valid() && |was| == end - start == |b.Contents()| && b.Contents() != was
    ensures was[0] == 0 && b.Contents()[0] == 1
  {
    var bytes: seq<u8> := seq(capacity, i => if i < start then 1 else 0);
    b := BufferOf(bytes, start, end);
    was := b.contents[b.start..b.end];
    b.Extend(len);
    assert b.Contents() == bytes[..end - start];
    assert b.Contents()[0] != was[0];
  }
}
