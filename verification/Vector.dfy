/** The vectors of vector.h, and the paths they hold: split and join. */
module Vector {
  import opened Bytes
  import opened Buffer

  /** A vector of buffers: pushed at the end, popped at the start. */
  class Vector {
    var items: seq<ByteBuffer>

    constructor ()
      ensures items == []
    {
      items := [];
    }

    method Push(b: ByteBuffer)
      modifies this
      ensures items == old(items) + [b]
    {
      items := items + [b];
    }

    /** The source panics when there is nothing to pop. */
    method Pop() returns (b: ByteBuffer)
      requires items != []
      modifies this
      ensures old(items) == [b] + items
    {
      b := items[0];
      items := items[1..];
    }
  }

  // ---------- Splitting and joining, on values ----------

  datatype Parts = Parts(done: seq<seq<u8>>, last: seq<u8>)

  /** What stands between dividers: the components ended by one, and what follows the last. */
  function PartsOf(s: seq<u8>, divider: u8): Parts {
    if s == [] then Parts([], [])
    else
      var p, c := PartsOf(s[..|s| - 1], divider), s[|s| - 1];
      if c == divider then Parts(p.done + [p.last], []) else Parts(p.done, p.last + [c])
  }

  function SplitAt(s: seq<u8>, divider: u8): seq<seq<u8>> {
    var p := PartsOf(s, divider);
    if p.last == [] then p.done else p.done + [p.last]
  }

  function Joined(v: seq<seq<u8>>, between: u8): seq<u8> {
    if v == [] then []
    else if |v| == 1 then v[0]
    else Joined(v[..|v| - 1], between) + [between] + v[|v| - 1]
  }

  lemma JoinedSnoc(v: seq<seq<u8>>, x: seq<u8>, d: u8)
    ensures Joined(v + [x], d) == if v == [] then x else Joined(v, d) + [d] + x
  {
    assert (v + [x])[..|v|] == v;
  }

  lemma {:induction false} PartsJoin(s: seq<u8>, d: u8)
    ensures var p := PartsOf(s, d);
      && Joined(p.done + [p.last], d) == s
      && (s != [] ==> (p.last == [] <==> s[|s| - 1] == d))
      && (p.last == [] && p.done == [] <==> s == [])
  {
    if s == [] {
      var none: seq<seq<u8>> := [];
      assert none + [[]] == [[]];
    } else {
      var front, c := s[..|s| - 1], s[|s| - 1];
      PartsJoin(front, d);
      OneMoreByte(PartsOf(front, d), c, d);
      assert front + [c] == s;
    }
  }

  lemma OneMoreByte(q: Parts, c: u8, d: u8)
    ensures c == d ==> Joined(q.done + [q.last] + [[]], d) == Joined(q.done + [q.last], d) + [c]
    ensures Joined(q.done + [q.last + [c]], d) == Joined(q.done + [q.last], d) + [c]
  {
    hide Joined;
    JoinedSnoc(q.done, q.last, d);
    JoinedSnoc(q.done, q.last + [c], d);
    JoinedSnoc(q.done + [q.last], [], d);
    assert Joined(q.done, d) + [d] + (q.last + [c]) == Joined(q.done, d) + [d] + q.last + [c];
  }

  /** Joining what was split gives the text back, less one divider at its end. */
  lemma JoinOfSplit(s: seq<u8>, d: u8)
    ensures Joined(SplitAt(s, d), d) == if s != [] && s[|s| - 1] == d then s[..|s| - 1] else s
  {
    PartsJoin(s, d);
    var p := PartsOf(s, d);
    JoinedSnoc(p.done, p.last, d);
    if p.last == [] && s != [] {
      assert Joined(p.done, d) + [d] + [] == s;
      assert s[..|s| - 1] == Joined(p.done, d);
    }
  }

  predicate Free(x: seq<u8>, d: u8) {
    forall i | 0 <= i < |x| :: x[i] != d
  }

  lemma {:induction false} PartsFree(s: seq<u8>, d: u8)
    ensures var p := PartsOf(s, d); Free(p.last, d) && forall i | 0 <= i < |p.done| :: Free(p.done[i], d)
  {
    if s != [] {
      PartsFree(s[..|s| - 1], d);
    }
  }

  lemma {:induction false} PartsOfAppend(s: seq<u8>, x: seq<u8>, d: u8)
    requires Free(x, d)
    ensures PartsOf(s + x, d) == Parts(PartsOf(s, d).done, PartsOf(s, d).last + x)
    decreases |x|
  {
    hide PartsOf;
    var p := PartsOf(s, d);
    if x == [] {
      assert s + x == s && p.last + x == p.last;
    } else {
      var front, c := x[..|x| - 1], x[|x| - 1];
      PartsOfAppend(s, front, d);
      PartsSnoc(s + front, c, d);
      assert (s + front) + [c] == s + x && p.last + front + [c] == p.last + x;
    }
  }

  lemma PartsSnoc(s: seq<u8>, c: u8, d: u8)
    ensures var p := PartsOf(s, d);
      PartsOf(s + [c], d) == if c == d then Parts(p.done + [p.last], []) else Parts(p.done, p.last + [c])
  {
    assert (s + [c])[..|s|] == s;
  }

  lemma {:induction false} PartsOfJoined(v: seq<seq<u8>>, d: u8)
    requires v != [] && forall i | 0 <= i < |v| :: Free(v[i], d)
    ensures PartsOf(Joined(v, d), d) == Parts(v[..|v| - 1], v[|v| - 1])
  {
    var front, x := v[..|v| - 1], v[|v| - 1];
    if front == [] {
      PartsOfAppend([], x, d);
      assert [] + x == x;
    } else {
      PartsOfJoined(front, d);
      var s := Joined(front, d);
      PartsSnoc(s, d, d);
      assert front[..|front| - 1] + [front[|front| - 1]] == front;
      PartsOfAppend(s + [d], x, d);
      assert [] + x == x;
    }
  }

  /** Splitting what was joined gives the components back exactly when none of them contains the divider and the
      last one, if any, is not empty. */
  lemma SplitOfJoinIff(v: seq<seq<u8>>, d: u8)
    ensures SplitAt(Joined(v, d), d) == v
            <==> (forall i | 0 <= i < |v| :: Free(v[i], d)) && (v == [] || v[|v| - 1] != [])
  {
    hide PartsOf, Joined, SplitAt, Free;
    if AllFree(v, d) {
      SplitOfFree(v, d);
    } else {
      SplitIsFree(Joined(v, d), d);
    }
  }

  predicate AllFree(v: seq<seq<u8>>, d: u8) {
    forall i | 0 <= i < |v| :: Free(v[i], d)
  }

  lemma SplitIsFree(s: seq<u8>, d: u8)
    ensures AllFree(SplitAt(s, d), d)
  {
    hide PartsOf, Free;
    PartsFree(s, d);
  }

  lemma SplitOfFree(v: seq<seq<u8>>, d: u8)
    requires AllFree(v, d)
    ensures SplitAt(Joined(v, d), d) == v <==> v == [] || v[|v| - 1] != []
  {
    hide Free;
    if v != [] {
      PartsOfJoined(v, d);
      hide PartsOf, Joined;
      assert v[..|v| - 1] + [v[|v| - 1]] == v;
    }
  }

  // ---------- The loops ----------

  // The buffers hold these texts.
  ghost predicate Shows(items: seq<ByteBuffer>, v: seq<seq<u8>>)
    reads items, set i | 0 <= i < |items| :: items[i].contents
  {
    && |items| == |v|
    && forall i | 0 <= i < |items| :: items[i].Valid() && items[i].start == 0 && items[i].Contents() == v[i]
  }

  // None of the buffers is `b`, or shares its bytes.
  ghost predicate Apart(items: seq<ByteBuffer>, b: ByteBuffer)
    reads items, b
  {
    forall i | 0 <= i < |items| :: items[i] != b && items[i].contents != b.contents
  }

  // In the middle of a split: finished components in `result`, the current one in `each`.
  ghost predicate Splitting(result: Vector, each: ByteBuffer, p: Parts)
    reads result, each, each.contents, result.items, set i | 0 <= i < |result.items| :: result.items[i].contents
  {
    && Shows(result.items, p.done) && Apart(result.items, each)
    && each.Valid() && each.start == 0 && each.Contents() == p.last
  }

  method SplitByte(result: Vector, each: ByteBuffer, c: u8, divider: u8, ghost p: Parts) returns (next: ByteBuffer)
    requires Splitting(result, each, p) && each.end + 1 < LIMIT
    modifies result, each, each.contents
    ensures Splitting(result, next, if c == divider then Parts(p.done + [p.last], []) else Parts(p.done, p.last + [c]))
    ensures next == each || fresh(next)
    ensures next.contents == old(each.contents) || fresh(next.contents)
    ensures result.items == if c == divider then old(result.items) + [each] else old(result.items)
    ensures each.contents == old(each.contents) || fresh(each.contents)
  {
    next := each;
    if c == divider {
      result.Push(each);
      next := new ByteBuffer(10);
    } else {
      each.PushChar(c);
    }
  }

  /** split: one pass over the bytes, with a new buffer behind each divider. */
  method Split(source: ByteBuffer, divider: u8) returns (result: Vector)
    requires source.Valid() && source.end < LIMIT
    ensures fresh(result) && Shows(result.items, SplitAt(source.Contents(), divider))
  {
    hide PartsOf, SplitAt, Splitting, Shows;
    result := new Vector();
    var each := new ByteBuffer(10);
    ghost var s := source.Contents();
    PartsStart(s, divider);
    SplittingStarts(result, each);
    var j := 0;
    while j < source.Length()
      invariant 0 <= j <= |s| && unchanged(source) && unchanged(source.contents)
      invariant fresh(result) && fresh(each) && fresh(each.contents)
      invariant Splitting(result, each, PartsOf(s[..j], divider))
    {
      PartsStep(s, j, divider);
      PartsSize(s[..j], divider);
      SplittingMeans(result, each, PartsOf(s[..j], divider));
      each := SplitByte(result, each, source.contents[source.start + j], divider, PartsOf(s[..j], divider));
      j := j + 1;
    }
    assert s[..j] == s;
    SplittingMeans(result, each, PartsOf(s, divider));
    if each.Length() > 0 {
      ShowsMore(result.items, PartsOf(s, divider).done, each);
      result.Push(each);
    }
    Finished(s, divider);
  }

  lemma SplittingStarts(result: Vector, each: ByteBuffer)
    requires result.items == [] && each.Valid() && each.start == each.end == 0
    ensures Splitting(result, each, Parts([], []))
  {
  }

  lemma SplittingMeans(result: Vector, each: ByteBuffer, p: Parts)
    requires Splitting(result, each, p)
    ensures Shows(result.items, p.done) && each.Valid() && each.start == 0 && each.end == |p.last|
    ensures each.Contents() == p.last
  {
    hide Shows;
  }

  lemma {:induction false} PartsSize(s: seq<u8>, d: u8)
    ensures |PartsOf(s, d).last| <= |s|
  {
    if s != [] {
      PartsSize(s[..|s| - 1], d);
    }
  }

  lemma Finished(s: seq<u8>, d: u8)
    ensures var p := PartsOf(s, d); SplitAt(s, d) == if |p.last| > 0 then p.done + [p.last] else p.done
  {
  }

  lemma ShowsMore(items: seq<ByteBuffer>, v: seq<seq<u8>>, b: ByteBuffer)
    requires Shows(items, v) && b.Valid() && b.start == 0
    ensures Shows(items + [b], v + [b.Contents()])
  {
  }

  lemma PartsStart(s: seq<u8>, d: u8)
    ensures PartsOf(s[..0], d) == Parts([], [])
  {
  }

  lemma PartsStep(s: seq<u8>, j: nat, d: u8)
    requires j < |s|
    ensures var p := PartsOf(s[..j], d);
      PartsOf(s[..j + 1], d) == if s[j] == d then Parts(p.done + [p.last], []) else Parts(p.done, p.last + [s[j]])
  {
    assert s[..j + 1][..j] == s[..j];
  }

  function Total(v: seq<seq<u8>>): nat {
    if v == [] then 0 else Total(v[..|v| - 1]) + |v[|v| - 1]| + 1
  }

  lemma {:induction false} TotalGrows(v: seq<seq<u8>>, i: nat)
    requires i < |v|
    ensures Total(v[..i + 1]) == Total(v[..i]) + |v[i]| + 1 <= Total(v)
    decreases |v| - i
  {
    assert v[..i + 1][..i] == v[..i];
    if i + 1 < |v| {
      TotalGrows(v, i + 1);
    } else {
      assert v[..i + 1] == v;
    }
  }

  /** join: the components with a byte between each two. */
  method Join(source: Vector, between: u8, ghost v: seq<seq<u8>>) returns (out: ByteBuffer)
    requires Shows(source.items, v) && Total(v) < LIMIT
    ensures fresh(out) && out.Valid() && out.Contents() == Joined(v, between)
  {
    hide Joined, Shows, Total;
    out := new ByteBuffer(100);
    JoinedStart(v, between);
    SameLength(source.items, v);
    var i := 0;
    while i < |source.items|
      invariant 0 <= i <= |source.items| == |v| && source.items == old(source.items) && Shows(source.items, v)
      invariant fresh(out) && fresh(out.contents) && out.Valid() && out.start == 0
      invariant out.Contents() == Joined(v[..i], between) && out.end <= Total(v[..i])
    {
      TotalGrows(v, i);
      JoinedStep(v, i, between);
      ShowsAt(source.items, v, i);
      JoinOne(out, source.items[i], i != 0, between);
      i := i + 1;
    }
    assert v[..i] == v;
  }

  lemma SameLength(items: seq<ByteBuffer>, v: seq<seq<u8>>)
    requires Shows(items, v)
    ensures |items| == |v|
  {
  }

  lemma ShowsAt(items: seq<ByteBuffer>, v: seq<seq<u8>>, i: nat)
    requires Shows(items, v) && i < |v|
    ensures i < |items| && items[i].Valid() && items[i].start == 0 && items[i].Contents() == v[i]
  {
  }

  method JoinOne(out: ByteBuffer, b: ByteBuffer, divided: bool, between: u8)
    requires out.Valid() && out.start == 0 && b.Valid() && b.start == 0 && b != out && b.contents != out.contents
    requires out.end + b.end + 1 < LIMIT
    modifies out, out.contents
    ensures out.Valid() && out.start == 0 && (out.contents == old(out.contents) || fresh(out.contents))
    ensures out.Contents() == (if divided then old(out.Contents()) + [between] else old(out.Contents())) + b.Contents()
  {
    if divided {
      out.PushChar(between);
    }
    out.Concat(b);
  }

  lemma JoinedStart(v: seq<seq<u8>>, d: u8)
    ensures Joined(v[..0], d) == [] && Total(v[..0]) == 0
  {
  }

  lemma JoinedStep(v: seq<seq<u8>>, i: nat, d: u8)
    requires i < |v|
    ensures Joined(v[..i + 1], d) == (if i == 0 then Joined(v[..i], d) else Joined(v[..i], d) + [d]) + v[i]
  {
    JoinedSnoc(v[..i], v[i], d);
    assert v[..i] + [v[i]] == v[..i + 1];
    assert [] + v[i] == v[i];
  }
}
