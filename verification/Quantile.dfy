/** The quantile summary as gk.c keeps it: a circular doubly linked list relinked in place.
    Each operation is proved to do to the list exactly what QuantileSpec says. */
module Quantile {
  import opened QuantileSpec

  class Tuple {
    const v: real
    var g: int
    var delta: int
    var next: Tuple
    var last: Tuple

    constructor (v: real)
      ensures this.v == v && g == 1 && delta == 0 && next == last == this
    {
      this.v := v;
      g, delta := 1, 0;
      next, last := this, this;
    }
  }

  // ---------- The shape of the list ----------

  function After(i: nat, n: nat): nat {
    if i + 1 == n then 0 else i + 1
  }

  function Before(i: nat, n: nat): int {
    if i == 0 then n - 1 else i - 1
  }

  // The neighbours of k once position i is passed over.
  function AfterSkip(k: nat, i: nat, n: nat): nat {
    if After(k, n) == i then After(i, n) else After(k, n)
  }

  function BeforeSkip(k: nat, i: nat, n: nat): int {
    if Before(k, n) == i then Before(i, n) else Before(k, n)
  }

  type Index = map<Tuple, nat>

  ghost predicate Indexed(nodes: seq<Tuple>, index: Index) {
    forall i | 0 <= i < |nodes| :: nodes[i] in index && index[nodes[i]] == i
  }

  // `nodes`, from the head on, is a circle in both directions, and no tuple occurs twice.
  ghost predicate Linked(nodes: seq<Tuple>, index: Index)
    reads nodes
  {
    && Indexed(nodes, index)
    && (forall i {:trigger nodes[i].next} | 0 <= i < |nodes| :: nodes[i].next == nodes[After(i, |nodes|)])
    && (forall i {:trigger nodes[i].last} | 0 <= i < |nodes| :: nodes[i].last == nodes[Before(i, |nodes|)])
  }

  // The links of every other tuple pass over position i.
  ghost predicate Skips(was: seq<Tuple>, i: nat)
    requires i < |was|
    reads was
  {
    && (forall k {:trigger was[k].next} | 0 <= k < |was| && k != i :: was[k].next == was[AfterSkip(k, i, |was|)])
    && (forall k {:trigger was[k].last} | 0 <= k < |was| && k != i :: was[k].last == was[BeforeSkip(k, i, |was|)])
  }

  // The links run through `t` just before position q.
  ghost predicate Spliced(was: seq<Tuple>, q: nat, t: Tuple)
    requires q < |was|
    reads was, t
  {
    var p := Before(q, |was|);
    && t.next == was[q] && t.last == was[p]
    && (forall k {:trigger was[k].next} | 0 <= k < |was| :: was[k].next == if k == p then t else was[After(k, |was|)])
    && (forall k {:trigger was[k].last} | 0 <= k < |was| :: was[k].last == if k == q then t else was[Before(k, |was|)])
  }

  ghost function Without(index: Index, t: Tuple): Index
    requires t in index
  {
    map u | u in index && u != t :: if index[u] <= index[t] then index[u] else index[u] - 1
  }

  ghost function With(index: Index, p: nat, t: Tuple): Index {
    (map u | u in index :: if index[u] < p then index[u] else index[u] + 1)[t := p]
  }

  lemma SkipsIsLinked(was: seq<Tuple>, index: Index, i: nat)
    requires i < |was| && |was| > 1 && Skips(was, i) && Indexed(was, index)
    ensures Linked(was[..i] + was[i + 1..], Without(index, was[i]))
  {
    var nodes := was[..i] + was[i + 1..];
    forall k | 0 <= k < |nodes|
      ensures nodes[k].next == nodes[After(k, |nodes|)] && nodes[k].last == nodes[Before(k, |nodes|)]
    {
      var j := if k < i then k else k + 1;
      assert nodes[k] == was[j];
      assert was[j].next == was[AfterSkip(j, i, |was|)] && was[j].last == was[BeforeSkip(j, i, |was|)];
    }
  }

  lemma SplicedIsLinked(was: seq<Tuple>, index: Index, p: nat, t: Tuple)
    requires p <= |was| && was != [] && t !in was && Indexed(was, index)
    requires Spliced(was, if p < |was| then p else 0, t)
    ensures Linked(was[..p] + [t] + was[p..], With(index, p, t))
  {
    var q := if p < |was| then p else 0;
    var nodes := was[..p] + [t] + was[p..];
    forall k | 0 <= k < |nodes|
      ensures nodes[k].next == nodes[After(k, |nodes|)] && nodes[k].last == nodes[Before(k, |nodes|)]
    {
      if k != p {
        var j := if k < p then k else k - 1;
        assert nodes[k] == was[j];
        assert was[j].next == if j == Before(q, |was|) then t else was[After(j, |was|)];
        assert was[j].last == if j == q then t else was[Before(j, |was|)];
      }
    }
  }

  lemma LinkedIsIndexed(nodes: seq<Tuple>, index: Index)
    requires Linked(nodes, index)
    ensures Indexed(nodes, index)
  {
  }

  lemma SingleIsLinked(t: Tuple)
    requires t.next == t.last == t
    ensures Linked([t], map[t := 0])
  {
  }

  method Unlink(t: Tuple, ghost was: seq<Tuple>, ghost index: Index, ghost i: nat)
    requires i < |was| && |was| > 1 && was[i] == t && Linked(was, index)
    modifies was
    ensures Skips(was, i)
    ensures forall u | u in was :: u.g == old(u.g) && u.delta == old(u.delta)
  {
    ghost var p, q := Before(i, |was|), After(i, |was|);
    assert was[i].next == was[q] && was[i].last == was[p];
    assert was[p] in was && was[q] in was;
    t.next.last := t.last;
    t.last.next := t.next;
  }

  method Splice(t: Tuple, i: Tuple, ghost was: seq<Tuple>, ghost index: Index, ghost q: nat)
    requires q < |was| && was[q] == i && t !in was && Linked(was, index)
    modifies was, t`next, t`last
    ensures Spliced(was, q, t)
    ensures forall u | u in was || u == t :: u.g == old(u.g) && u.delta == old(u.delta)
  {
    ghost var p := Before(q, |was|);
    assert was[q].last == was[p];
    assert was[p] in was && was[q] in was;
    t.next := i;
    t.last := i.last;
    t.last.next := t;
    t.next.last := t;
  }

  // ---------- The summary ----------

  ghost function ItemsOf(ts: seq<Tuple>): (xs: seq<Item>)
    reads ts
    ensures |xs| == |ts| && forall i | 0 <= i < |ts| :: xs[i] == Item(ts[i].v, ts[i].g, ts[i].delta)
  {
    seq(|ts|, i requires 0 <= i < |ts| reads ts => Item(ts[i].v, ts[i].g, ts[i].delta))
  }

  class Summary {
    var head: Tuple?
    var n: nat
    const epsilon: Epsilon
    const band: Band
    ghost var nodes: seq<Tuple>  // the list, from the head on
    ghost var index: Index       // where each of them stands
    ghost var repr: set<Tuple>   // every tuple the list may touch

    ghost predicate Valid()
      reads this, repr
    {
      && head == (if nodes == [] then null else nodes[0])
      && (forall i | 0 <= i < |nodes| :: nodes[i] in repr)
      && Linked(nodes, index)
    }

    ghost function Items(): (xs: seq<Item>)
      reads this`nodes, nodes
      ensures |xs| == |nodes|
      ensures forall i | 0 <= i < |nodes| :: xs[i] == Item(nodes[i].v, nodes[i].g, nodes[i].delta)
    {
      ItemsOf(nodes)
    }

    ghost function State(): Gk
      reads this, nodes
    {
      Gk(Items(), n)
    }

    constructor (epsilon: Epsilon, band: Band)
      ensures Valid() && State() == Gk([], 0) && this.epsilon == epsilon && this.band == band && repr == {}
    {
      this.epsilon := epsilon;
      this.band := band;
      head, n, nodes, index, repr := null, 0, [], map[], {};
    }

    /** Unlink a tuple that is not alone in the list. */
    method Delete(t: Tuple, ghost i: nat)
      requires Valid() && i < |nodes| && nodes[i] == t && |nodes| > 1
      modifies this`head, this`nodes, this`index, repr
      ensures Valid() && nodes == old(nodes)[..i] + old(nodes)[i + 1..]
      ensures forall u | u in old(nodes) :: u.g == old(u.g) && u.delta == old(u.delta)
    {
      if t == head {
        assert index[t] == i == 0;
        assert nodes[0].next == nodes[1];
        head := head.next;
      }
      Unlink(t, nodes, index, i);
      SkipsIsLinked(nodes, index, i);
      nodes, index := nodes[..i] + nodes[i + 1..], Without(index, t);
    }

    // Merge the tuple before position k into the one at k.
    method MergeBack(a: Tuple, b: Tuple, ghost k: nat)
      requires Valid() && k + 1 < |nodes| && nodes[k] == a && nodes[k + 1] == b
      modifies this`head, this`nodes, this`index, repr
      ensures Valid() && nodes == old(nodes)[..k] + old(nodes)[k + 1..]
      ensures Items() == Merge(old(Items()), k)
    {
      hide ItemsOf;
      ghost var xs, was := Items(), nodes;
      assert nodes[k + 1] in nodes && index[b] == k + 1;
      b.g := b.g + a.g;
      Delete(a, k);
      MergedItems(xs, was, k);
    }

    /** Merge every tuple into its successor that fits, from the tail towards the head. */
    method CompressList()
      requires Valid() && nodes != []
      modifies this`head, this`nodes, this`index, repr
      ensures Valid() && nodes != []
      ensures Items() == Compress(old(Items()), |old(nodes)| - 1, Err(n, epsilon), band)
    {
      hide ItemsOf;
      var threshold := Err(n, epsilon);
      assert nodes[0].last == nodes[|nodes| - 1];
      var b: Tuple := head.last;
      ghost var k := |nodes| - 1;
      while b != head
        invariant Valid() && 0 <= k < |nodes| && nodes[k] == b
        invariant Compress(Items(), k, threshold, band) == Compress(old(Items()), |old(nodes)| - 1, threshold, band)
        decreases k
      {
        var a := b.last;
        assert nodes[k].last == nodes[k - 1];
        if band(threshold, a.delta) <= band(threshold, b.delta) && a.g + b.g + b.delta <= threshold {
          MergeBack(a, b, k - 1);
        } else {
          b := a;
        }
        k := k - 1;
      }
    }

    // After position a was deleted from `was`, with its g added to its successor, the items are merged.
    lemma MergedItems(xs: seq<Item>, was: seq<Tuple>, a: nat)
      requires a + 1 < |was| == |xs| && nodes == was[..a] + was[a + 1..]
      requires forall i | 0 <= i < |was| ::
                 Item(was[i].v, was[i].g, was[i].delta) == if i == a + 1 then xs[i].(g := xs[i].g + xs[a].g) else xs[i]
      ensures Items() == Merge(xs, a)
    {
      forall i | 0 <= i < |nodes| ensures Items()[i] == Merge(xs, a)[i] {
        assert nodes[i] == was[if i < a then i else i + 1];
      }
    }

    lemma InsertedItems(xs: seq<Item>, was: seq<Tuple>, p: nat, t: Tuple)
      requires p <= |was| == |xs| && nodes == was[..p] + [t] + was[p..]
      requires forall i | 0 <= i < |was| :: Item(was[i].v, was[i].g, was[i].delta) == xs[i]
      ensures Items() == InsertAt(xs, p, Item(t.v, t.g, t.delta))
    {
      forall i | 0 <= i < |nodes| ensures Items()[i] == InsertAt(xs, p, Item(t.v, t.g, t.delta))[i] {
        assert i != p ==> nodes[i] == was[if i < p then i else i - 1];
      }
    }

    /** Add one value to the stream: the first is never the time to compress.  The counter is doubled in 32 bits, which
        bounds the stream. */
    method Add(v: real)
      requires Valid() && n + 1 < 0x4000_0000
      requires Due(n + 1, epsilon) ==> nodes != []
      modifies this, repr
      ensures Valid() && nodes != [] && fresh(repr - old(repr))
      ensures State() == Insert(old(State()), v, epsilon, band)
    {
      hide Due, Compressed, Place, Linked, ItemsOf;
      n := n + 1;
      CompressWhenDue();
      PlaceValue(v);
    }

    // The first half of an insertion: make room.
    method CompressWhenDue()
      requires Valid() && (Due(n, epsilon) ==> nodes != [])
      modifies this`head, this`nodes, this`index, repr
      ensures Valid() && Items() == Compressed(old(Items()), n, epsilon, band)
    {
      hide Due, Err, Compress, Linked, ItemsOf;
      if Due(n, epsilon) {
        CompressList();
      }
    }

    // The second half of an insertion: link a new tuple in.
    method PlaceValue(v: real)
      requires Valid()
      modifies this`head, this`nodes, this`index, this`repr, repr
      ensures Valid() && nodes != [] && fresh(repr - old(repr))
      ensures Items() == Place(old(Items()), v, Err(n, epsilon))
    {
      hide Err, Slot, InsertAt, With, Linked, ItemsOf;
      var t := new Tuple(v);
      if head == null || head.v > v {
        if head != null {
          LinkBefore(t, head, 0);
        } else {
          nodes, index, repr := [t], map[t := 0], repr + {t};
          SingleIsLinked(t);
          InsertedItems([], [], 0, t);
        }
        head := t;
      } else {
        var i, p := FindSlot(v);
        if i != head {
          t.delta := Err(n, epsilon) - 1;
        }
        LinkBefore(t, i, p);
      }
    }

    // Link `t` in before `i`, at position p.
    method LinkBefore(t: Tuple, i: Tuple, ghost p: nat)
      requires Valid() && nodes != [] && t !in repr && p <= |nodes|
      requires i == nodes[if p < |nodes| then p else 0]
      modifies this`nodes, this`index, this`repr, repr, t`next, t`last
      ensures Linked(nodes, index) && repr == old(repr) + {t} && nodes == old(nodes)[..p] + [t] + old(nodes)[p..]
      ensures forall k | 0 <= k < |nodes| :: nodes[k] in repr
      ensures Items() == InsertAt(old(Items()), p, Item(t.v, t.g, t.delta))
    {
      hide Linked, Spliced, With, InsertAt, ItemsOf;
      ghost var xs, was := Items(), nodes;
      LinkedIsIndexed(nodes, index);
      Splice(t, i, was, index, if p < |was| then p else 0);
      SplicedIsLinked(was, index, p, t);
      nodes, index, repr := was[..p] + [t] + was[p..], With(index, p, t), repr + {t};
      InsertedItems(xs, was, p, t);
    }

    // The first tuple after the head whose value exceeds v, or the head again.
    method FindSlot(v: real) returns (i: Tuple, ghost p: nat)
      requires Valid() && nodes != [] && head.v <= v
      ensures p == Slot(Items(), v, 1) && i == nodes[if p < |nodes| then p else 0]
      ensures i == head <==> p == |nodes|
    {
      assert nodes[0].next == nodes[After(0, |nodes|)];
      i, p := head.next, 1;
      while i.v <= v && i != head
        invariant 1 <= p <= |nodes| && i == nodes[if p < |nodes| then p else 0]
        invariant Slot(Items(), v, 1) == Slot(Items(), v, p)
        decreases |nodes| - p
      {
        assert nodes[p].next == nodes[After(p, |nodes|)];
        i := i.next;
        p := p + 1;
      }
      assert i == head ==> index[i] == 0;
    }
  }

  /** Any stream, value by value into a new list: a well-formed circular list that summarizes it. */
  method SummaryOf(vs: seq<real>, epsilon: Epsilon, band: Band) returns (s: Summary)
    requires |vs| < 0x4000_0000
    ensures fresh(s) && s.Valid() && s.State() == InsertAll(vs, epsilon, band)
    ensures Summarizes(s.State(), vs, epsilon)
  {
    hide InsertAll, Summarizes, Summary.Valid, Linked, Insert, Due, Place, Compressed, ItemsOf;
    s := new Summary(epsilon, band);
    NothingInserted(epsilon, band);
    var k := 0;
    while k < |vs|
      invariant 0 <= k <= |vs| && fresh(s) && fresh(s.repr) && s.Valid() && s.epsilon == epsilon && s.band == band
      invariant s.State() == InsertAll(vs[..k], epsilon, band) && s.n == k && (s.nodes == [] ==> k == 0)
    {
      OneMoreInserted(vs, k, epsilon, band);
      s.Add(vs[k]);
      k := k + 1;
    }
    assert vs[..k] == vs;
    InsertAllSummarizes(vs, epsilon, band);
  }

  lemma NothingInserted(epsilon: Epsilon, band: Band)
    ensures InsertAll([], epsilon, band) == Gk([], 0)
  {
  }

  lemma OneMoreInserted(vs: seq<real>, k: nat, epsilon: Epsilon, band: Band)
    requires k < |vs|
    ensures var s := InsertAll(vs[..k], epsilon, band);
      && (Due(s.n + 1, epsilon) ==> s.items != [])
      && InsertAll(vs[..k + 1], epsilon, band) == Insert(s, vs[k], epsilon, band)
  {
    NotDueAtFirst(epsilon);
    assert vs[..k + 1][..k] == vs[..k];
  }
}
