/** The streaming quantile summary of gk.c, on sequences: what one insertion does to the list of
    tuples, and what the list says about every stream of inserted values. */
module QuantileSpec {

  // A tuple: a kept value, the number of inserted values it stands for beyond its predecessor, and its slack.
  datatype Item = Item(v: real, g: int, delta: int)

  // The band of a tuple, from the current error and the tuple's delta; any function will do here.
  type Band = (int, int) -> int

  datatype Gk = Gk(items: seq<Item>, n: nat)

  const SCALE := 0x1_0000_0000

  // epsilon is a fixed-point fraction of 2^32; above 0x7fffffff the first insertion compresses an empty list.
  type Epsilon = e: int | 1 <= e <= 0x7fff_ffff witness 1

  function Err(n: nat, epsilon: Epsilon): nat {
    n * 2 * epsilon / SCALE
  }

  function Period(epsilon: int): int
    requires epsilon > 0
  {
    0xffff_ffff / epsilon
  }

  /** Every epsilon of one half or more makes the very first insertion compress, with no list yet to compress. */
  lemma FirstInsertCompressesIff(epsilon: int)
    requires 0 < epsilon < SCALE
    ensures 1 % Period(epsilon) == 0 <==> epsilon > 0x7fff_ffff
  {
    if epsilon > 0x7fff_ffff {
      assert Period(epsilon) == 1;
    } else {
      assert Period(epsilon) >= 2;
    }
  }

  // ---------- One insertion ----------

  predicate Mergeable(a: Item, b: Item, threshold: int, band: Band) {
    band(threshold, a.delta) <= band(threshold, b.delta) && a.g + b.g + b.delta <= threshold
  }

  // The tuple at `a` disappears into its successor.
  function Merge(xs: seq<Item>, a: nat): seq<Item>
    requires a + 1 < |xs|
  {
    xs[..a] + [xs[a + 1].(g := xs[a + 1].g + xs[a].g)] + xs[a + 2..]
  }

  /** Walk from position `b` towards the head, merging each predecessor that fits. */
  function Compress(xs: seq<Item>, b: nat, threshold: int, band: Band): (r: seq<Item>)
    requires b < |xs|
    ensures 0 < |r| <= |xs|
    decreases b
  {
    if b == 0 then xs
    else if Mergeable(xs[b - 1], xs[b], threshold, band) then Compress(Merge(xs, b - 1), b - 1, threshold, band)
    else Compress(xs, b - 1, threshold, band)
  }

  // The first position from `i` on whose value exceeds v.
  function Slot(xs: seq<Item>, v: real, i: nat): (p: nat)
    requires i <= |xs|
    ensures i <= p <= |xs|
    ensures forall k | i <= k < p :: xs[k].v <= v
    ensures p < |xs| ==> xs[p].v > v
    decreases |xs| - i
  {
    if i == |xs| || xs[i].v > v then i else Slot(xs, v, i + 1)
  }

  function InsertAt(xs: seq<Item>, p: nat, x: Item): seq<Item>
    requires p <= |xs|
  {
    xs[..p] + [x] + xs[p..]
  }

  function Place(xs: seq<Item>, v: real, err: int): seq<Item> {
    if xs == [] || xs[0].v > v then InsertAt(xs, 0, Item(v, 1, 0))
    else
      var p := Slot(xs, v, 1);
      InsertAt(xs, p, Item(v, 1, if p < |xs| then err - 1 else 0))
  }

  predicate Due(n: nat, epsilon: Epsilon) {
    n % Period(epsilon) == 0
  }

  lemma NotDueAtFirst(epsilon: Epsilon)
    ensures !Due(1, epsilon)
  {
    FirstInsertCompressesIff(epsilon);
  }

  function Compressed(xs: seq<Item>, n: nat, epsilon: Epsilon, band: Band): seq<Item>
    requires Due(n, epsilon) ==> xs != []
  {
    if Due(n, epsilon) then Compress(xs, |xs| - 1, Err(n, epsilon), band) else xs
  }

  function Insert(s: Gk, v: real, epsilon: Epsilon, band: Band): (r: Gk)
    requires Due(s.n + 1, epsilon) ==> s.items != []
    ensures r.n == s.n + 1 && r.items != []
  {
    var n := s.n + 1;
    Gk(Place(Compressed(s.items, n, epsilon, band), v, Err(n, epsilon)), n)
  }

  // ---------- What the list says about the stream ----------

  function RankAt(xs: seq<Item>, k: nat): int
    requires k <= |xs|
  {
    if k == 0 then 0 else RankAt(xs, k - 1) + xs[k - 1].g
  }

  /** How many values of the stream do not exceed x. */
  function CountUpTo(vs: seq<real>, x: real): nat {
    if vs == [] then 0
    else CountUpTo(vs[..|vs| - 1], x) + (if vs[|vs| - 1] <= x then 1 else 0)
  }

  ghost predicate Sorted(xs: seq<Item>) {
    forall i, j | 0 <= i < j < |xs| :: xs[i].v <= xs[j].v
  }

  ghost predicate Slack(xs: seq<Item>, bound: int) {
    forall i | 0 <= i < |xs| :: xs[i].g >= 1 && xs[i].g + xs[i].delta <= bound
  }

  ghost predicate RanksHold(xs: seq<Item>, vs: seq<real>) {
    forall i | 0 <= i < |xs| :: RankAt(xs, i + 1) <= CountUpTo(vs, xs[i].v)
  }

  function SlackBound(n: nat, epsilon: Epsilon): int {
    if Err(n, epsilon) < 1 then 1 else Err(n, epsilon)
  }

  ghost predicate TailIsMax(xs: seq<Item>, vs: seq<real>) {
    xs != [] ==> xs[|xs| - 1].v in vs && forall k | 0 <= k < |vs| :: vs[k] <= xs[|xs| - 1].v
  }

  /** The invariant of a summary `s` of the stream `vs`. */
  ghost predicate Summarizes(s: Gk, vs: seq<real>, epsilon: Epsilon) {
    && s.n == |vs|
    && (s.items == [] <==> vs == [])
    && Sorted(s.items)
    && RankAt(s.items, |s.items|) == s.n
    && Slack(s.items, SlackBound(s.n, epsilon))
    && RanksHold(s.items, vs)
    && TailIsMax(s.items, vs)
  }

  lemma {:induction false} MergeRanks(xs: seq<Item>, a: nat, k: nat)
    requires a + 1 < |xs| && k < |xs|
    ensures RankAt(Merge(xs, a), k) == if k <= a then RankAt(xs, k) else RankAt(xs, k + 1)
  {
    if k > 0 {
      MergeRanks(xs, a, k - 1);
    }
  }

  lemma {:induction false} InsertRanks(xs: seq<Item>, p: nat, x: Item, k: nat)
    requires p <= |xs| && k <= |xs| + 1
    ensures RankAt(InsertAt(xs, p, x), k) == if k <= p then RankAt(xs, k) else RankAt(xs, k - 1) + x.g
  {
    if k > 0 {
      InsertRanks(xs, p, x, k - 1);
    }
  }

  // The parts of the invariant that merging touches, for an intermediate threshold.
  ghost predicate Mid(xs: seq<Item>, vs: seq<real>, n: int, bound: int) {
    && xs != [] && Sorted(xs) && RankAt(xs, |xs|) == n && Slack(xs, bound) && RanksHold(xs, vs)
    && TailIsMax(xs, vs)
  }

  lemma MergeKeepsRank(xs: seq<Item>, a: nat, vs: seq<real>, i: nat)
    requires a + 1 < |xs| && i + 1 < |xs| && RanksHold(xs, vs)
    ensures RankAt(Merge(xs, a), i + 1) <= CountUpTo(vs, Merge(xs, a)[i].v)
  {
    MergeRanks(xs, a, i + 1);
    var j := if i < a then i else i + 1;
    assert Merge(xs, a)[i].v == xs[j].v;
    assert RankAt(xs, j + 1) <= CountUpTo(vs, xs[j].v);
  }

  lemma MergeKeepsOrder(xs: seq<Item>, a: nat, bound: int)
    requires a + 1 < |xs| && Sorted(xs) && Slack(xs, bound)
    requires xs[a].g + xs[a + 1].g + xs[a + 1].delta <= bound
    ensures Sorted(Merge(xs, a)) && Slack(Merge(xs, a), bound)
  {
    var ys := Merge(xs, a);
    assert forall i | 0 <= i < |ys| ::
        ys[i] == if i < a then xs[i] else if i == a then xs[a + 1].(g := xs[a + 1].g + xs[a].g) else xs[i + 1];
  }

  lemma MergeKeeps(xs: seq<Item>, a: nat, vs: seq<real>, n: int, bound: int)
    requires a + 1 < |xs| && Mid(xs, vs, n, bound)
    requires xs[a].g + xs[a + 1].g + xs[a + 1].delta <= bound
    ensures Mid(Merge(xs, a), vs, n, bound)
  {
    var ys := Merge(xs, a);
    MergeRanks(xs, a, |ys|);
    MergeKeepsOrder(xs, a, bound);
    forall i | 0 <= i < |ys| ensures RankAt(ys, i + 1) <= CountUpTo(vs, ys[i].v) {
      MergeKeepsRank(xs, a, vs, i);
    }
    assert ys[|ys| - 1].v == xs[|xs| - 1].v;
  }

  lemma {:induction false} CompressKeeps(xs: seq<Item>, b: nat, threshold: int, band: Band,
                                         vs: seq<real>, n: int, bound: int)
    requires b < |xs| && Mid(xs, vs, n, bound) && threshold <= bound
    ensures Mid(Compress(xs, b, threshold, band), vs, n, bound)
    decreases b
  {
    if b > 0 {
      if Mergeable(xs[b - 1], xs[b], threshold, band) {
        MergeKeeps(xs, b - 1, vs, n, bound);
        CompressKeeps(Merge(xs, b - 1), b - 1, threshold, band, vs, n, bound);
      } else {
        CompressKeeps(xs, b - 1, threshold, band, vs, n, bound);
      }
    }
  }

  // ---------- What compression merges ----------

  /** Tuple i of `ys` stands for the stretch cuts[i]..cuts[i + 1] of `xs`: it is the last of them, with the sum of all
      their g.  The others fitted into it, and the one before them does not. */
  ghost predicate Stands(xs: seq<Item>, ys: seq<Item>, cuts: seq<nat>, i: nat, err: int, band: Band) {
    && i < |ys| && i + 1 < |cuts|
    && var lo, hi, y := cuts[i], cuts[i + 1], ys[i];
    && lo < hi <= |xs|
    && y == Item(xs[hi - 1].v, RankAt(xs, hi) - RankAt(xs, lo), xs[hi - 1].delta)
    && (hi > lo + 1 ==> y.g + y.delta <= err)
    && (forall j | lo <= j < hi - 1 :: band(err, xs[j].delta) <= band(err, y.delta))
    && (lo > 0 ==> !(band(err, xs[lo - 1].delta) <= band(err, y.delta) && xs[lo - 1].g + y.g + y.delta <= err))
  }

  /** `ys` is `xs` cut into consecutive stretches, each of which became one tuple. */
  ghost predicate Groups(xs: seq<Item>, ys: seq<Item>, cuts: seq<nat>, err: int, band: Band) {
    && |cuts| == |ys| + 1 && cuts[0] == 0 && cuts[|ys|] == |xs|
    && forall i: nat | i < |ys| :: Stands(xs, ys, cuts, i, err, band)
  }

  // The walk leaves what is behind its start alone.
  lemma {:induction false} CompressFront(xs: seq<Item>, b: nat, err: int, band: Band)
    requires b < |xs|
    ensures Compress(xs, b, err, band) == Compress(xs[..b + 1], b, err, band) + xs[b + 1..]
    decreases b
  {
    if b == 0 {
      assert xs == xs[..1] + xs[1..];
    } else if Mergeable(xs[b - 1], xs[b], err, band) {
      var ms := Merge(xs, b - 1);
      CompressFront(ms, b - 1, err, band);
      assert ms[..b] == Merge(xs[..b + 1], b - 1) && ms[b..] == xs[b + 1..];
    } else {
      CompressFront(xs, b - 1, err, band);
      CompressFront(xs[..b + 1], b - 1, err, band);
      assert xs[..b + 1][..b] == xs[..b] && xs[b..] == xs[..b + 1][b..] + xs[b + 1..];
    }
  }

  lemma {:induction false} CutsRise(xs: seq<Item>, ys: seq<Item>, cuts: seq<nat>, i: nat, j: nat, err: int, band: Band)
    requires Groups(xs, ys, cuts, err, band) && i <= j <= |ys|
    ensures cuts[i] <= cuts[j] && j - i <= cuts[j] - cuts[i]
    decreases j
  {
    if i < j {
      CutsRise(xs, ys, cuts, i, j - 1, err, band);
      assert Stands(xs, ys, cuts, j - 1, err, band);
    }
  }

  lemma {:induction false} FrontRanks(xs: seq<Item>, n: nat, k: nat)
    requires k <= n <= |xs|
    ensures RankAt(xs[..n], k) == RankAt(xs, k)
  {
    if k > 0 {
      FrontRanks(xs, n, k - 1);
    }
  }

  // A stretch that ends at or before `m` is the same in every list that starts with the same `m` tuples.
  lemma StandsIn(xs: seq<Item>, zs: seq<Item>, m: nat, ys: seq<Item>, us: seq<Item>, cuts: seq<nat>, ds: seq<nat>,
                 i: nat, err: int, band: Band)
    requires m <= |xs| && m <= |zs| && xs[..m] == zs[..m]
    requires i < |us| && i + 1 < |ds| && i < |ys| && i + 1 < |cuts|
    requires ys[i] == us[i] && cuts[i] == ds[i] && cuts[i + 1] == ds[i + 1] <= m
    requires Stands(xs, ys, cuts, i, err, band)
    ensures Stands(zs, us, ds, i, err, band)
  {
    var lo, hi := cuts[i], cuts[i + 1];
    FrontRanks(xs, m, lo);
    FrontRanks(xs, m, hi);
    FrontRanks(zs, m, lo);
    FrontRanks(zs, m, hi);
    assert forall j | 0 <= j < m :: xs[j] == xs[..m][j] == zs[j];
  }

  // The tuple before the tail is merged into it.
  lemma GroupsMerged(xs: seq<Item>, ys: seq<Item>, ds: seq<nat>, err: int, band: Band)
    requires |xs| > 1 && Mergeable(xs[|xs| - 2], xs[|xs| - 1], err, band) && ys != []
    requires Groups(Merge(xs, |xs| - 2), ys, ds, err, band)
    ensures Groups(xs, ys, ds[..|ys|] + [|xs|], err, band)
  {
    hide Stands, Mergeable;
    var n, zs, cuts := |xs|, Merge(xs, |xs| - 2), ds[..|ys|] + [|xs|];
    LastCut(zs, ys, ds, err, band);
    forall i: nat | i < |ys| ensures Stands(xs, ys, cuts, i, err, band) {
      if i < |ys| - 1 {
        CutsRise(zs, ys, ds, i + 1, |ys| - 1, err, band);
        assert zs[..n - 2] == xs[..n - 2];
        StandsIn(zs, xs, n - 2, ys, ys, ds, cuts, i, err, band);
      } else {
        MergedStands(xs, ys, cuts, ds, err, band);
      }
    }
  }

  // The tuple before the tail does not fit into it.
  lemma GroupsApart(xs: seq<Item>, us: seq<Item>, ds: seq<nat>, err: int, band: Band)
    requires |xs| > 1 && !Mergeable(xs[|xs| - 2], xs[|xs| - 1], err, band)
    requires Groups(xs[..|xs| - 1], us, ds, err, band)
    ensures Groups(xs, us + [xs[|xs| - 1]], ds + [|xs|], err, band)
  {
    hide Stands, Mergeable;
    var m := |xs| - 1;
    var zs, ys, cuts := xs[..m], us + [xs[m]], ds + [|xs|];
    forall i: nat | i < |ys| ensures Stands(xs, ys, cuts, i, err, band) {
      if i < |us| {
        CutsRise(zs, us, ds, i + 1, |us|, err, band);
        StandsIn(zs, xs, m, us, ys, ds, cuts, i, err, band);
      } else {
        AloneStands(xs, ys, cuts, i, err, band);
      }
    }
  }

  /** Compressing a whole list groups it. */
  lemma {:induction false} CompressGroups(xs: seq<Item>, err: int, band: Band) returns (cuts: seq<nat>)
    requires xs != []
    ensures Groups(xs, Compress(xs, |xs| - 1, err, band), cuts, err, band)
    decreases |xs|
  {
    hide Stands, Mergeable;
    var n := |xs|;
    if n == 1 {
      cuts := [0, 1];
      AloneStands(xs, xs, cuts, 0, err, band);
    } else if Mergeable(xs[n - 2], xs[n - 1], err, band) {
      cuts := CompressGroups(Merge(xs, n - 2), err, band);
      GroupsMerged(xs, Compress(xs, n - 1, err, band), cuts, err, band);
      cuts := cuts[..|cuts| - 1] + [n];
    } else {
      CompressFront(xs, n - 2, err, band);
      cuts := CompressGroups(xs[..n - 1], err, band);
      assert xs[n - 1..] == [xs[n - 1]];
      GroupsApart(xs, Compress(xs[..n - 1], n - 2, err, band), cuts, err, band);
      cuts := cuts + [n];
    }
  }

  // The last stretch is not empty.
  lemma LastCut(xs: seq<Item>, ys: seq<Item>, cuts: seq<nat>, err: int, band: Band)
    requires Groups(xs, ys, cuts, err, band) && ys != []
    ensures cuts[|ys| - 1] < |xs|
  {
    assert Stands(xs, ys, cuts, |ys| - 1, err, band);
  }

  // A tuple that absorbs nothing.
  lemma AloneStands(xs: seq<Item>, ys: seq<Item>, cuts: seq<nat>, i: nat, err: int, band: Band)
    requires i < |ys| && i + 1 < |cuts| && cuts[i] < |xs| && cuts[i + 1] == cuts[i] + 1 && ys[i] == xs[cuts[i]]
    requires cuts[i] > 0 ==> !Mergeable(xs[cuts[i] - 1], ys[i], err, band)
    ensures Stands(xs, ys, cuts, i, err, band)
  {
  }

  // The tail, once the tuple before it has been merged into it.
  lemma MergedStands(xs: seq<Item>, ys: seq<Item>, cuts: seq<nat>, ds: seq<nat>, err: int, band: Band)
    requires |xs| > 1 && Mergeable(xs[|xs| - 2], xs[|xs| - 1], err, band)
    requires ys != [] && |cuts| == |ds| == |ys| + 1 && cuts == ds[..|ys|] + [|xs|] && ds[|ys|] == |xs| - 1
    requires Stands(Merge(xs, |xs| - 2), ys, ds, |ys| - 1, err, band)
    ensures Stands(xs, ys, cuts, |ys| - 1, err, band)
  {
    var n, k := |xs|, |ys| - 1;
    var zs, lo := Merge(xs, n - 2), ds[k];
    MergeRanks(xs, n - 2, n - 1);
    MergeRanks(xs, n - 2, lo);
    assert forall j | 0 <= j < n - 2 :: zs[j] == xs[j];
    assert zs[n - 2] == xs[n - 1].(g := xs[n - 1].g + xs[n - 2].g);
    assert cuts[k] == lo && cuts[k + 1] == n;
  }

  lemma {:induction false} RanksRise(xs: seq<Item>, i: nat, j: nat)
    requires i <= j <= |xs| && forall k | 0 <= k < |xs| :: xs[k].g >= 0
    ensures RankAt(xs, i) <= RankAt(xs, j)
    decreases j
  {
    if i < j {
      RanksRise(xs, i, j - 1);
    }
  }

  /** Compression is thorough: afterwards no tuple fits into its successor, as the walk judges it.  Every tuple left has
      its value and its slack, and has gained exactly what disappeared into it. */
  lemma NothingLeftToMerge(xs: seq<Item>, err: int, band: Band, i: nat)
    requires xs != [] && (forall k | 0 <= k < |xs| :: xs[k].g >= 0)
    requires i + 1 < |Compress(xs, |xs| - 1, err, band)|
    ensures var a, b := Compress(xs, |xs| - 1, err, band)[i], Compress(xs, |xs| - 1, err, band)[i + 1];
      !(band(err, a.delta) <= band(err, b.delta) && a.g + b.g + b.delta <= err)
  {
    var ys := Compress(xs, |xs| - 1, err, band);
    var cuts := CompressGroups(xs, err, band);
    assert Stands(xs, ys, cuts, i, err, band) && Stands(xs, ys, cuts, i + 1, err, band);
    hide Compress;
    RanksRise(xs, cuts[i], cuts[i + 1] - 1);
  }

  /** And it is the only list that groups the old one so. */
  lemma {:induction false} GroupsOnce(xs: seq<Item>, ys: seq<Item>, cuts: seq<nat>, us: seq<Item>, ds: seq<nat>,
                                      err: int, band: Band)
    requires forall k | 0 <= k < |xs| :: xs[k].g >= 0
    requires Groups(xs, ys, cuts, err, band) && Groups(xs, us, ds, err, band)
    ensures ys == us && cuts == ds
    decreases |ys|
  {
    hide Stands;
    if xs == [] {
      CutsRise(xs, ys, cuts, 0, |ys|, err, band);
      CutsRise(xs, us, ds, 0, |us|, err, band);
    } else {
      var i, j := |ys| - 1, |us| - 1;
      assert ys != [] && us != [];
      assert Stands(xs, ys, cuts, i, err, band) && Stands(xs, us, ds, j, err, band);
      NotShorter(xs, ys, cuts, us, ds, err, band);
      NotShorter(xs, us, ds, ys, cuts, err, band);
      SameTail(xs, ys, cuts, us, ds, err, band);
      GroupsShorter(xs, ys, cuts, err, band);
      GroupsShorter(xs, us, ds, err, band);
      GroupsOnce(xs[..cuts[i]], ys[..i], cuts[..i + 1], us[..j], ds[..j + 1], err, band);
      assert ys == ys[..i] + [ys[i]] && us == us[..j] + [us[j]];
      assert cuts == cuts[..i + 1] + [|xs|] && ds == ds[..j + 1] + [|xs|];
    }
  }

  // The last stretch of one grouping does not start before that of another.
  lemma NotShorter(xs: seq<Item>, ys: seq<Item>, cuts: seq<nat>, us: seq<Item>, ds: seq<nat>, err: int, band: Band)
    requires forall k | 0 <= k < |xs| :: xs[k].g >= 0
    requires Groups(xs, ys, cuts, err, band) && Groups(xs, us, ds, err, band) && ys != [] && us != []
    ensures cuts[|ys| - 1] >= ds[|us| - 1]
  {
    var lo, l, n := cuts[|ys| - 1], ds[|us| - 1], |xs|;
    assert Stands(xs, ys, cuts, |ys| - 1, err, band) && Stands(xs, us, ds, |us| - 1, err, band);
    if lo < l {
      RanksRise(xs, lo, l - 1);
    }
  }

  lemma SameTail(xs: seq<Item>, ys: seq<Item>, cuts: seq<nat>, us: seq<Item>, ds: seq<nat>, err: int, band: Band)
    requires Groups(xs, ys, cuts, err, band) && Groups(xs, us, ds, err, band) && ys != [] && us != []
    requires cuts[|ys| - 1] == ds[|us| - 1]
    ensures ys[|ys| - 1] == us[|us| - 1]
  {
    assert Stands(xs, ys, cuts, |ys| - 1, err, band) && Stands(xs, us, ds, |us| - 1, err, band);
  }

  lemma GroupsShorter(xs: seq<Item>, ys: seq<Item>, cuts: seq<nat>, err: int, band: Band)
    requires Groups(xs, ys, cuts, err, band) && ys != []
    ensures cuts[|ys| - 1] <= |xs|
    ensures Groups(xs[..cuts[|ys| - 1]], ys[..|ys| - 1], cuts[..|ys|], err, band)
  {
    hide Stands;
    var k := |ys| - 1;
    var m := cuts[k];
    CutsRise(xs, ys, cuts, k, k + 1, err, band);
    var front, us, ds := xs[..m], ys[..k], cuts[..|ys|];
    forall i: nat | i < k ensures Stands(front, us, ds, i, err, band) {
      CutsRise(xs, ys, cuts, i + 1, k, err, band);
      StandsIn(xs, front, m, ys, us, cuts, ds, i, err, band);
    }
  }

  // ---------- Where an insertion goes ----------

  /** A new tuple comes behind every kept value that does not exceed it and before every other, with g == 1; it has no
      slack at either end of the list, and all that the error allows inside. */
  lemma PlaceExact(xs: seq<Item>, v: real, err: int) returns (p: nat)
    requires Sorted(xs)
    ensures p <= |xs| && Place(xs, v, err) == xs[..p] + [Item(v, 1, if 0 < p < |xs| then err - 1 else 0)] + xs[p..]
    ensures (forall i | 0 <= i < p :: xs[i].v <= v) && (forall i | p <= i < |xs| :: v < xs[i].v)
  {
    if xs == [] || xs[0].v > v {
      p := 0;
    } else {
      p := Slot(xs, v, 1);
      assert forall i | p <= i < |xs| :: xs[p].v <= xs[i].v;
    }
  }

  /** The error is 2 * epsilon * n in units of 2^-32, rounded down, and compression is due every so many insertions as
      epsilon goes into 2^32 - 1. */
  lemma ErrIsRoundedDown(n: nat, epsilon: Epsilon)
    ensures Err(n, epsilon) * SCALE <= 2 * epsilon * n < (Err(n, epsilon) + 1) * SCALE
    ensures Period(epsilon) * epsilon < SCALE <= (Period(epsilon) + 1) * epsilon
  {
    assert n * 2 * epsilon == 2 * epsilon * n;
    var q := Period(epsilon);
    assert 0xffff_ffff == q * epsilon + 0xffff_ffff % epsilon;
  }

  function OneBand(err: int, delta: int): int { 0 }

  lemma InsertOne(vs: seq<real>, v: real, epsilon: Epsilon, band: Band)
    ensures var s := InsertAll(vs, epsilon, band);
      && (Due(s.n + 1, epsilon) ==> s.items != [])
      && InsertAll(vs + [v], epsilon, band) == Insert(s, v, epsilon, band)
  {
    NotDueAtFirst(epsilon);
    assert (vs + [v])[..|vs|] == vs;
  }

  // An insertion at the end of the list, not due to compress.
  lemma InsertLast(s: Gk, v: real, epsilon: Epsilon, band: Band)
    requires !Due(s.n + 1, epsilon) && forall i | 0 <= i < |s.items| :: s.items[i].v <= v
    ensures Insert(s, v, epsilon, band) == Gk(s.items + [Item(v, 1, 0)], s.n + 1)
  {
    var p := if s.items == [] then 0 else Slot(s.items, v, 1);
    assert s.items[..p] + [Item(v, 1, 0)] + s.items[p..] == s.items + [Item(v, 1, 0)];
  }

  lemma MergeFive(a: Item, b: Item, c: Item, d: Item, e: Item)
    requires a.g == b.g == c.g == d.g == e.g == 1 && a.delta == b.delta == c.delta == d.delta == e.delta == 0
    ensures Compress([a, b, c, d, e], 4, 3, OneBand) == [b.(g := 2), e.(g := 3)]
  {
    assert Merge([a, b, c, d, e], 3) == [a, b, c, e.(g := 2)];
    assert Merge([a, b, c, e.(g := 2)], 2) == [a, b, e.(g := 3)];
    assert Compress([a, b, e.(g := 3)], 2, 3, OneBand) == Compress([a, b, e.(g := 3)], 1, 3, OneBand);
    assert Merge([a, b, e.(g := 3)], 0) == [b.(g := 2), e.(g := 3)];
  }

  /** One run in full: with epsilon one quarter and every band alike, the sixth insertion merges five tuples into
      two. */
  lemma SixInsertions()
    ensures InsertAll([1.0, 2.0, 3.0, 4.0, 5.0, 6.0], 0x4000_0000, OneBand).items
            == [Item(2.0, 2, 0), Item(5.0, 3, 0), Item(6.0, 1, 0)]
  {
    hide InsertAll, Insert, Compress;
    var e: Epsilon := 0x4000_0000;
    Singles(e);
    var xs := [Item(1.0, 1, 0), Item(2.0, 1, 0), Item(3.0, 1, 0), Item(4.0, 1, 0), Item(5.0, 1, 0)];
    assert Period(e) == 3 && Err(6, e) == 3;
    InsertOne([1.0, 2.0, 3.0, 4.0, 5.0], 6.0, e, OneBand);
    assert [1.0, 2.0, 3.0, 4.0, 5.0] + [6.0] == [1.0, 2.0, 3.0, 4.0, 5.0, 6.0];
    MergeFive(xs[0], xs[1], xs[2], xs[3], xs[4]);
    SixthGoesLast(e, xs);
  }

  lemma SixthGoesLast(e: Epsilon, xs: seq<Item>)
    requires e == 0x4000_0000 && |xs| == 5
    requires Compress(xs, 4, 3, OneBand) == [Item(2.0, 2, 0), Item(5.0, 3, 0)]
    ensures Due(6, e) && Insert(Gk(xs, 5), 6.0, e, OneBand).items == [Item(2.0, 2, 0), Item(5.0, 3, 0), Item(6.0, 1, 0)]
  {
    hide Compress;
    assert Period(e) == 3 && Err(6, e) == 3 && Due(6, e);
    var ys := [Item(2.0, 2, 0), Item(5.0, 3, 0)];
    assert Compressed(xs, 6, e, OneBand) == ys;
    assert Slot(ys, 6.0, 2) == 2;
    assert Slot(ys, 6.0, 1) == 2;
    assert ys[..2] + [Item(6.0, 1, 0)] + ys[2..] == [Item(2.0, 2, 0), Item(5.0, 3, 0), Item(6.0, 1, 0)];
  }

  // Up to the fifth nothing is merged.
  lemma Singles(e: Epsilon)
    requires e == 0x4000_0000
    ensures InsertAll([1.0, 2.0, 3.0, 4.0, 5.0], e, OneBand)
            == Gk([Item(1.0, 1, 0), Item(2.0, 1, 0), Item(3.0, 1, 0), Item(4.0, 1, 0), Item(5.0, 1, 0)], 5)
  {
    hide InsertAll, Insert;
    assert Period(e) == 3 && Err(3, e) == 1;
    var i1, i2, i3, i4, i5 := Item(1.0, 1, 0), Item(2.0, 1, 0), Item(3.0, 1, 0), Item(4.0, 1, 0), Item(5.0, 1, 0);
    NoneInserted(e);
    InsertOne([], 1.0, e, OneBand);
    InsertLast(Gk([], 0), 1.0, e, OneBand);
    assert [] + [1.0] == [1.0] && [] + [i1] == [i1];
    InsertOne([1.0], 2.0, e, OneBand);
    InsertLast(Gk([i1], 1), 2.0, e, OneBand);
    assert [1.0] + [2.0] == [1.0, 2.0] && [i1] + [i2] == [i1, i2];
    InsertOne([1.0, 2.0], 3.0, e, OneBand);
    ThirdGoesLast(e);
    assert [1.0, 2.0] + [3.0] == [1.0, 2.0, 3.0];
    InsertOne([1.0, 2.0, 3.0], 4.0, e, OneBand);
    InsertLast(Gk([i1, i2, i3], 3), 4.0, e, OneBand);
    assert [1.0, 2.0, 3.0] + [4.0] == [1.0, 2.0, 3.0, 4.0] && [i1, i2, i3] + [i4] == [i1, i2, i3, i4];
    InsertOne([1.0, 2.0, 3.0, 4.0], 5.0, e, OneBand);
    InsertLast(Gk([i1, i2, i3, i4], 4), 5.0, e, OneBand);
    assert [1.0, 2.0, 3.0, 4.0] + [5.0] == [1.0, 2.0, 3.0, 4.0, 5.0];
    assert [i1, i2, i3, i4] + [i5] == [i1, i2, i3, i4, i5];
  }

  lemma NoneInserted(e: Epsilon)
    ensures InsertAll([], e, OneBand) == Gk([], 0)
  {
  }

  lemma ThirdGoesLast(e: Epsilon)
    requires e == 0x4000_0000
    ensures Due(3, e)
    ensures Insert(Gk([Item(1.0, 1, 0), Item(2.0, 1, 0)], 2), 3.0, e, OneBand)
            == Gk([Item(1.0, 1, 0), Item(2.0, 1, 0), Item(3.0, 1, 0)], 3)
  {
    assert Period(e) == 3 && Err(3, e) == 1;
    var ys := [Item(1.0, 1, 0), Item(2.0, 1, 0)];
    assert Compress(ys, 1, 1, OneBand) == ys;
    assert Slot(ys, 3.0, 1) == 2;
    assert ys[..2] + [Item(3.0, 1, 0)] + ys[2..] == [Item(1.0, 1, 0), Item(2.0, 1, 0), Item(3.0, 1, 0)];
  }

  lemma {:induction false} CountMonotone(vs: seq<real>, x: real, y: real)
    requires x <= y
    ensures CountUpTo(vs, x) <= CountUpTo(vs, y) <= |vs|
  {
    if vs != [] {
      CountMonotone(vs[..|vs| - 1], x, y);
    }
  }

  lemma ErrMonotone(m: nat, n: nat, epsilon: Epsilon)
    requires m <= n
    ensures Err(m, epsilon) <= Err(n, epsilon)
  {
    assert m * 2 * epsilon <= n * 2 * epsilon;
    assert 0 <= (n - m) * 2 * epsilon;
    DivMonotone(m * 2 * epsilon, n * 2 * epsilon);
  }

  lemma DivMonotone(a: nat, b: nat)
    requires a <= b
    ensures a / SCALE <= b / SCALE
  {
  }

  // `x` fits at position p of a sorted list.
  ghost predicate Fits(xs: seq<Item>, p: nat, x: Item) {
    && p <= |xs|
    && (forall i | 0 <= i < p :: xs[i].v <= x.v)
    && (forall i | p <= i < |xs| :: x.v <= xs[i].v)
  }

  lemma InsertKeepsOrder(xs: seq<Item>, p: nat, x: Item, bound: int)
    requires Sorted(xs) && Slack(xs, bound) && Fits(xs, p, x) && x.g == 1 && 1 + x.delta <= bound
    ensures Sorted(InsertAt(xs, p, x)) && Slack(InsertAt(xs, p, x), bound)
  {
    var ys := InsertAt(xs, p, x);
    assert forall i | 0 <= i < |ys| :: ys[i] == if i < p then xs[i] else if i == p then x else xs[i - 1];
  }

  lemma InsertKeepsRank(xs: seq<Item>, p: nat, x: Item, vs: seq<real>, i: nat)
    requires RanksHold(xs, vs) && Fits(xs, p, x) && x.g == 1 && i <= |xs|
    ensures RankAt(InsertAt(xs, p, x), i + 1) <= CountUpTo(vs + [x.v], InsertAt(xs, p, x)[i].v)
  {
    var ys, us := InsertAt(xs, p, x), vs + [x.v];
    assert us[..|us| - 1] == vs;
    InsertRanks(xs, p, x, i + 1);
    if i < p {
      assert ys[i] == xs[i];
    } else if i > p {
      assert ys[i] == xs[i - 1];
    } else {
      assert ys[i] == x;
      if p > 0 {
        assert RankAt(xs, p - 1 + 1) <= CountUpTo(vs, xs[p - 1].v);
        CountMonotone(vs, xs[p - 1].v, x.v);
      }
    }
  }

  lemma InsertAtKeeps(xs: seq<Item>, p: nat, x: Item, vs: seq<real>, bound: int)
    requires if xs == [] then vs == [] else Mid(xs, vs, |vs|, bound)
    requires Fits(xs, p, x) && x.g == 1 && 1 + x.delta <= bound
    ensures Mid(InsertAt(xs, p, x), vs + [x.v], |vs| + 1, bound)
  {
    var ys, us := InsertAt(xs, p, x), vs + [x.v];
    InsertKeepsOrder(xs, p, x, bound);
    InsertRanks(xs, p, x, |ys|);
    forall i | 0 <= i < |ys| ensures RankAt(ys, i + 1) <= CountUpTo(us, ys[i].v) {
      InsertKeepsRank(xs, p, x, vs, i);
    }
    assert ys[|ys| - 1] == if p == |xs| then x else xs[|xs| - 1];
    assert us[|vs|] == x.v;
    if p < |xs| {
      assert xs[|xs| - 1].v in vs;
    }
  }

  lemma PlaceKeeps(xs: seq<Item>, v: real, err: int, vs: seq<real>, bound: int)
    requires if xs == [] then vs == [] else Mid(xs, vs, |vs|, bound)
    requires 1 <= bound && err <= bound
    ensures Mid(Place(xs, v, err), vs + [v], |vs| + 1, bound)
  {
    if xs == [] || xs[0].v > v {
      InsertAtKeeps(xs, 0, Item(v, 1, 0), vs, bound);
    } else {
      var p := Slot(xs, v, 1);
      assert forall i | p <= i < |xs| :: xs[p].v <= xs[i].v;
      InsertAtKeeps(xs, p, Item(v, 1, if p < |xs| then err - 1 else 0), vs, bound);
    }
  }

  lemma SlackGrows(xs: seq<Item>, n: nat, epsilon: Epsilon)
    requires Slack(xs, SlackBound(n, epsilon))
    ensures Slack(xs, SlackBound(n + 1, epsilon))
  {
    ErrMonotone(n, n + 1, epsilon);
  }

  /** One insertion keeps the invariant, whatever `band` returns. */
  lemma InsertKeeps(s: Gk, vs: seq<real>, v: real, epsilon: Epsilon, band: Band)
    requires Summarizes(s, vs, epsilon) && (Due(s.n + 1, epsilon) ==> s.items != [])
    ensures Summarizes(Insert(s, v, epsilon, band), vs + [v], epsilon)
  {
    var n := s.n + 1;
    var bound, err := SlackBound(n, epsilon), Err(n, epsilon);
    SlackGrows(s.items, s.n, epsilon);
    if Due(n, epsilon) {
      CompressKeeps(s.items, |s.items| - 1, err, band, vs, |vs|, bound);
    }
    PlaceKeeps(Compressed(s.items, n, epsilon, band), v, err, vs, bound);
  }

  function InsertAll(vs: seq<real>, epsilon: Epsilon, band: Band): (s: Gk)
    ensures s.n == |vs| && (s.items == [] <==> vs == [])
  {
    if vs == [] then Gk([], 0)
    else
      NotDueAtFirst(epsilon);
      Insert(InsertAll(vs[..|vs| - 1], epsilon, band), vs[|vs| - 1], epsilon, band)
  }

  lemma EmptySummarizes(epsilon: Epsilon)
    ensures Summarizes(Gk([], 0), [], epsilon)
  {
  }

  lemma {:induction false} InsertAllSummarizes(vs: seq<real>, epsilon: Epsilon, band: Band)
    ensures Summarizes(InsertAll(vs, epsilon, band), vs, epsilon)
  {
    hide Summarizes, Insert, Due;
    if vs == [] {
      EmptySummarizes(epsilon);
    } else {
      NotDueAtFirst(epsilon);
      var front, v := vs[..|vs| - 1], vs[|vs| - 1];
      InsertAllSummarizes(front, epsilon, band);
      InsertKeeps(InsertAll(front, epsilon, band), front, v, epsilon, band);
      assert front + [v] == vs;
    }
  }

  /** Over every stream, for every kept tuple: the ranks summed up to it never exceed the number of
      inserted values up to its value, the sum of all g is the length of the stream, and the last tuple
      carries the largest value inserted. */
  lemma RankLowerBound(vs: seq<real>, epsilon: Epsilon, band: Band, i: nat)
    requires i < |InsertAll(vs, epsilon, band).items|
    ensures var xs := InsertAll(vs, epsilon, band).items;
            && RankAt(xs, i + 1) <= CountUpTo(vs, xs[i].v) <= |vs| == RankAt(xs, |xs|)
            && CountUpTo(vs, xs[|xs| - 1].v) == |vs|
            && xs[|xs| - 1].v in vs
  {
    InsertAllSummarizes(vs, epsilon, band);
    hide InsertAll, Err, Slack;
    var xs := InsertAll(vs, epsilon, band).items;
    CountMonotone(vs, xs[i].v, xs[i].v);
    CountAll(vs, xs[|xs| - 1].v);
  }

  /** What every insertion into every stream does, without the algorithm: whenever the count is a multiple of the
      period, and only then, the list is grouped; then the new value goes in at its place, with its slack. */
  lemma EveryInsertion(vs: seq<real>, v: real, epsilon: Epsilon, band: Band)
    returns (ys: seq<Item>, cuts: seq<nat>, p: nat)
    ensures var xs, n := InsertAll(vs, epsilon, band).items, |vs| + 1;
      && (if n % Period(epsilon) == 0 then Groups(xs, ys, cuts, Err(n, epsilon), band) else ys == xs)
      && p <= |ys| && (forall i | 0 <= i < p :: ys[i].v <= v) && (forall i | p <= i < |ys| :: v < ys[i].v)
      && InsertAll(vs + [v], epsilon, band).items
         == ys[..p] + [Item(v, 1, if 0 < p < |ys| then Err(n, epsilon) - 1 else 0)] + ys[p..]
  {
    hide InsertAll, Groups, Err, Period, Place, Compress;
    var s, n := InsertAll(vs, epsilon, band), |vs| + 1;
    InsertOne(vs, v, epsilon, band);
    InsertAllSummarizes(vs, epsilon, band);
    ys, cuts := Compressed(s.items, n, epsilon, band), [];
    if Due(n, epsilon) {
      cuts := CompressGroups(s.items, Err(n, epsilon), band);
      SlackGrows(s.items, s.n, epsilon);
      CompressKeeps(s.items, |s.items| - 1, Err(n, epsilon), band, vs, |vs|, SlackBound(n, epsilon));
    }
    p := PlaceExact(ys, v, Err(n, epsilon));
  }

  lemma {:induction false} CountAll(vs: seq<real>, x: real)
    requires forall k | 0 <= k < |vs| :: vs[k] <= x
    ensures CountUpTo(vs, x) == |vs|
  {
    if vs != [] {
      CountAll(vs[..|vs| - 1], x);
    }
  }
}
