/** program.go: GradDerivative, the analogue of Derivative when the program
 *  returns gradients. One table of one order lower than the force
 *  constant is displaced, and each displaced geometry's gradient feeds
 *  one slot per gradient component g: the slot of the force constant
 *  with g as its last index. Every time a slot is aimed at, its count goes
 *  up by one. Displacing the geometry and writing the input file are not
 *  modelled, as in Derivative. */
module GradDerivatives {
  import opened Text
  import opened Types
  import opened PackedIndex
  import opened HashName
  import opened FinDiff
  import opened Derivatives

  /** The slot of component g: Index(ncoords, true, i, g) for a first
   *  derivative (so i and g are not sorted), and the sorted
   *  Index(ncoords, false, i, j, g) and Index(ncoords, false, i, j, k, g)
   *  above it; the first position is taken. */
  function GradCoords(nd: int, i: int, j: int, k: int, g: int): seq<int> {
    if nd == 1 then [i, g] else if nd == 2 then [i, j, g] else [i, j, k, g]
  }

  /** The coordinates as Index leaves them: sorted unless nd is 1. */
  function GradId(nd: int, i: int, j: int, k: int, g: int): seq<int> {
    if nd == 1 then [i, g] else if nd == 2 then Ascending3(i, j, g) else Ascending4(i, j, k, g)
  }

  /** Three values in ascending order, written out case by case. */
  function Ascending3(a: int, b: int, c: int): (r: seq<int>)
    ensures |r| == 3
  {
    if a <= b then
      if b <= c then [a, b, c] else if a <= c then [a, c, b] else [c, a, b]
    else
      if a <= c then [b, a, c] else if b <= c then [b, c, a] else [c, b, a]
  }

  /** Four values in ascending order: d put into the ascending three. */
  function Ascending4(a: int, b: int, c: int, d: int): (r: seq<int>)
    ensures |r| == 4
  {
    var s := Ascending3(a, b, c);
    Placed(s[0], s[1], s[2], d)
  }

  /** d put into x, y, z before the first value it does not exceed. */
  function Placed(x: int, y: int, z: int, d: int): (r: seq<int>)
    ensures |r| == 4
  {
    if d <= x then [d, x, y, z] else if d <= y then [x, d, y, z] else if d <= z then [x, y, d, z] else [x, y, z, d]
  }

  /** The arrangements are what sort.Ints leaves: SortInts of the values. */
  lemma Ascending3Sorts(a: int, b: int, c: int)
    ensures Ascending3(a, b, c) == SortInts([a, b, c])
  {
    Ascending3Sorted(a, b, c);
    Ascending3Bag(a, b, c);
    SortsTo([a, b, c], Ascending3(a, b, c));
  }

  lemma Ascending3Sorted(a: int, b: int, c: int)
    ensures Sorted(Ascending3(a, b, c))
  {
  }

  lemma Ascending4Sorts(a: int, b: int, c: int, d: int)
    ensures Ascending4(a, b, c, d) == SortInts([a, b, c, d])
  {
    var s := Ascending3(a, b, c);
    assert Sorted(s);
    PlacedSorted(s[0], s[1], s[2], d);
    Ascending4Bag(a, b, c, d);
    SortsTo([a, b, c, d], Ascending4(a, b, c, d));
  }

  /** A sorted arrangement of s is the one SortInts gives. */
  lemma SortsTo(s: seq<int>, r: seq<int>)
    requires Sorted(r) && multiset(r) == multiset(s)
    ensures r == SortInts(s)
  {
    SortIntsPermutes(s);
    SortedUnique(r, SortInts(s));
  }

  lemma PlacedSorted(x: int, y: int, z: int, d: int)
    requires x <= y <= z
    ensures Sorted(Placed(x, y, z, d))
  {
  }

  lemma Ascending3Bag(a: int, b: int, c: int)
    ensures multiset(Ascending3(a, b, c)) == multiset([a, b, c])
  {
    var s := Ascending3(a, b, c);
    if a <= b {
      if b <= c {
      } else if a <= c {
        assert s == [a, c, b];
        SwapBack(a, b, c);
      } else {
        assert s == [c, a, b];
        SwapBack(a, b, c);
        SwapFront(a, c, b);
      }
    } else {
      SwapFront(a, b, c);
      if a <= c {
        assert s == [b, a, c];
      } else if b <= c {
        assert s == [b, c, a];
        SwapBack(b, a, c);
      } else {
        assert s == [c, b, a];
        SwapBack(b, a, c);
        SwapFront(b, c, a);
      }
    }
  }

  lemma Ascending4Bag(a: int, b: int, c: int, d: int)
    ensures multiset(Ascending4(a, b, c, d)) == multiset([a, b, c, d])
  {
    var s := Ascending3(a, b, c);
    Ascending3Bag(a, b, c);
    BagPlaced(s, [a, b, c], d);
    assert [a, b, c] + [d] == [a, b, c, d];
  }

  /** d placed into an arrangement of t: the values of t and d. */
  lemma BagPlaced(s: seq<int>, t: seq<int>, d: int)
    requires |s| == 3 && multiset(s) == multiset(t)
    ensures multiset(Placed(s[0], s[1], s[2], d)) == multiset(t + [d])
  {
    PlacedBag(s[0], s[1], s[2], d);
    Snoc3(s, d);
  }

  lemma PlacedBag(x: int, y: int, z: int, d: int)
    ensures multiset(Placed(x, y, z, d)) == multiset([x, y, z, d])
  {
    if d <= x {
      SwapFront(d, x, y);
      SwapBack(x, d, y);
      assert [d, x, y, z] == [d, x, y] + [z];
      assert [x, y, d, z] == [x, y, d] + [z];
      SwapLast(x, y, z, d);
    } else if d <= y {
      SwapBack(x, d, y);
      assert [x, d, y, z] == [x, d, y] + [z];
      assert [x, y, d, z] == [x, y, d] + [z];
      SwapLast(x, y, z, d);
    } else if d <= z {
      SwapLast(x, y, z, d);
    }
  }

  lemma SwapFront(x: int, y: int, z: int)
    ensures multiset([y, x, z]) == multiset([x, y, z])
  {
  }

  lemma SwapBack(x: int, y: int, z: int)
    ensures multiset([x, z, y]) == multiset([x, y, z])
  {
  }

  lemma SwapLast(w: int, x: int, y: int, z: int)
    ensures multiset([w, x, z, y]) == multiset([w, x, y, z])
  {
  }

  lemma Snoc3(s: seq<int>, d: int)
    requires |s| == 3
    ensures s + [d] == [s[0], s[1], s[2], d]
  {
  }

  function GradIndex(ncoords: int, nd: int, i: int, j: int, k: int, g: int): int {
    var r := Positions(ncoords, GradId(nd, i, j, k, g));
    if r.Ok? && r.value != [] then r.value[0] else 0
  }

  /** The slots of components 1 to n, in order. */
  function GradIndices(ncoords: int, nd: int, i: int, j: int, k: int, n: int): (r: seq<int>)
    ensures |r| == if n < 0 then 0 else n
  {
    seq(if n < 0 then 0 else n, m => GradIndex(ncoords, nd, i, j, k, m + 1))
  }

  /** What GradDerivative needs of its coordinates: they count from 1, and
   *  the ones the order does not reach are 0. */
  predicate GradArgs(nd: int, i: int, j: int, k: int) {
    && 1 <= i
    && (nd == 1 ==> j == 0 && k == 0)
    && (nd == 2 ==> 1 <= j && k == 0)
    && (nd == 3 ==> 1 <= j && 1 <= k)
    && 1 <= nd <= 3
  }

  // ---------------------------------------------------------------------
  // One slot aimed at

  /** The array after slot v is aimed at once: grown with zero entries to
   *  hold it and, unless it came from a checkpoint, its count moved on. */
  function Bump(a: seq<CountFloat>, v: nat): seq<CountFloat> {
    var g := Grown(a, v, Zero);
    if g[v].loaded then g else g[v := g[v].(count := g[v].count + 1)]
  }

  function BumpAll(a: seq<CountFloat>, vs: seq<int>): seq<CountFloat>
    requires Natural(vs)
    decreases |vs|
  {
    if vs == [] then a else Bump(BumpAll(a, vs[..|vs| - 1]), vs[|vs| - 1])
  }

  /** Entry v of a before it is aimed at: the entry, or the zero entry the
   *  array grows with. */
  function Before(a: seq<CountFloat>, v: int): CountFloat {
    if 0 <= v < |a| then a[v] else Zero
  }

  /** One slot aimed at: entry v afterwards is what it was (zero if new),
   *  its count moved on when it is the slot aimed at and not loaded. */
  lemma BumpAt(q: seq<CountFloat>, w: nat, v: int)
    ensures |Bump(q, w)| == if |q| <= w then w + 1 else |q|
    ensures 0 <= v < |Bump(q, w)| ==>
      Bump(q, w)[v] == if Before(q, v).loaded || v != w then Before(q, v) else Before(q, v).(count := Before(q, v).count + 1)
  {
  }

  /** Aiming at the slots vs keeps to the checkpoint and counts: every slot
   *  exists afterwards; a loaded entry is as it was; every other entry is
   *  as it was, or zero if new, with its count moved on once per time vs
   *  names it. */
  lemma {:induction false} BumpAllCounts(a: seq<CountFloat>, vs: seq<int>)
    requires Natural(vs)
    ensures var r := BumpAll(a, vs);
      && ArrExtends(a, r)
      && (forall m :: 0 <= m < |vs| ==> vs[m] < |r|)
      && (forall v :: 0 <= v < |r| && !r[v].loaded ==>
            r[v] == Before(a, v).(count := Before(a, v).count + multiset(vs)[v]))
    decreases |vs|
  {
    if vs != [] {
      var init, w := vs[..|vs| - 1], vs[|vs| - 1];
      BumpAllCounts(a, init);
      assert vs == init + [w];
      var q := BumpAll(a, init);
      var r := BumpAll(a, vs);
      assert r == Bump(q, w);
      BumpAt(q, w, 0);
      forall m | 0 <= m < |vs| ensures vs[m] < |r| {
        if m < |init| {
          assert vs[m] == init[m];
        }
      }
      forall v | 0 <= v < |r|
        ensures !r[v].loaded ==> r[v] == Before(a, v).(count := Before(a, v).count + multiset(vs)[v])
        ensures v < |a| ==> r[v].loaded == a[v].loaded && (a[v].loaded ==> r[v] == a[v])
        ensures v >= |a| ==> !r[v].loaded
      {
        BumpAt(q, w, v);
        assert multiset(vs)[v] == multiset(init)[v] + (if v == w then 1 else 0);
        if v >= |q| {
          assert forall m :: 0 <= m < |init| ==> init[m] != v;
          assert v !in init;
        }
      }
    }
  }

  // ---------------------------------------------------------------------
  // One proto

  /** The Calc the loop body builds for proto p before the removal loop,
   *  and the arrays it leaves: one target per slot, with the proto's
   *  coefficient, and each slot aimed at once more. */
  function GradStaged(st: Store, p: Proto, vs: seq<int>, s: Slice, dir: string): (Store, Calc)
    requires Natural(vs)
  {
    (Put(st, s, BumpAll(Get(st, s), vs)),
     Calc(JoinPath(dir, p.name), Aimed(p.coeff as real, s, vs), 0.0, false, p.scale, None))
  }

  function GradOut(st: Store, p: Proto, vs: seq<int>, s: Slice, dir: string): (Store, Option<Calc>)
    requires Natural(vs)
  {
    var (st1, temp) := GradStaged(st, p, vs, s, dir);
    (st1, Emitted(st1, p, temp))
  }

  /** The slot of component g, as the loop computes it. */
  method GradSlot(ncoords: int, nd: int, i: int, j: int, k: int, g: int) returns (index: int)
    requires 1 <= nd <= 3
    ensures index == GradIndex(ncoords, nd, i, j, k, g)
  {
    var r: Result<seq<int>, string>;
    if nd == 1 {
      var id := new int[2];
      id[0], id[1] := i, g;
      r := PackedIndex.Index(ncoords, true, id);
      assert id[..] == [i, g];
    } else if nd == 2 {
      var id := new int[3];
      id[0], id[1], id[2] := i, j, g;
      assert id[..] == GradCoords(nd, i, j, k, g);
      r := PackedIndex.Index(ncoords, false, id);
      Ascending3Sorts(i, j, g);
    } else {
      var id := new int[4];
      id[0], id[1], id[2], id[3] := i, j, k, g;
      assert id[..] == GradCoords(nd, i, j, k, g);
      r := PackedIndex.Index(ncoords, false, id);
      Ascending4Sorts(i, j, k, g);
    }
    GradPositions(ncoords, nd, i, j, k, g);
    index := r.value[0];
  }

  /** Index accepts the coordinates of every order. */
  lemma GradPositions(ncoords: int, nd: int, i: int, j: int, k: int, g: int)
    requires 1 <= nd <= 3
    ensures var r := Positions(ncoords, GradId(nd, i, j, k, g)); r.Ok? && r.value != []
  {
    var id := GradId(nd, i, j, k, g);
    assert |id| == nd + 1;
    PositionsDefined(ncoords, id);
  }

  /** The loop over the gradient components for one proto. */
  method GradClaim(a: seq<CountFloat>, ncoords: int, nd: int, i: int, j: int, k: int, dimmax: int, coeff: real, s: Slice)
    returns (r: seq<CountFloat>, ts: seq<Target>)
    requires GradArgs(nd, i, j, k) && ncoords >= 0
    ensures Natural(GradIndices(ncoords, nd, i, j, k, dimmax))
    ensures var vs := GradIndices(ncoords, nd, i, j, k, dimmax);
      r == BumpAll(a, vs) && ts == Aimed(coeff, s, vs)
  {
    r, ts := a, [];
    ghost var vs: seq<int> := [];
    var g := 1;
    while g <= dimmax
      invariant 1 <= g <= if dimmax >= 0 then dimmax + 1 else 1
      invariant vs == GradIndices(ncoords, nd, i, j, k, g - 1) && Natural(vs)
      invariant r == BumpAll(a, vs) && ts == Aimed(coeff, s, vs)
    {
      var index := GradSlot(ncoords, nd, i, j, k, g);
      GradIndexNatural(ncoords, nd, i, j, k, g);
      GradIndicesSnoc(ncoords, nd, i, j, k, g);
      ts := ts + [Target(coeff, s, index)];
      r := BumpSlot(r, index);
      BumpAllSnoc(a, vs, index);
      vs := vs + [index];
      g := g + 1;
    }
    GradIndicesClamp(ncoords, nd, i, j, k, g - 1, dimmax);
  }

  /** The statements after the target is appended: grow the array to hold
   *  the slot and count it unless it came from a checkpoint. */
  method BumpSlot(a: seq<CountFloat>, index: nat) returns (r: seq<CountFloat>)
    ensures r == Bump(a, index)
  {
    r := Grow(a, index, Zero);
    if !r[index].loaded {
      r := r[index := r[index].(count := r[index].count + 1)];
    }
  }

  lemma GradIndicesClamp(ncoords: int, nd: int, i: int, j: int, k: int, n: int, dimmax: int)
    requires n == dimmax || (n == 0 && dimmax < 0)
    ensures GradIndices(ncoords, nd, i, j, k, n) == GradIndices(ncoords, nd, i, j, k, dimmax)
  {
  }

  lemma GradIndicesSnoc(ncoords: int, nd: int, i: int, j: int, k: int, g: int)
    requires g >= 1
    ensures GradIndices(ncoords, nd, i, j, k, g) ==
      GradIndices(ncoords, nd, i, j, k, g - 1) + [GradIndex(ncoords, nd, i, j, k, g)]
  {
  }

  lemma BumpAllSnoc(a: seq<CountFloat>, vs: seq<int>, v: nat)
    requires Natural(vs)
    ensures Natural(vs + [v]) && BumpAll(a, vs + [v]) == Bump(BumpAll(a, vs), v)
  {
    assert (vs + [v])[..|vs|] == vs;
  }

  /** GradDerivative's loop body for one proto. */
  method GradProtoCalc(st: Store, p: Proto, ncoords: int, nd: int, i: int, j: int, k: int, dimmax: int, s: Slice, dir: string)
    returns (st': Store, c: Option<Calc>)
    requires GradArgs(nd, i, j, k) && ncoords >= 0
    ensures Natural(GradIndices(ncoords, nd, i, j, k, dimmax))
    ensures (st', c) == GradOut(st, p, GradIndices(ncoords, nd, i, j, k, dimmax), s, dir)
  {
    var arr, ts := GradClaim(Get(st, s), ncoords, nd, i, j, k, dimmax, p.coeff as real, s);
    st' := Put(st, s, arr);
    var temp := Calc(JoinPath(dir, p.name), ts, 0.0, false, p.scale, None);
    ghost var vs := GradIndices(ncoords, nd, i, j, k, dimmax);
    assert (st', temp) == GradStaged(st, p, vs, s, dir);
    GradStagedPresent(st, p, vs, s, dir);
    c := Finish(st', p, temp);
  }

  lemma GradStagedPresent(st: Store, p: Proto, vs: seq<int>, s: Slice, dir: string)
    requires Natural(vs)
    ensures var (st1, temp) := GradStaged(st, p, vs, s, dir);
      forall u :: u in temp.targets ==> Present(st1, u)
  {
    BumpAllCounts(Get(st, s), vs);
  }

  // ---------------------------------------------------------------------
  // GradDerivative

  /** The switch on j and k: the order of the table, the array and the
   *  number of gradient components each geometry feeds. */
  function GradOrder(j: int, k: int): int {
    if j == 0 && k == 0 then 1 else if k == 0 then 2 else 3
  }

  function GradTarget(j: int, k: int): Slice {
    if j == 0 && k == 0 then Fc2 else if k == 0 then Fc3 else Fc4
  }

  function DimMax(ncoords: int, j: int, k: int): int {
    if j == 0 && k == 0 then ncoords else if k == 0 then j else k
  }

  function GradTable(i: int, j: int, k: int): Stencil {
    if j == 0 && k == 0 then Table1(i)
    else if k == 0 then Table2Sound(i, j); Table2(i, j).value
    else Table3Sound(i, j, k); Table3(i, j, k).value
  }

  /** The calcs the loop over the protos emits, and the arrays it leaves;
   *  every proto aims at the same slots vs. */
  function GradEmit(st: Store, ps: seq<Proto>, vs: seq<int>, s: Slice, dir: string): (Store, seq<Calc>)
    requires Natural(vs)
    decreases |ps|
  {
    if ps == [] then (st, [])
    else
      var (st1, cs) := GradEmit(st, ps[..|ps| - 1], vs, s, dir);
      var (st2, c) := GradOut(st1, ps[|ps| - 1], vs, s, dir);
      (st2, if c.Some? then cs + [c.value] else cs)
  }

  /** GradDerivative for (i, j, k): j and k are 0 for the orders they do
   *  not reach. */
  method GradDerivative(jobs: JobCounter, st: Store, scale: real, dir: string, ncoords: nat, i: int, j: int, k: int)
    returns (st': Store, calcs: seq<Calc>)
    requires GradArgs(GradOrder(j, k), i, j, k)
    modifies jobs
    ensures Natural(GradIndices(ncoords, GradOrder(j, k), i, j, k, DimMax(ncoords, j, k)))
    ensures (st', calcs) == GradEmit(st, Protos(GradTable(i, j, k), scale, old(jobs.jobNum)),
                                     GradIndices(ncoords, GradOrder(j, k), i, j, k, DimMax(ncoords, j, k)),
                                     GradTarget(j, k), dir)
    ensures jobs.jobNum == old(jobs.jobNum) + Hashed(GradTable(i, j, k).rows)
  {
    var protos := MakeGradProtos(jobs, scale, i, j, k);
    st', calcs := GradEmitAll(st, protos, ncoords, i, j, k, dir);
  }

  /** GradDerivative's loop over the protos. */
  method GradEmitAll(st: Store, protos: seq<Proto>, ncoords: nat, i: int, j: int, k: int, dir: string)
    returns (st': Store, calcs: seq<Calc>)
    requires GradArgs(GradOrder(j, k), i, j, k)
    ensures Natural(GradIndices(ncoords, GradOrder(j, k), i, j, k, DimMax(ncoords, j, k)))
    ensures (st', calcs) == GradEmit(st, protos, GradIndices(ncoords, GradOrder(j, k), i, j, k, DimMax(ncoords, j, k)),
                                     GradTarget(j, k), dir)
  {
    var nd, dimmax, target := GradOrder(j, k), DimMax(ncoords, j, k), GradTarget(j, k);
    GradIndicesNatural(ncoords, nd, i, j, k, dimmax);
    ghost var vs := GradIndices(ncoords, nd, i, j, k, dimmax);
    st', calcs := st, [];
    var m := 0;
    while m < |protos|
      invariant m <= |protos|
      invariant (st', calcs) == GradEmit(st, protos[..m], vs, target, dir)
    {
      assert protos[..m + 1][..m] == protos[..m];
      var c;
      st', c := GradProtoCalc(st', protos[m], ncoords, nd, i, j, k, dimmax, target, dir);
      if c.Some? {
        calcs := calcs + [c.value];
      }
      m := m + 1;
    }
    assert protos[..m] == protos;
  }

  /** GradDerivative's switch: the protos of the table one order lower. */
  method MakeGradProtos(jobs: JobCounter, scale: real, i: int, j: int, k: int) returns (protos: seq<Proto>)
    modifies jobs
    ensures protos == Protos(GradTable(i, j, k), scale, old(jobs.jobNum))
    ensures jobs.jobNum == old(jobs.jobNum) + Hashed(GradTable(i, j, k).rows)
  {
    if j == 0 && k == 0 {
      protos := Make1D(jobs, scale, i);
    } else if k == 0 {
      protos := Make2D(jobs, scale, i, j);
    } else {
      protos := Make3D(jobs, scale, i, j, k);
    }
  }

  // ---------------------------------------------------------------------
  // The slots

  /** Every slot exists: the position of coordinates from 1 is natural. */
  lemma GradIndexNatural(ncoords: int, nd: int, i: int, j: int, k: int, g: int)
    requires GradArgs(nd, i, j, k) && ncoords >= 0 && g >= 1
    ensures GradIndex(ncoords, nd, i, j, k, g) >= 0
  {
    var id := GradId(nd, i, j, k, g);
    assert 2 <= |id| <= 4 && forall m :: 0 <= m < |id| ==> id[m] >= 1;
    PositionsNatural(ncoords, id);
  }

  lemma GradIndicesNatural(ncoords: int, nd: int, i: int, j: int, k: int, n: int)
    requires GradArgs(nd, i, j, k) && ncoords >= 0
    ensures Natural(GradIndices(ncoords, nd, i, j, k, n))
  {
    var vs := GradIndices(ncoords, nd, i, j, k, n);
    forall m | 0 <= m < |vs|
      ensures vs[m] >= 0
    {
      GradIndexNatural(ncoords, nd, i, j, k, m + 1);
    }
  }

  // ---------------------------------------------------------------------
  // What GradDerivative leaves behind

  lemma GradStagedExtends(st: Store, p: Proto, vs: seq<int>, s: Slice, dir: string)
    requires Natural(vs)
    ensures Extends(st, GradStaged(st, p, vs, s, dir).0)
  {
    BumpAllCounts(Get(st, s), vs);
  }

  /** The calc one proto yields, if any, is awaited by the arrays left
   *  after it and was made for it. */
  lemma GradOutAwaiting(st: Store, p: Proto, vs: seq<int>, s: Slice, nd: int, dir: string)
    requires Natural(vs) && 1 <= nd <= 3
    ensures var (st2, c) := GradOut(st, p, vs, s, dir);
      Extends(st, st2) && (c.Some? ==> Awaiting(st2, c.value) && Spawned(c.value, p, nd, dir))
  {
    var (st2, temp) := GradStaged(st, p, vs, s, dir);
    GradStagedExtends(st, p, vs, s, dir);
    GradStagedPresent(st, p, vs, s, dir);
    EmittedAwaiting(st2, p, temp);
  }

  /** Every calc GradDerivative returns is awaited by the arrays it
   *  leaves, there are no more calcs than protos, and each was made for
   *  one of them; the arrays only grow, and checkpointed entries are kept. */
  lemma {:induction false} GradEmitAwaiting(st: Store, ps: seq<Proto>, vs: seq<int>, s: Slice, nd: int, dir: string)
    requires Natural(vs) && 1 <= nd <= 3
    ensures var (st', cs) := GradEmit(st, ps, vs, s, dir);
      && Extends(st, st')
      && |cs| <= |ps|
      && (forall q :: 0 <= q < |cs| ==> Awaiting(st', cs[q]))
      && (forall q :: 0 <= q < |cs| ==> exists m :: 0 <= m < |ps| && Spawned(cs[q], ps[m], nd, dir))
    decreases |ps|
  {
    if ps != [] {
      var p, init := ps[|ps| - 1], ps[..|ps| - 1];
      GradEmitAwaiting(st, init, vs, s, nd, dir);
      var (st1, cs1) := GradEmit(st, init, vs, s, dir);
      GradOutAwaiting(st1, p, vs, s, nd, dir);
      var (st2, c) := GradOut(st1, p, vs, s, dir);
      ExtendsTrans(st, st1, st2);
      var cs := if c.Some? then cs1 + [c.value] else cs1;
      forall q | 0 <= q < |cs|
        ensures Awaiting(st2, cs[q])
        ensures exists m :: 0 <= m < |ps| && Spawned(cs[q], ps[m], nd, dir)
      {
        if q < |cs1| {
          AwaitingExtends(st1, st2, cs1[q]);
          var m :| 0 <= m < |init| && Spawned(cs1[q], init[m], nd, dir);
          assert ps[m] == init[m];
        } else {
          assert Spawned(cs[q], ps[|ps| - 1], nd, dir);
        }
      }
    }
  }

  /** The array after n protos have each aimed at the slots vs. */
  function BumpTimes(a: seq<CountFloat>, vs: seq<int>, n: nat): seq<CountFloat>
    requires Natural(vs)
  {
    if n == 0 then a else BumpAll(BumpTimes(a, vs, n - 1), vs)
  }

  /** GradDerivative touches only its target array, which it leaves with
   *  the slots aimed at once per proto. */
  lemma {:induction false} GradEmitArrays(st: Store, ps: seq<Proto>, vs: seq<int>, s: Slice, dir: string)
    requires Natural(vs)
    ensures var st' := GradEmit(st, ps, vs, s, dir).0;
      Get(st', s) == BumpTimes(Get(st, s), vs, |ps|) && forall t :: t != s ==> Get(st', t) == Get(st, t)
    decreases |ps|
  {
    if ps != [] {
      GradEmitArrays(st, ps[..|ps| - 1], vs, s, dir);
      GradEmitStep(st, ps, vs, s, dir);
    }
  }

  /** After n protos each slot exists, and an entry not loaded from a
   *  checkpoint has counted n times for each time vs names it, on top of
   *  what it held (zero if new). */
  lemma {:induction false} BumpTimesCounts(a: seq<CountFloat>, vs: seq<int>, n: nat)
    requires Natural(vs)
    ensures var r := BumpTimes(a, vs, n);
      && ArrExtends(a, r)
      && (n > 0 ==> forall m :: 0 <= m < |vs| ==> vs[m] < |r|)
      && (forall v :: 0 <= v < |r| && !r[v].loaded ==>
            r[v] == Before(a, v).(count := Before(a, v).count + n * multiset(vs)[v]))
  {
    if n > 0 {
      BumpTimesCounts(a, vs, n - 1);
      var q := BumpTimes(a, vs, n - 1);
      BumpAllCounts(q, vs);
      var r := BumpAll(q, vs);
      forall v | 0 <= v < |r| && !r[v].loaded
        ensures r[v] == Before(a, v).(count := Before(a, v).count + n * multiset(vs)[v])
      {
        CountStep(a, q, vs, n - 1, v);
      }
    }
  }

  /** One more proto aiming at vs moves each entry it reaches on by the
   *  number of times vs names it. */
  lemma CountStep(a: seq<CountFloat>, q: seq<CountFloat>, vs: seq<int>, k: nat, v: int)
    requires Natural(vs) && ArrExtends(a, q)
    requires k > 0 ==> forall m :: 0 <= m < |vs| ==> vs[m] < |q|
    requires forall u :: 0 <= u < |q| && !q[u].loaded ==>
      q[u] == Before(a, u).(count := Before(a, u).count + k * multiset(vs)[u])
    requires 0 <= v < |BumpAll(q, vs)| && !BumpAll(q, vs)[v].loaded
    ensures BumpAll(q, vs)[v] == Before(a, v).(count := Before(a, v).count + (k + 1) * multiset(vs)[v])
  {
    BumpAllCounts(q, vs);
    var n := multiset(vs)[v];
    assert (k + 1) * n == k * n + n;
    if v >= |q| && k > 0 {
      assert forall m :: 0 <= m < |vs| ==> vs[m] != v;
      assert v !in vs;
    }
  }

  /** The array after one more proto: its slots aimed at once more. */
  lemma GradEmitStep(st: Store, ps: seq<Proto>, vs: seq<int>, s: Slice, dir: string)
    requires Natural(vs) && ps != []
    ensures var st1, st2 := GradEmit(st, ps[..|ps| - 1], vs, s, dir).0, GradEmit(st, ps, vs, s, dir).0;
      Get(st2, s) == BumpAll(Get(st1, s), vs) && forall t :: t != s ==> Get(st2, t) == Get(st1, t)
  {
  }
}
