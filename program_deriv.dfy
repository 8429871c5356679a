/** program.go: Derivative and GradDerivative, which turn the stencil of
 *  one force constant into the calculations to run and set up the
 *  countdown of every array slot those calculations feed. The global
 *  arrays are a Store value that each call takes and returns; the job
 *  counter is the shared JobCounter. Displacing the geometry (Step,
 *  ZipXYZ, FormatCart) and writing the input file (WriteInput) only
 *  produce the job's input file and are not modelled. */
module Derivatives {
  import opened Text
  import opened Types
  import opened PackedIndex
  import opened HashName
  import opened FinDiff

  const Zero := CountFloat(0.0, 0, false)

  /** filepath.Join(dir, name) for a name without separators. */
  function JoinPath(dir: string, name: string): string {
    if dir == "" then name else dir + "/" + name
  }

  /** The slots Index(ncoords, false, index...) gives. */
  function Slots(ncoords: int, index: seq<int>): seq<int> {
    var r := Positions(ncoords, SortInts(index));
    if r.Ok? then r.value else []
  }

  /** The slots E2dIndex(ncoords, steps...) gives. */
  function E2dSlots(ncoords: int, steps: seq<int>): seq<int> {
    var r := Positions(2 * ncoords, SortInts(GridIndices(ncoords, steps)));
    if r.Ok? then r.value else []
  }

  predicate Natural(vs: seq<int>) {
    forall m :: 0 <= m < |vs| ==> vs[m] >= 0
  }

  /** What Derivative needs of a proto not to panic: Index accepts its
   *  index and gives slots that exist, and so does E2dIndex for a proto
   *  with two steps. */
  predicate Placeable(ncoords: int, p: Proto) {
    && Positions(ncoords, SortInts(p.index)).Ok?
    && Natural(Slots(ncoords, p.index))
    && (|p.steps| == 2 ==>
          Positions(2 * ncoords, SortInts(GridIndices(ncoords, p.steps))).Ok?
          && E2dSlots(ncoords, p.steps) != [] && Natural(E2dSlots(ncoords, p.steps)))
  }

  // ---------------------------------------------------------------------
  // One slot taken as a target

  /** The array after one slot v is taken: grown to hold it and, unless the
   *  slot came from a checkpoint, its count set to count. */
  function Reset(a: seq<CountFloat>, v: nat, fill: CountFloat, count: int): seq<CountFloat> {
    var g := Grown(a, v, fill);
    if g[v].loaded then g else g[v := g[v].(count := count)]
  }

  function ResetAll(a: seq<CountFloat>, vs: seq<int>, fill: CountFloat, count: int): seq<CountFloat>
    requires Natural(vs)
    decreases |vs|
  {
    if vs == [] then a
    else Reset(ResetAll(a, vs[..|vs| - 1], fill, count), vs[|vs| - 1], fill, count)
  }

  /** One target per slot, in order. */
  function Aimed(coeff: real, s: Slice, vs: seq<int>): (r: seq<Target>)
    ensures |r| == |vs| && forall m :: 0 <= m < |vs| ==> r[m] == Target(coeff, s, vs[m])
    decreases |vs|
  {
    if vs == [] then [] else Aimed(coeff, s, vs[..|vs| - 1]) + [Target(coeff, s, vs[|vs| - 1])]
  }

  /** The inner loop over the slots: each is grown into the array, its
   *  count set unless loaded, and aimed at. */
  method ClaimSlots(a: seq<CountFloat>, vs: seq<int>, fill: CountFloat, count: int, coeff: real, s: Slice)
    returns (r: seq<CountFloat>, ts: seq<Target>)
    requires Natural(vs)
    ensures r == ResetAll(a, vs, fill, count) && ts == Aimed(coeff, s, vs)
  {
    r, ts := a, [];
    var m := 0;
    while m < |vs|
      invariant m <= |vs|
      invariant r == ResetAll(a, vs[..m], fill, count) && ts == Aimed(coeff, s, vs[..m])
    {
      assert vs[..m + 1][..m] == vs[..m];
      var v := vs[m];
      r := Grow(r, v, fill);
      if !r[v].loaded {
        r := r[v := r[v].(count := count)];
      }
      ts := ts + [Target(coeff, s, v)];
      m := m + 1;
    }
    assert vs[..m] == vs;
  }

  /** Taking slots keeps to the checkpoint: every slot aimed at exists
   *  afterwards and, unless loaded, holds count; loaded slots and slots not
   *  aimed at are left as they were; new slots are copies of fill, or fill
   *  with the count when aimed at, and are not loaded. */
  lemma {:induction false} ResetAllShape(a: seq<CountFloat>, vs: seq<int>, fill: CountFloat, count: int)
    requires Natural(vs) && !fill.loaded
    ensures var r := ResetAll(a, vs, fill, count);
      && |r| >= |a|
      && (forall m :: 0 <= m < |vs| ==> vs[m] < |r| && (!r[vs[m]].loaded ==> r[vs[m]].count == count))
      && (forall m :: 0 <= m < |a| ==> r[m].loaded == a[m].loaded && (a[m].loaded ==> r[m] == a[m]))
      && (forall m :: |a| <= m < |r| ==> !r[m].loaded)
      && (forall m :: 0 <= m < |r| && m !in vs ==> r[m] == if m < |a| then a[m] else fill)
    decreases |vs|
  {
    if vs != [] {
      var init, v := vs[..|vs| - 1], vs[|vs| - 1];
      ResetAllShape(a, init, fill, count);
      var q := ResetAll(a, init, fill, count);
      var g := Grown(q, v, fill);
      var r := ResetAll(a, vs, fill, count);
      assert r == Reset(q, v, fill, count);
      assert |g| == |r|;
      forall m | 0 <= m < |vs|
        ensures vs[m] < |r| && (!r[vs[m]].loaded ==> r[vs[m]].count == count)
      {
        if m < |init| {
          assert init[m] == vs[m];
          if vs[m] != v {
            assert r[vs[m]] == g[vs[m]] == q[vs[m]];
          }
        }
      }
      forall m | 0 <= m < |r| && m !in vs
        ensures r[m] == if m < |a| then a[m] else fill
      {
        assert m !in init;
        assert m != v;
        if m < |q| {
          assert r[m] == g[m] == q[m];
        } else {
          assert r[m] == g[m] == fill;
          assert !(m < |a|);
        }
      }
      forall m | 0 <= m < |a|
        ensures r[m].loaded == a[m].loaded && (a[m].loaded ==> r[m] == a[m])
      {
        assert g[m] == q[m];
      }
      forall m | |a| <= m < |r|
        ensures !r[m].loaded
      {
        if m < |q| {
          assert g[m] == q[m];
        }
      }
    }
  }

  // ---------------------------------------------------------------------
  // Removing the loaded targets

  /** The target's slot exists and came from a checkpoint. */
  predicate Settled(st: Store, t: Target) {
    0 <= t.index < |Get(st, t.slice)| && Get(st, t.slice)[t.index].loaded
  }

  predicate Present(st: Store, t: Target) {
    0 <= t.index < |Get(st, t.slice)|
  }

  /** The targets among the first c that the removal loop keeps: those
   *  whose slot is not loaded, in their order. */
  function Kept(st: Store, ts: seq<Target>, c: nat): seq<Target>
    requires c <= |ts|
    decreases c
  {
    if c == 0 then []
    else Kept(st, ts, c - 1) + (if Settled(st, ts[c - 1]) then [] else [ts[c - 1]])
  }

  function Live(st: Store, ts: seq<Target>): seq<Target> {
    Kept(st, ts, |ts|)
  }

  /** Live keeps exactly the targets whose slot is not loaded. */
  lemma {:induction false} KeptMembers(st: Store, ts: seq<Target>, c: nat)
    requires c <= |ts|
    ensures |Kept(st, ts, c)| <= c
    ensures forall t :: t in Kept(st, ts, c) <==> t in ts[..c] && !Settled(st, t)
    decreases c
  {
    if c > 0 {
      KeptMembers(st, ts, c - 1);
      assert ts[..c] == ts[..c - 1] + [ts[c - 1]];
    }
  }

  lemma LiveMembers(st: Store, ts: seq<Target>)
    ensures |Live(st, ts)| <= |ts|
    ensures forall t :: t in Live(st, ts) <==> t in ts && !Settled(st, t)
  {
    KeptMembers(st, ts, |ts|);
    assert ts[..|ts|] == ts;
  }

  /** The removal loop, which deletes a loaded target in place and steps
   *  over a kept one. */
  method RemoveSettled(st: Store, ts0: seq<Target>) returns (ts: seq<Target>)
    requires forall u :: u in ts0 ==> Present(st, u)
    ensures ts == Live(st, ts0)
  {
    ts := ts0;
    var t := 0;
    ghost var c := 0;
    while t < |ts|
      invariant 0 <= c <= |ts0| && 0 <= t <= |ts|
      invariant ts[..t] == Kept(st, ts0, c) && ts[t..] == ts0[c..]
      decreases |ts0| - c
    {
      assert ts[t] == ts0[c] by { assert ts[t..][0] == ts0[c..][0]; }
      assert ts0[c] in ts0;
      var targ := ts[t];
      if Get(st, targ.slice)[targ.index].loaded {
        ghost var before := ts;
        ts := ts[..t] + ts[t + 1..];
        assert ts[..t] == before[..t];
        assert ts[t..] == before[t + 1..] == before[t..][1..];
      } else {
        assert ts[..t + 1] == ts[..t] + [ts[t]];
        assert ts[t + 1..] == ts[t..][1..];
        t := t + 1;
      }
      c := c + 1;
    }
    assert ts[t..] == [] && ts[..t] == ts;
  }

  // ---------------------------------------------------------------------
  // One proto of Derivative

  /** What the loop body needs of a proto's slots vs (from Index) and e2d
   *  slots ev (from E2dIndex, used only with two steps). */
  predicate Fits(p: Proto, vs: seq<int>, ev: seq<int>) {
    Natural(vs) && (|p.steps| == 2 ==> ev != [] && Natural(ev))
  }

  lemma PlaceableFits(ncoords: int, p: Proto)
    requires Placeable(ncoords, p)
    ensures Fits(p, Slots(ncoords, p.index), E2dSlots(ncoords, p.steps))
  {
  }

  /** The Calc Derivative's loop body builds for proto p before it drops the
   *  loaded targets, and the arrays it leaves: p's slots vs in the target
   *  array are taken with count nprotos; a second-derivative proto with two
   *  steps also takes its e2d slots ev with count 1, while a
   *  fourth-derivative one with two steps does not run, taking its energy
   *  from a finished e2d point or else waiting on that point as its
   *  Source. */
  function Staged(st: Store, p: Proto, vs: seq<int>, ev: seq<int>, nprotos: int, s: Slice, nd: int, dir: string): (Store, Calc)
    requires Fits(p, vs, ev)
  {
    var st1 := Put(st, s, ResetAll(Get(st, s), vs, Zero, nprotos));
    var temp := Calc(JoinPath(dir, p.name), Aimed(p.coeff as real, s, vs), 0.0, false, p.scale, None);
    if |p.steps| == 2 && nd == 2 then
      (Put(st1, E2d, ResetAll(st1.e2d, ev, CountFloat(0.0, 1, false), 1)),
       temp.(targets := temp.targets + Aimed(1.0, E2d, ev)))
    else if |p.steps| == 2 && nd == 4 then
      var id := ev[0];
      if |st1.e2d| > id && st1.e2d[id].val != 0.0 then (st1, temp.(result := st1.e2d[id].val, noRun := true))
      else (st1, temp.(src := Some(id), noRun := true))
    else (st1, temp)
  }

  /** Then the loaded targets are dropped, and the Calc is kept only when a
   *  target remains; a reference-geometry "E0" point does not run. */
  function Emitted(st: Store, p: Proto, temp: Calc): Option<Calc> {
    var live := Live(st, temp.targets);
    if live == [] then None else Some(temp.(targets := live, noRun := temp.noRun || Contains(p.name, "E0")))
  }

  function ProtoOut(st: Store, p: Proto, vs: seq<int>, ev: seq<int>, nprotos: int, s: Slice, nd: int, dir: string): (Store, Option<Calc>)
    requires Fits(p, vs, ev)
  {
    var (st1, temp) := Staged(st, p, vs, ev, nprotos, s, nd, dir);
    (st1, Emitted(st1, p, temp))
  }

  /** Every slot taken exists afterwards. */
  lemma {:induction false} ResetAllCovers(a: seq<CountFloat>, vs: seq<int>, fill: CountFloat, count: int)
    requires Natural(vs)
    ensures |ResetAll(a, vs, fill, count)| >= |a|
    ensures forall m :: 0 <= m < |vs| ==> vs[m] < |ResetAll(a, vs, fill, count)|
    decreases |vs|
  {
    if vs != [] {
      var init := vs[..|vs| - 1];
      ResetAllCovers(a, init, fill, count);
      assert forall m :: 0 <= m < |init| ==> init[m] == vs[m];
    }
  }

  /** The targets aimed at the slots taken all exist afterwards. */
  lemma ClaimedPresent(st: Store, s: Slice, vs: seq<int>, fill: CountFloat, count: int, coeff: real)
    requires Natural(vs)
    ensures forall u :: u in Aimed(coeff, s, vs) ==> Present(Put(st, s, ResetAll(Get(st, s), vs, fill, count)), u)
  {
    ResetAllCovers(Get(st, s), vs, fill, count);
  }

  /** Claiming slots in one array leaves the targets of another present. */
  lemma OtherPresent(st: Store, s: Slice, a: seq<CountFloat>, ts: seq<Target>)
    requires forall u :: u in ts ==> Present(st, u) && u.slice != s
    ensures forall u :: u in ts ==> Present(Put(st, s, a), u)
  {
  }

  /** Every staged target points at a slot that exists. */
  lemma {:induction false} StagedPresent(st: Store, p: Proto, vs: seq<int>, ev: seq<int>, nprotos: int, s: Slice, nd: int, dir: string)
    requires Fits(p, vs, ev) && s != E2d
    ensures var (st1, temp) := Staged(st, p, vs, ev, nprotos, s, nd, dir);
      forall u :: u in temp.targets ==> Present(st1, u)
  {
    var ts := Aimed(p.coeff as real, s, vs);
    ClaimedPresent(st, s, vs, Zero, nprotos, p.coeff as real);
    if |p.steps| == 2 && nd == 2 {
      var st1 := Put(st, s, ResetAll(Get(st, s), vs, Zero, nprotos));
      ClaimedPresent(st1, E2d, ev, CountFloat(0.0, 1, false), 1, 1.0);
      OtherPresent(st1, E2d, ResetAll(st1.e2d, ev, CountFloat(0.0, 1, false), 1), ts);
    }
  }

  /** The part of the loop body before the removal loop. */
  method Stage(st: Store, p: Proto, nprotos: int, s: Slice, nd: int, ncoords: int, dir: string)
    returns (st': Store, temp: Calc)
    requires Placeable(ncoords, p) && s != E2d
    ensures (st', temp) == Staged(st, p, Slots(ncoords, p.index), E2dSlots(ncoords, p.steps), nprotos, s, nd, dir)
  {
    temp := Calc(JoinPath(dir, p.name), [], 0.0, false, p.scale, None);
    var id := new int[|p.index|](q requires 0 <= q < |p.index| => p.index[q]);
    assert id[..] == p.index;
    var slots := PackedIndex.Index(ncoords, false, id);
    var arr, ts := ClaimSlots(Get(st, s), slots.value, Zero, nprotos, p.coeff as real, s);
    st' := Put(st, s, arr);
    temp := temp.(targets := ts);
    if |p.steps| == 2 && nd == 2 {
      var ev := E2dIndex(ncoords, p.steps);
      var e2d, ets := ClaimSlots(st'.e2d, ev.value, CountFloat(0.0, 1, false), 1, 1.0, E2d);
      st' := Put(st', E2d, e2d);
      temp := temp.(targets := temp.targets + ets);
    } else if |p.steps| == 2 && nd == 4 {
      var ev := E2dIndex(ncoords, p.steps);
      var e := ev.value[0];
      if |st'.e2d| > e && st'.e2d[e].val != 0.0 {
        temp := temp.(result := st'.e2d[e].val);
      } else {
        temp := temp.(src := Some(e));
      }
      temp := temp.(noRun := true);
    }
  }

  /** Derivative's loop body for one proto. */
  method ProtoCalc(st: Store, p: Proto, nprotos: int, s: Slice, nd: int, ncoords: int, dir: string)
    returns (st': Store, c: Option<Calc>)
    requires Placeable(ncoords, p) && s != E2d
    ensures (st', c) == ProtoOut(st, p, Slots(ncoords, p.index), E2dSlots(ncoords, p.steps), nprotos, s, nd, dir)
  {
    var temp;
    st', temp := Stage(st, p, nprotos, s, nd, ncoords, dir);
    PlaceableFits(ncoords, p);
    StagedPresent(st, p, Slots(ncoords, p.index), E2dSlots(ncoords, p.steps), nprotos, s, nd, dir);
    c := Finish(st', p, temp);
  }

  /** The end of the loop body: the removal loop, then the Calc is kept
   *  when targets remain. */
  method Finish(st: Store, p: Proto, temp: Calc) returns (c: Option<Calc>)
    requires forall u :: u in temp.targets ==> Present(st, u)
    ensures c == Emitted(st, p, temp)
  {
    var live := RemoveSettled(st, temp.targets);
    var t := temp.(targets := live);
    if |t.targets| > 0 {
      if Contains(p.name, "E0") {
        t := t.(noRun := true);
      }
      c := Some(t);
    } else {
      c := None;
    }
  }

  // ---------------------------------------------------------------------
  // Derivative

  /** The switch on k and l: the table, the array its targets go to and
   *  the order of the derivative. */
  function Order(k: int, l: int): int {
    if k == 0 && l == 0 then 2 else if l == 0 then 3 else 4
  }

  function TargetOf(k: int, l: int): Slice {
    if k == 0 && l == 0 then Fc2 else if l == 0 then Fc3 else Fc4
  }

  function Args(i: int, j: int, k: int, l: int): seq<int> {
    if k == 0 && l == 0 then [i, j] else if l == 0 then [i, j, k] else [i, j, k, l]
  }

  function Table(i: int, j: int, k: int, l: int): (t: Stencil)
    ensures Sound(t, Args(i, j, k, l))
  {
    if k == 0 && l == 0 then Table2Sound(i, j); Table2(i, j).value
    else if l == 0 then Table3Sound(i, j, k); Table3(i, j, k).value
    else Table4Sound(i, j, k, l); Table4(i, j, k, l).value
  }

  predicate AllPlaceable(ncoords: int, ps: seq<Proto>) {
    forall m :: 0 <= m < |ps| ==> Placeable(ncoords, ps[m])
  }

  /** The calcs the loop over the protos emits, and the arrays it leaves. */
  function Emit(st: Store, ps: seq<Proto>, nprotos: int, s: Slice, nd: int, ncoords: int, dir: string): (Store, seq<Calc>)
    requires AllPlaceable(ncoords, ps)
    decreases |ps|
  {
    if ps == [] then (st, [])
    else
      var p := ps[|ps| - 1];
      var (st1, cs) := Emit(st, ps[..|ps| - 1], nprotos, s, nd, ncoords, dir);
      PlaceableFits(ncoords, p);
      var (st2, c) := ProtoOut(st1, p, Slots(ncoords, p.index), E2dSlots(ncoords, p.steps), nprotos, s, nd, dir);
      (st2, if c.Some? then cs + [c.value] else cs)
  }

  /** Derivative for the force constant (i, j, k, l): k and l are 0 for
   *  the orders they do not reach, and the coordinates count from 1 (an
   *  index of 0 would address a negative slot and panic). */
  method Derivative(jobs: JobCounter, st: Store, scale: real, dir: string, ncoords: nat, i: int, j: int, k: int, l: int)
    returns (st': Store, calcs: seq<Calc>)
    requires 1 <= i && 1 <= j && 0 <= k && 0 <= l && (l != 0 ==> k != 0)
    modifies jobs
    ensures AllPlaceable(ncoords, Protos(Table(i, j, k, l), scale, old(jobs.jobNum)))
    ensures var ps := Protos(Table(i, j, k, l), scale, old(jobs.jobNum));
      (st', calcs) == Emit(st, ps, |ps|, TargetOf(k, l), Order(k, l), ncoords, dir)
    ensures jobs.jobNum == old(jobs.jobNum) + Hashed(Table(i, j, k, l).rows)
  {
    var protos := MakeProtos(jobs, scale, i, j, k, l);
    var target, ndims := TargetOf(k, l), Order(k, l);
    DerivativePlaceable(i, j, k, l, scale, old(jobs.jobNum), ncoords);
    st', calcs := EmitAll(st, protos, target, ndims, ncoords, dir);
  }

  /** Derivative's switch: the protos of the order's table. */
  method MakeProtos(jobs: JobCounter, scale: real, i: int, j: int, k: int, l: int) returns (protos: seq<Proto>)
    modifies jobs
    ensures protos == Protos(Table(i, j, k, l), scale, old(jobs.jobNum))
    ensures jobs.jobNum == old(jobs.jobNum) + Hashed(Table(i, j, k, l).rows)
  {
    if k == 0 && l == 0 {
      protos := Make2D(jobs, scale, i, j);
    } else if l == 0 {
      protos := Make3D(jobs, scale, i, j, k);
    } else {
      protos := Make4D(jobs, scale, i, j, k, l);
    }
  }

  /** Derivative's loop over the protos. */
  method EmitAll(st: Store, protos: seq<Proto>, target: Slice, ndims: int, ncoords: int, dir: string)
    returns (st': Store, calcs: seq<Calc>)
    requires AllPlaceable(ncoords, protos) && target != E2d
    ensures (st', calcs) == Emit(st, protos, |protos|, target, ndims, ncoords, dir)
  {
    st', calcs := st, [];
    var m := 0;
    while m < |protos|
      invariant m <= |protos|
      invariant (st', calcs) == Emit(st, protos[..m], |protos|, target, ndims, ncoords, dir)
    {
      assert protos[..m + 1][..m] == protos[..m];
      var c;
      st', c := ProtoCalc(st', protos[m], |protos|, target, ndims, ncoords, dir);
      if c.Some? {
        calcs := calcs + [c.value];
      }
      m := m + 1;
    }
    assert protos[..m] == protos;
  }

  // ---------------------------------------------------------------------
  // Every proto of a table has slots

  /** Whatever order sort.Ints puts them in, indices from 1 stay from 1. */
  lemma SortedFromOne(s: seq<int>)
    requires forall m :: 0 <= m < |s| ==> s[m] >= 1
    ensures forall m :: 0 <= m < |s| ==> SortInts(s)[m] >= 1
  {
    var r := SortInts(s);
    SortIntsPermutes(s);
    forall m | 0 <= m < |r| ensures r[m] >= 1 {
      assert r[m] in multiset(r);
      assert r[m] in multiset(s);
      var q :| 0 <= q < |s| && s[q] == r[m];
    }
  }

  lemma MulNatural(a: int, b: int)
    requires a >= 0 && b >= 0
    ensures a * b >= 0
  {
  }

  /** Index succeeds on two to four indices from 1, and the slots are
   *  natural numbers. */
  lemma SlotsNatural(ncoords: int, index: seq<int>)
    requires ncoords >= 0 && 2 <= |index| <= 4
    requires forall m :: 0 <= m < |index| ==> index[m] >= 1
    ensures Positions(ncoords, SortInts(index)).Ok? && Natural(Slots(ncoords, index))
  {
    var id := SortInts(index);
    SortedFromOne(index);
    PositionsNatural(ncoords, id);
  }

  lemma PositionsNatural(ncoords: int, id: seq<int>)
    requires ncoords >= 0 && 2 <= |id| <= 4
    requires forall m :: 0 <= m < |id| ==> id[m] >= 1
    ensures Positions(ncoords, id).Ok? && Natural(Positions(ncoords, id).value)
  {
    if |id| == 2 {
      MulNatural(ncoords, id[0] - 1);
      MulNatural(ncoords, id[1] - 1);
    } else if |id| == 3 {
      ClosedForms(id[1]);
      ClosedForms(id[2]);
      assert Positions(ncoords, id).value == [id[0] + Tri(id[1]) + Tet(id[2]) - 1];
    } else {
      ClosedForms(id[1]);
      ClosedForms(id[2]);
      ClosedForms(id[3]);
      assert Positions(ncoords, id).value == [id[0] + Tri(id[1]) + Tet(id[2]) + Pent(id[3]) - 1];
    }
  }

  /** A step along a coordinate from 1 lands on the grid from 1. */
  lemma GridFromOne(ncoords: int, steps: seq<int>, index: seq<int>)
    requires ncoords >= 0
    requires forall m :: 0 <= m < |index| ==> index[m] >= 1
    requires forall t :: 0 <= t < |steps| ==> Along(steps[t], index)
    ensures forall m :: 0 <= m < |steps| ==> GridIndices(ncoords, steps)[m] >= 1
  {
    forall m | 0 <= m < |steps| ensures GridIndices(ncoords, steps)[m] >= 1 {
      assert Along(steps[m], index);
      if steps[m] in index {
        MemberFromOne(steps[m], index);
      } else {
        MemberFromOne(-steps[m], index);
      }
    }
  }

  lemma MemberFromOne(x: int, index: seq<int>)
    requires forall m :: 0 <= m < |index| ==> index[m] >= 1
    requires x in index
    ensures x >= 1
  {
  }

  /** Every proto of Derivative's table has slots. */
  lemma DerivativePlaceable(i: int, j: int, k: int, l: int, scale: real, n: nat, ncoords: nat)
    requires 1 <= i && 1 <= j && 0 <= k && 0 <= l && (l != 0 ==> k != 0)
    ensures AllPlaceable(ncoords, Protos(Table(i, j, k, l), scale, n))
  {
    var args := Args(i, j, k, l);
    assert forall m :: 0 <= m < |args| ==> args[m] >= 1;
    TablePlaceable(Table(i, j, k, l), args, scale, n, ncoords);
  }

  /** Every proto a sound table gives for coordinates from 1 has slots. */
  lemma TablePlaceable(t: Stencil, args: seq<int>, scale: real, n: nat, ncoords: int)
    requires Sound(t, args) && 2 <= |args| && ncoords >= 0
    requires forall m :: 0 <= m < |args| ==> args[m] >= 1
    ensures AllPlaceable(ncoords, Protos(t, scale, n))
  {
    var ps := Protos(t, scale, n);
    ProtosShape(t, scale, n);
    forall m | 0 <= m < |t.index| ensures t.index[m] >= 1 {
      assert t.index[m] in args;
    }
    forall m | 0 <= m < |ps| ensures Placeable(ncoords, ps[m]) {
      assert RowOk(t.rows[m], |args|, t.index);
      ProtoPlaceable(ncoords, ps[m]);
    }
  }

  /** A proto with two to four indices from 1, stepping along them, has
   *  slots. */
  lemma ProtoPlaceable(ncoords: int, p: Proto)
    requires ncoords >= 0 && 2 <= |p.index| <= 4
    requires forall m :: 0 <= m < |p.index| ==> p.index[m] >= 1
    requires forall t :: 0 <= t < |p.steps| ==> Along(p.steps[t], p.index)
    ensures Placeable(ncoords, p)
  {
    SlotsNatural(ncoords, p.index);
    if |p.steps| == 2 {
      GridFromOne(ncoords, p.steps, p.index);
      SlotsNatural(2 * ncoords, GridIndices(ncoords, p.steps));
    }
  }

  // ---------------------------------------------------------------------
  // What Derivative leaves behind

  /** y grows x the way taking slots does: nothing is dropped, the loaded
   *  (checkpointed) entries are untouched and the new ones are not loaded. */
  predicate ArrExtends(x: seq<CountFloat>, y: seq<CountFloat>) {
    && |y| >= |x|
    && (forall m :: 0 <= m < |x| ==> y[m].loaded == x[m].loaded && (x[m].loaded ==> y[m] == x[m]))
    && (forall m :: |x| <= m < |y| ==> !y[m].loaded)
  }

  predicate Extends(a: Store, b: Store) {
    && ArrExtends(a.e2d, b.e2d) && ArrExtends(a.fc2, b.fc2) && ArrExtends(a.fc3, b.fc3)
    && ArrExtends(a.fc4, b.fc4) && ArrExtends(a.cenergies, b.cenergies)
  }

  lemma ExtendsTrans(a: Store, b: Store, c: Store)
    requires Extends(a, b) && Extends(b, c)
    ensures Extends(a, c)
  {
  }

  /** A target waiting on a slot of a that is not loaded still waits on it
   *  in any extension of a. */
  lemma ExtendsKeeps(a: Store, b: Store, u: Target)
    requires Extends(a, b) && Present(a, u) && !Settled(a, u)
    ensures Present(b, u) && !Settled(b, u)
  {
  }

  lemma StagedExtends(st: Store, p: Proto, vs: seq<int>, ev: seq<int>, nprotos: int, s: Slice, nd: int, dir: string)
    requires Fits(p, vs, ev)
    ensures Extends(st, Staged(st, p, vs, ev, nprotos, s, nd, dir).0)
  {
    ResetAllShape(Get(st, s), vs, Zero, nprotos);
    var st1 := Put(st, s, ResetAll(Get(st, s), vs, Zero, nprotos));
    assert Extends(st, st1);
    if |p.steps| == 2 && nd == 2 {
      ResetAllShape(st1.e2d, ev, CountFloat(0.0, 1, false), 1);
      ExtendsTrans(st, st1, Put(st1, E2d, ResetAll(st1.e2d, ev, CountFloat(0.0, 1, false), 1)));
    }
  }

  /** Derivative only grows the arrays and never touches a checkpointed
   *  entry. */
  lemma {:induction false} EmitExtends(st: Store, ps: seq<Proto>, nprotos: int, s: Slice, nd: int, ncoords: int, dir: string)
    requires AllPlaceable(ncoords, ps)
    ensures Extends(st, Emit(st, ps, nprotos, s, nd, ncoords, dir).0)
    decreases |ps|
  {
    if ps != [] {
      var p := ps[|ps| - 1];
      var init := ps[..|ps| - 1];
      EmitExtends(st, init, nprotos, s, nd, ncoords, dir);
      var st1 := Emit(st, init, nprotos, s, nd, ncoords, dir).0;
      PlaceableFits(ncoords, p);
      StagedExtends(st1, p, Slots(ncoords, p.index), E2dSlots(ncoords, p.steps), nprotos, s, nd, dir);
      ExtendsTrans(st, st1, Emit(st, ps, nprotos, s, nd, ncoords, dir).0);
    }
  }

  /** A calc worth submitting: it has targets, and each is a slot that
   *  exists and is still waiting for its value. */
  predicate Awaiting(st: Store, c: Calc) {
    c.targets != [] && forall u :: u in c.targets ==> Present(st, u) && !Settled(st, u)
  }

  lemma AwaitingExtends(a: Store, b: Store, c: Calc)
    requires Extends(a, b) && Awaiting(a, c)
    ensures Awaiting(b, c)
  {
    forall u | u in c.targets ensures Present(b, u) && !Settled(b, u) {
      ExtendsKeeps(a, b, u);
    }
  }

  /** The removal keeps a calc exactly when one of its targets is not
   *  loaded, and the calc kept is awaited, under its own name and scale,
   *  and does not run if it did not before or is the "E0" point. */
  lemma EmittedAwaiting(st: Store, p: Proto, temp: Calc)
    requires forall u :: u in temp.targets ==> Present(st, u)
    ensures var c := Emitted(st, p, temp);
      && (c.None? <==> forall u :: u in temp.targets ==> Settled(st, u))
      && (c.Some? ==>
            && Awaiting(st, c.value) && c.value.name == temp.name && c.value.scale == temp.scale
            && c.value.noRun == (temp.noRun || Contains(p.name, "E0")))
  {
    LiveMembers(st, temp.targets);
    var live := Live(st, temp.targets);
    if live == [] {
      forall u | u in temp.targets ensures Settled(st, u) {
        assert u !in live;
      }
    } else {
      assert live[0] in live;
    }
  }

  /** The calc one proto yields, if any, is awaited by the arrays left
   *  after it and was made for it. */
  lemma ProtoOutAwaiting(st: Store, p: Proto, vs: seq<int>, ev: seq<int>, nprotos: int, s: Slice, nd: int, dir: string)
    requires Fits(p, vs, ev) && s != E2d
    ensures var (st2, c) := ProtoOut(st, p, vs, ev, nprotos, s, nd, dir);
      Extends(st, st2) && (c.Some? ==> Awaiting(st2, c.value) && Spawned(c.value, p, nd, dir))
  {
    var (st2, temp) := Staged(st, p, vs, ev, nprotos, s, nd, dir);
    StagedExtends(st, p, vs, ev, nprotos, s, nd, dir);
    StagedPresent(st, p, vs, ev, nprotos, s, nd, dir);
    EmittedAwaiting(st2, p, temp);
  }

  /** One more proto in Emit. */
  lemma EmitLast(st: Store, ps: seq<Proto>, nprotos: int, s: Slice, nd: int, ncoords: int, dir: string)
    requires AllPlaceable(ncoords, ps) && ps != []
    ensures var p := ps[|ps| - 1];
      && AllPlaceable(ncoords, ps[..|ps| - 1])
      && Fits(p, Slots(ncoords, p.index), E2dSlots(ncoords, p.steps))
      && var (st1, cs1) := Emit(st, ps[..|ps| - 1], nprotos, s, nd, ncoords, dir);
         var (st2, c) := ProtoOut(st1, p, Slots(ncoords, p.index), E2dSlots(ncoords, p.steps), nprotos, s, nd, dir);
         Emit(st, ps, nprotos, s, nd, ncoords, dir) == (st2, if c.Some? then cs1 + [c.value] else cs1)
  {
    PlaceableFits(ncoords, ps[|ps| - 1]);
  }

  /** Every calc Derivative returns is awaited by the arrays it leaves:
   *  targets whose slot came loaded from a checkpoint are gone, and a calc
   *  left without targets is not returned. There are no more calcs than
   *  protos, and each was made for one of them. */
  lemma {:induction false} EmitAwaiting(st: Store, ps: seq<Proto>, nprotos: int, s: Slice, nd: int, ncoords: int, dir: string)
    requires AllPlaceable(ncoords, ps) && s != E2d
    ensures var (st', cs) := Emit(st, ps, nprotos, s, nd, ncoords, dir);
      && |cs| <= |ps|
      && (forall q :: 0 <= q < |cs| ==> Awaiting(st', cs[q]))
      && (forall q :: 0 <= q < |cs| ==> exists m :: 0 <= m < |ps| && Spawned(cs[q], ps[m], nd, dir))
    decreases |ps|
  {
    if ps != [] {
      var p, init := ps[|ps| - 1], ps[..|ps| - 1];
      EmitLast(st, ps, nprotos, s, nd, ncoords, dir);
      EmitAwaiting(st, init, nprotos, s, nd, ncoords, dir);
      var (st1, cs1) := Emit(st, init, nprotos, s, nd, ncoords, dir);
      ProtoOutAwaiting(st1, p, Slots(ncoords, p.index), E2dSlots(ncoords, p.steps), nprotos, s, nd, dir);
      var (st2, c) := ProtoOut(st1, p, Slots(ncoords, p.index), E2dSlots(ncoords, p.steps), nprotos, s, nd, dir);
      var cs := if c.Some? then cs1 + [c.value] else cs1;
      forall q | 0 <= q < |cs|
        ensures Awaiting(st2, cs[q])
        ensures exists m :: 0 <= m < |ps| && Spawned(cs[q], ps[m], nd, dir)
      {
        if q < |cs1| {
          AwaitingExtends(st1, st2, cs1[q]);
          var m :| 0 <= m < |init| && Spawned(cs1[q], init[m], nd, dir);
          assert ps[m] == init[m];
        } else {
          assert Spawned(cs[q], ps[|ps| - 1], nd, dir);
        }
      }
    }
  }

  /** The proto's slots in the target array exist and, unless loaded, count
   *  down from nprotos. */
  lemma StagedCounts(st: Store, p: Proto, vs: seq<int>, ev: seq<int>, nprotos: int, s: Slice, nd: int, dir: string)
    requires Fits(p, vs, ev) && s != E2d
    ensures var a := Get(Staged(st, p, vs, ev, nprotos, s, nd, dir).0, s);
      forall m :: 0 <= m < |vs| ==> vs[m] < |a| && (!a[vs[m]].loaded ==> a[vs[m]].count == nprotos)
  {
    ResetAllShape(Get(st, s), vs, Zero, nprotos);
  }

  /** Every proto of a table shares its index, so the slots of that index
   *  exist after Derivative and every one not loaded from a checkpoint
   *  waits for exactly one result per proto. */
  lemma EmitCounts(st: Store, ps: seq<Proto>, s: Slice, nd: int, ncoords: int, dir: string, index: seq<int>)
    requires AllPlaceable(ncoords, ps) && s != E2d && ps != []
    requires forall m :: 0 <= m < |ps| ==> ps[m].index == index
    ensures var a := Get(Emit(st, ps, |ps|, s, nd, ncoords, dir).0, s);
      var vs := Slots(ncoords, index);
      forall m :: 0 <= m < |vs| ==> vs[m] < |a| && (!a[vs[m]].loaded ==> a[vs[m]].count == |ps|)
  {
    var p := ps[|ps| - 1];
    var st1 := Emit(st, ps[..|ps| - 1], |ps|, s, nd, ncoords, dir).0;
    PlaceableFits(ncoords, p);
    StagedCounts(st1, p, Slots(ncoords, p.index), E2dSlots(ncoords, p.steps), |ps|, s, nd, dir);
  }

  /** c is the calc made for proto p: named after it in dir, with its
   *  scale; it does not run for the reference geometry, nor for a
   *  two-step fourth derivative, which takes its energy from e2d. */
  predicate Spawned(c: Calc, p: Proto, nd: int, dir: string) {
    && c.name == JoinPath(dir, p.name)
    && c.scale == p.scale
    && (Contains(p.name, "E0") ==> c.noRun)
    && (|p.steps| == 2 && nd == 4 ==> c.noRun)
  }
}
