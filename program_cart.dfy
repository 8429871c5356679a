/** program.go: BuildCartPoints, the generator that walks every force
 *  constant (i, j, k, l) of a Cartesian force field and hands out the
 *  calculations of Derivative a chunk at a time. The walk is four nested
 *  loops whose starting values jnit, knit and lnit are kept between calls,
 *  so that the next call picks up where a full chunk stopped it. Push, to
 *  which each chunk is handed, is the Queue-interface method of a version
 *  of queue.go that is not part of this model: the chunk is returned as
 *  it would be pushed. */
module CartPoints {
  import opened Text
  import opened Types
  import opened HashName
  import opened FinDiff
  import opened Derivatives
  import opened Chunks

  // ---------------------------------------------------------------------
  // The walk

  /** One force constant; k and l are 0 below the orders they reach. */
  datatype Quad = Quad(i: int, j: int, k: int, l: int)

  /** The loop bounds: ncoords, and the caps kmax and lmax on k and l that
   *  the derivative level sets. */
  datatype Bounds = Bounds(ncoords: nat, kmax: int, lmax: int)

  /** The switch on Conf.Int(Deriv); None is the "unrecognized derivative
   *  level" panic. */
  function CartBounds(deriv: int, ncoords: nat): (r: Option<Bounds>)
    ensures r.Some? <==> 2 <= deriv <= 4
    ensures r.Some? ==> r.value.ncoords == ncoords && r.value.kmax >= 0 && r.value.lmax >= 0
  {
    if deriv == 4 then Some(Bounds(ncoords, ncoords, ncoords))
    else if deriv == 3 then Some(Bounds(ncoords, ncoords, 0))
    else if deriv == 2 then Some(Bounds(ncoords, 0, 0))
    else None
  }

  /** The constants the loops reach: ncoords >= i >= j >= 1, k up to
   *  min(j, kmax) and l up to min(k, lmax). */
  predicate CartValid(b: Bounds, x: Quad) {
    && 1 <= x.i <= b.ncoords
    && 1 <= x.j <= x.i
    && 0 <= x.k <= Min(x.j, b.kmax)
    && 0 <= x.l <= Min(x.k, b.lmax)
  }

  /** Strict lexicographic order on (i, j, k, l). */
  predicate LexLess(x: Quad, y: Quad) {
    x.i < y.i || (x.i == y.i && (x.j < y.j || (x.j == y.j && (x.k < y.k || (x.k == y.k && x.l < y.l)))))
  }

  predicate Increasing(s: seq<Quad>) {
    forall a, c :: 0 <= a < c < |s| ==> LexLess(s[a], s[c])
  }

  /** The innermost loop from l. */
  function LRun(b: Bounds, i: int, j: int, k: int, l: int): seq<Quad>
    decreases Min(k, b.lmax) + 1 - l
  {
    if l > Min(k, b.lmax) then [] else [Quad(i, j, k, l)] + LRun(b, i, j, k, l + 1)
  }

  /** The k loop from k, its first l loop from l and the others from 0. */
  function KRun(b: Bounds, i: int, j: int, k: int, l: int): seq<Quad>
    decreases Min(j, b.kmax) + 1 - k
  {
    if k > Min(j, b.kmax) then [] else LRun(b, i, j, k, l) + KRun(b, i, j, k + 1, 0)
  }

  /** The j loop from j, its first k loop from (k, l). */
  function JRun(b: Bounds, i: int, j: int, k: int, l: int): seq<Quad>
    decreases i + 1 - j
  {
    if j > i then [] else KRun(b, i, j, k, l) + JRun(b, i, j + 1, 0, 0)
  }

  /** The i loop from i, its first j loop from (j, k, l); jnit goes back
   *  to 1 for the next i. */
  function IRun(b: Bounds, i: int, j: int, k: int, l: int): seq<Quad>
    decreases b.ncoords + 1 - i
  {
    if i > b.ncoords then [] else JRun(b, i, j, k, l) + IRun(b, i + 1, 1, 0, 0)
  }

  /** The rest of the walk from the loop state (i, j, k, l), one step at
   *  a time: a loop whose variable is past its bound hands over to the
   *  loop around it, which moves on by one and restarts the inner ones. */
  function Rest(b: Bounds, i: int, j: int, k: int, l: int): seq<Quad>
    decreases b.ncoords + 1 - i, i + 1 - j, Min(j, b.kmax) + 1 - k, Min(k, b.lmax) + 1 - l
  {
    if i > b.ncoords then []
    else if j > i then Rest(b, i + 1, 1, 0, 0)
    else if k > Min(j, b.kmax) then Rest(b, i, j + 1, 0, 0)
    else if l > Min(k, b.lmax) then Rest(b, i, j, k + 1, 0)
    else [Quad(i, j, k, l)] + Rest(b, i, j, k, l + 1)
  }

  /** The whole walk, from the generator's first state. */
  function All(b: Bounds): seq<Quad> {
    Rest(b, 1, 1, 0, 0)
  }

  /** The step-by-step walk is the loops' nesting of runs. */
  lemma {:induction false} RestRuns(b: Bounds, i: int, j: int, k: int, l: int)
    ensures Rest(b, i, j, k, l) == IRun(b, i, j, k, l)
    decreases b.ncoords + 1 - i, i + 1 - j, Min(j, b.kmax) + 1 - k, Min(k, b.lmax) + 1 - l
  {
    if i > b.ncoords {
    } else if j > i {
      RestRuns(b, i + 1, 1, 0, 0);
      RunsPastJ(b, i, j, k, l);
    } else if k > Min(j, b.kmax) {
      RestRuns(b, i, j + 1, 0, 0);
      RunsPastK(b, i, j, k, l);
    } else if l > Min(k, b.lmax) {
      RestRuns(b, i, j, k + 1, 0);
      RunsPastL(b, i, j, k, l);
    } else {
      RestRuns(b, i, j, k, l + 1);
      RunsStep(b, i, j, k, l);
    }
  }

  /** A loop past its bound: the runs go on with the loop around it. */
  lemma RunsPastJ(b: Bounds, i: int, j: int, k: int, l: int)
    requires i <= b.ncoords && j > i
    ensures IRun(b, i, j, k, l) == IRun(b, i + 1, 1, 0, 0)
  {
    assert JRun(b, i, j, k, l) == [];
  }

  lemma RunsPastK(b: Bounds, i: int, j: int, k: int, l: int)
    requires i <= b.ncoords && j <= i && k > Min(j, b.kmax)
    ensures IRun(b, i, j, k, l) == IRun(b, i, j + 1, 0, 0)
  {
    assert KRun(b, i, j, k, l) == [];
    assert JRun(b, i, j, k, l) == JRun(b, i, j + 1, 0, 0);
  }

  lemma RunsPastL(b: Bounds, i: int, j: int, k: int, l: int)
    requires i <= b.ncoords && j <= i && k <= Min(j, b.kmax) && l > Min(k, b.lmax)
    ensures IRun(b, i, j, k, l) == IRun(b, i, j, k + 1, 0)
  {
    assert LRun(b, i, j, k, l) == [];
    assert KRun(b, i, j, k, l) == KRun(b, i, j, k + 1, 0);
    var jr := JRun(b, i, j + 1, 0, 0);
    if k + 1 <= Min(j, b.kmax) {
      assert JRun(b, i, j, k + 1, 0) == KRun(b, i, j, k + 1, 0) + jr;
    } else {
      assert KRun(b, i, j, k + 1, 0) == [];
      assert JRun(b, i, j, k + 1, 0) == jr;
    }
  }

  /** One step of the innermost loop: its constant comes off the front. */
  lemma RunsStep(b: Bounds, i: int, j: int, k: int, l: int)
    requires i <= b.ncoords && j <= i && k <= Min(j, b.kmax) && l <= Min(k, b.lmax)
    ensures IRun(b, i, j, k, l) == [Quad(i, j, k, l)] + IRun(b, i, j, k, l + 1)
  {
    var x, lr := Quad(i, j, k, l), LRun(b, i, j, k, l + 1);
    var kr, jr, ir := KRun(b, i, j, k + 1, 0), JRun(b, i, j + 1, 0, 0), IRun(b, i + 1, 1, 0, 0);
    assert KRun(b, i, j, k, l) == [x] + lr + kr;
    assert KRun(b, i, j, k, l + 1) == lr + kr;
    calc {
      IRun(b, i, j, k, l);
      (([x] + lr + kr) + jr) + ir;
      [x] + (((lr + kr) + jr) + ir);
      [x] + IRun(b, i, j, k, l + 1);
    }
  }

  // ---------------------------------------------------------------------
  // What the walk visits

  lemma {:induction false} LRunHas(b: Bounds, i: int, j: int, k: int, l: int, x: Quad)
    ensures x in LRun(b, i, j, k, l) <==> x.i == i && x.j == j && x.k == k && l <= x.l <= Min(k, b.lmax)
    decreases Min(k, b.lmax) + 1 - l
  {
    if l <= Min(k, b.lmax) {
      LRunHas(b, i, j, k, l + 1, x);
    }
  }

  lemma {:induction false} KRunHas(b: Bounds, i: int, j: int, k: int, l: int, x: Quad)
    requires 0 <= l
    ensures x in KRun(b, i, j, k, l) <==>
      && x.i == i && x.j == j && k <= x.k <= Min(j, b.kmax)
      && 0 <= x.l <= Min(x.k, b.lmax) && (x.k == k ==> l <= x.l)
    decreases Min(j, b.kmax) + 1 - k
  {
    if k <= Min(j, b.kmax) {
      LRunHas(b, i, j, k, l, x);
      KRunHas(b, i, j, k + 1, 0, x);
    }
  }

  lemma {:induction false} JRunHas(b: Bounds, i: int, j: int, k: int, l: int, x: Quad)
    requires 0 <= k && 0 <= l
    ensures x in JRun(b, i, j, k, l) <==>
      && x.i == i && j <= x.j <= i
      && 0 <= x.k <= Min(x.j, b.kmax) && 0 <= x.l <= Min(x.k, b.lmax)
      && (x.j == j ==> k <= x.k) && (x.j == j && x.k == k ==> l <= x.l)
    decreases i + 1 - j
  {
    if j <= i {
      KRunHas(b, i, j, k, l, x);
      JRunHas(b, i, j + 1, 0, 0, x);
    }
  }

  /** From any start, the walk visits exactly the valid constants at or
   *  after it. */
  lemma {:induction false} IRunHas(b: Bounds, i: int, j: int, k: int, l: int, x: Quad)
    requires 1 <= i && 1 <= j && 0 <= k && 0 <= l
    ensures x in IRun(b, i, j, k, l) <==> CartValid(b, x) && !LexLess(x, Quad(i, j, k, l))
    decreases b.ncoords + 1 - i
  {
    if i <= b.ncoords {
      JRunHas(b, i, j, k, l, x);
      IRunHas(b, i + 1, 1, 0, 0, x);
    }
  }

  /** Joining two increasing runs, the first wholly before the second. */
  lemma Joined(s: seq<Quad>, t: seq<Quad>)
    requires Increasing(s) && Increasing(t)
    requires forall x, y :: x in s && y in t ==> LexLess(x, y)
    ensures Increasing(s + t)
  {
    forall a, c | 0 <= a < c < |s + t|
      ensures LexLess((s + t)[a], (s + t)[c])
    {
      if c < |s| {
      } else if a >= |s| {
        assert (s + t)[a] == t[a - |s|] && (s + t)[c] == t[c - |s|];
      } else {
        assert (s + t)[a] in s && (s + t)[c] in t;
      }
    }
  }

  lemma {:induction false} LRunIncreasing(b: Bounds, i: int, j: int, k: int, l: int)
    ensures Increasing(LRun(b, i, j, k, l))
    decreases Min(k, b.lmax) + 1 - l
  {
    if l <= Min(k, b.lmax) {
      LRunIncreasing(b, i, j, k, l + 1);
      forall y | y in LRun(b, i, j, k, l + 1) ensures LexLess(Quad(i, j, k, l), y) {
        LRunHas(b, i, j, k, l + 1, y);
      }
      Joined([Quad(i, j, k, l)], LRun(b, i, j, k, l + 1));
    }
  }

  lemma {:induction false} KRunIncreasing(b: Bounds, i: int, j: int, k: int, l: int)
    ensures Increasing(KRun(b, i, j, k, l))
    decreases Min(j, b.kmax) + 1 - k
  {
    if k <= Min(j, b.kmax) {
      LRunIncreasing(b, i, j, k, l);
      KRunIncreasing(b, i, j, k + 1, 0);
      forall x, y | x in LRun(b, i, j, k, l) && y in KRun(b, i, j, k + 1, 0) ensures LexLess(x, y) {
        LRunHas(b, i, j, k, l, x);
        KRunHas(b, i, j, k + 1, 0, y);
      }
      Joined(LRun(b, i, j, k, l), KRun(b, i, j, k + 1, 0));
    }
  }

  lemma {:induction false} JRunIncreasing(b: Bounds, i: int, j: int, k: int, l: int)
    ensures Increasing(JRun(b, i, j, k, l))
    decreases i + 1 - j
  {
    if j <= i {
      KRunIncreasing(b, i, j, k, l);
      JRunIncreasing(b, i, j + 1, 0, 0);
      forall x, y | x in KRun(b, i, j, k, l) && y in JRun(b, i, j + 1, 0, 0) ensures LexLess(x, y) {
        KRunMembers(b, i, j, k, l, x);
        JRunHas(b, i, j + 1, 0, 0, y);
      }
      Joined(KRun(b, i, j, k, l), JRun(b, i, j + 1, 0, 0));
    }
  }

  lemma {:induction false} IRunIncreasing(b: Bounds, i: int, j: int, k: int, l: int)
    ensures Increasing(IRun(b, i, j, k, l))
    decreases b.ncoords + 1 - i
  {
    if i <= b.ncoords {
      JRunIncreasing(b, i, j, k, l);
      IRunIncreasing(b, i + 1, 1, 0, 0);
      forall x, y | x in JRun(b, i, j, k, l) && y in IRun(b, i + 1, 1, 0, 0) ensures LexLess(x, y) {
        JRunMembers(b, i, j, k, l, x);
        IRunMembers(b, i + 1, 1, 0, 0, y);
      }
      Joined(JRun(b, i, j, k, l), IRun(b, i + 1, 1, 0, 0));
    }
  }

  /** Whatever the start, a k loop stays at (i, j) and a j loop at i. */
  lemma {:induction false} KRunMembers(b: Bounds, i: int, j: int, k: int, l: int, x: Quad)
    requires x in KRun(b, i, j, k, l)
    ensures x.i == i && x.j == j
    decreases Min(j, b.kmax) + 1 - k
  {
    if x !in LRun(b, i, j, k, l) {
      KRunMembers(b, i, j, k + 1, 0, x);
    } else {
      LRunHas(b, i, j, k, l, x);
    }
  }

  lemma {:induction false} JRunMembers(b: Bounds, i: int, j: int, k: int, l: int, x: Quad)
    requires x in JRun(b, i, j, k, l)
    ensures x.i == i
    decreases i + 1 - j
  {
    if x !in KRun(b, i, j, k, l) {
      JRunMembers(b, i, j + 1, 0, 0, x);
    } else {
      KRunMembers(b, i, j, k, l, x);
    }
  }

  lemma {:induction false} IRunMembers(b: Bounds, i: int, j: int, k: int, l: int, x: Quad)
    requires x in IRun(b, i, j, k, l)
    ensures x.i >= i
    decreases b.ncoords + 1 - i
  {
    if x !in JRun(b, i, j, k, l) {
      IRunMembers(b, i + 1, 1, 0, 0, x);
    } else {
      JRunMembers(b, i, j, k, l, x);
    }
  }

  /** The walk visits every valid constant exactly once, in increasing
   *  order: no constant is missed and none is repeated. */
  lemma AllExactly(b: Bounds)
    ensures forall x :: x in All(b) <==> CartValid(b, x)
    ensures Increasing(All(b))
  {
    RestRuns(b, 1, 1, 0, 0);
    forall x ensures x in All(b) <==> CartValid(b, x) {
      IRunHas(b, 1, 1, 0, 0, x);
    }
    IRunIncreasing(b, 1, 1, 0, 0);
  }

  /** Deriv 3 walks only l = 0, and Deriv 2 only k = l = 0. */
  lemma LevelsCapped(deriv: int, ncoords: nat, x: Quad)
    requires deriv == 2 || deriv == 3
    requires x in All(CartBounds(deriv, ncoords).value)
    ensures x.l == 0 && (deriv == 2 ==> x.k == 0)
  {
    RestRuns(CartBounds(deriv, ncoords).value, 1, 1, 0, 0);
    IRunHas(CartBounds(deriv, ncoords).value, 1, 1, 0, 0, x);
  }

  // ---------------------------------------------------------------------
  // The generator

  /** Derivative's requirements on its constant. */
  predicate DerivArgs(x: Quad) {
    1 <= x.i && 1 <= x.j && 0 <= x.k && 0 <= x.l && (x.l != 0 ==> x.k != 0)
  }

  /** Derivative's results on one constant: the store, its calcs and the
   *  job counter after it. */
  function DerivOut(st: Store, n: nat, x: Quad, scale: real, ncoords: nat, dir: string): (Store, seq<Calc>, nat)
    requires DerivArgs(x)
  {
    var t := Table(x.i, x.j, x.k, x.l);
    var ps := Protos(t, scale, n);
    DerivativePlaceable(x.i, x.j, x.k, x.l, scale, n, ncoords);
    var e := Emit(st, ps, |ps|, TargetOf(x.k, x.l), Order(x.k, x.l), ncoords, dir);
    (e.0, e.1, n + Hashed(t.rows))
  }

  /** A start the loops can resume from: inside the walk, each loop at a
   *  value its bound admits (the l loop possibly one past it). */
  predicate Resumable(b: Bounds, i: int, jnit: int, knit: int, lnit: int) {
    && 1 <= i && 1 <= jnit && 0 <= knit && 0 <= lnit
    && (i <= b.ncoords ==> jnit <= i && knit <= Min(jnit, b.kmax) && lnit <= Min(knit, b.lmax) + 1)
  }

  class CartGen {
    const b: Bounds
    const cs: int
    const scale: real
    const dir: string
    /** Derivative on one constant, as a function of the store and the
     *  job counter. */
    ghost const step: Step<Quad>
    var i: int
    var jnit: int
    var knit: int
    var lnit: int
    var pf: int
    var count: int
    var start: int
    /** The constants visited by the calls so far. */
    ghost var done: seq<Quad>

    /** step is Derivative's outcome on every constant Derivative accepts. */
    ghost predicate StepCorrect() {
      forall st, n, x {:trigger DerivOut(st, n, x, scale, b.ncoords, dir)} ::
        DerivArgs(x) ==> step(st, n, x) == DerivOut(st, n, x, scale, b.ncoords, dir)
    }

    /** The loop state resumes the walk after the constants done. */
    ghost predicate Valid()
      reads this
    {
      && b.kmax >= 0 && b.lmax >= 0 && StepCorrect()
      && Resumable(b, i, jnit, knit, lnit)
      && done + Rest(b, i, jnit, knit, lnit) == All(b)
    }

    constructor (b: Bounds, cs: int, scale: real, dir: string)
      requires b.kmax >= 0 && b.lmax >= 0
      ensures Valid() && done == []
      ensures this.b == b && this.cs == cs && this.scale == scale && this.dir == dir
      ensures pf == 0 && count == 0 && start == 0
    {
      this.b, this.cs, this.scale, this.dir := b, cs, scale, dir;
      step := (st: Store, n: nat, x: Quad) =>
        if DerivArgs(x) then DerivOut(st, n, x, scale, b.ncoords, dir) else (st, [], n);
      i, jnit, knit, lnit := 1, 1, 0, 0;
      pf, count, start := 0, 0, 0;
      done := [];
    }

    /** What one call did: Derivative ran on each constant of qs in turn,
     *  and no proper prefix of qs had already filled a chunk. */
    ghost predicate Visited(st: Store, n: nat, qs: seq<Quad>, st': Store, calcs: seq<Calc>, n': nat) {
      && (forall m :: 0 <= m < |qs| ==> DerivArgs(qs[m]))
      && var r := Sweep(st, n, qs, step);
      && st' == r.0 && calcs == r.1 && n' == r.2
      && forall t :: 0 < t < |qs| ==> |Sweep(st, n, qs[..t], step).1| < cs
    }

    /** The generator's closure. One call walks on from the saved start,
     *  appending Derivative's calcs, until a constant brings the chunk to
     *  ChunkSize: it then saves the next start and returns true. Having
     *  walked to the end it returns false. chunk is the pf the chunk is
     *  pushed with; pf, count and start move on as the deferred function
     *  moves them. */
    method Next(jobs: JobCounter, st: Store) returns (st': Store, calcs: seq<Calc>, chunk: int, more: bool)
      requires Valid()
      modifies this, jobs
      ensures Valid()
      ensures |old(done)| <= |done| && done[..|old(done)|] == old(done)
      ensures Visited(st, old(jobs.jobNum), done[|old(done)|..], st', calcs, jobs.jobNum)
      ensures more <==> done[|old(done)|..] != [] && |calcs| >= cs
      ensures !more ==> done == All(b)
      ensures chunk == old(pf) && pf == old(pf) + 1 && count == old(count) + 1 && start == old(start) + cs
    {
      ghost var visited;
      var i', j', k', l';
      st', calcs, i', j', k', l', more, visited := Walk(jobs, st, i, jnit, knit, lnit);
      ghost var d0 := done;
      Settle(d0, visited, Rest(b, i', j', k', l'), Rest(b, i, jnit, knit, lnit), All(b));
      i, jnit, knit, lnit := i', j', k', l';
      done := d0 + visited;
      chunk := pf;
      pf, count, start := pf + 1, count + 1, start + cs;
    }

    /** The i and j loops, from the saved start (i0, j0, k0, l0): the
     *  constants visited, and the start saved for the next call. */
    method Walk(jobs: JobCounter, st: Store, i0: int, j0: int, k0: int, l0: int)
      returns (st': Store, calcs: seq<Calc>, i: int, jnit: int, knit: int, lnit: int, more: bool, ghost visited: seq<Quad>)
      requires b.kmax >= 0 && b.lmax >= 0 && StepCorrect() && Resumable(b, i0, j0, k0, l0)
      modifies jobs
      ensures Resumable(b, i, jnit, knit, lnit)
      ensures visited + Rest(b, i, jnit, knit, lnit) == Rest(b, i0, j0, k0, l0)
      ensures Visited(st, old(jobs.jobNum), visited, st', calcs, jobs.jobNum)
      ensures more <==> visited != [] && |calcs| >= cs
      ensures !more ==> Rest(b, i, jnit, knit, lnit) == []
    {
      ghost var n0 := jobs.jobNum;
      ghost var rest0 := Rest(b, i0, j0, k0, l0);
      i, jnit, knit, lnit := i0, j0, k0, l0;
      visited := [];
      st', calcs := st, [];
      while i <= b.ncoords
        invariant Resumable(b, i, jnit, knit, lnit)
        invariant visited + Rest(b, i, jnit, knit, lnit) == rest0
        invariant Visited(st, n0, visited, st', calcs, jobs.jobNum) && (visited != [] ==> |calcs| < cs)
      {
        var j := jnit;
        while j <= i
          invariant 1 <= j && 0 <= knit && 0 <= lnit
          invariant j > jnit ==> knit == 0 && lnit == 0
          invariant j <= i ==> knit <= Min(j, b.kmax) && lnit <= Min(knit, b.lmax) + 1
          invariant visited + Rest(b, i, j, knit, lnit) == rest0
          invariant Visited(st, n0, visited, st', calcs, jobs.jobNum) && (visited != [] ==> |calcs| < cs)
        {
          var k, full;
          st', calcs, k, lnit, full, visited := WalkInner(jobs, st, n0, visited, st', calcs, i, j, knit, lnit);
          if full {
            jnit, knit := j, k;
            more := true;
            return;
          }
          knit := 0;
          j := j + 1;
        }
        jnit := 1;
        i := i + 1;
      }
      more := false;
    }

    /** The k and l loops of (i, j), from (k0, l0): on a full chunk, the k
     *  and l to resume from; otherwise lnit is back at 0. */
    method WalkInner(jobs: JobCounter, ghost st0: Store, ghost n0: nat, ghost visited: seq<Quad>,
                     st: Store, calcs: seq<Calc>, i: int, j: int, k0: int, l0: int)
      returns (st': Store, calcs': seq<Calc>, k: int, lnit: int, full: bool, ghost visited': seq<Quad>)
      requires b.kmax >= 0 && b.lmax >= 0 && StepCorrect()
      requires 1 <= j <= i <= b.ncoords && 0 <= k0 <= Min(j, b.kmax) && 0 <= l0
      requires Visited(st0, n0, visited, st, calcs, jobs.jobNum) && (visited != [] ==> |calcs| < cs)
      modifies jobs
      ensures Visited(st0, n0, visited', st', calcs', jobs.jobNum)
      ensures full <==> visited' != [] && |calcs'| >= cs
      ensures visited' + Rest(b, i, j, k, lnit) == visited + Rest(b, i, j, k0, l0)
      ensures full ==> k0 <= k <= Min(j, b.kmax) && 1 <= lnit <= Min(k, b.lmax) + 1
      ensures !full ==> k > Min(j, b.kmax) && lnit == 0
    {
      k, lnit := k0, l0;
      st', calcs', visited' := st, calcs, visited;
      while k <= Min(j, b.kmax)
        invariant k0 <= k && 0 <= lnit && (k > k0 ==> lnit == 0)
        invariant visited' + Rest(b, i, j, k, lnit) == visited + Rest(b, i, j, k0, l0)
        invariant Visited(st0, n0, visited', st', calcs', jobs.jobNum) && (visited' != [] ==> |calcs'| < cs)
      {
        var l := lnit;
        while l <= Min(k, b.lmax)
          invariant lnit <= l
          invariant visited' + Rest(b, i, j, k, l) == visited + Rest(b, i, j, k0, l0)
          invariant Visited(st0, n0, visited', st', calcs', jobs.jobNum) && (visited' != [] ==> |calcs'| < cs)
        {
          var x := Quad(i, j, k, l);
          ghost var before := jobs.jobNum;
          var st2, cs2 := Visit(jobs, st', x);
          VisitedStep(st0, n0, visited', st', calcs', before, x, st2, cs2, jobs.jobNum);
          Shift(visited', x, Rest(b, i, j, k, l + 1));
          visited' := visited' + [x];
          st', calcs' := st2, calcs' + cs2;
          if |calcs'| >= cs {
            lnit, full := l + 1, true;
            return;
          }
          l := l + 1;
        }
        lnit := 0;
        k := k + 1;
      }
      full := false;
    }

    /** Derivative on one constant of the walk. */
    method Visit(jobs: JobCounter, st: Store, x: Quad) returns (st': Store, calcs: seq<Calc>)
      requires StepCorrect() && DerivArgs(x)
      modifies jobs
      ensures var d := step(st, old(jobs.jobNum), x);
        st' == d.0 && calcs == d.1 && jobs.jobNum == d.2
    {
      ghost var d := DerivOut(st, jobs.jobNum, x, scale, b.ncoords, dir);
      st', calcs := Derivative(jobs, st, scale, dir, b.ncoords, x.i, x.j, x.k, x.l);
    }

    lemma VisitedStep(st: Store, n: nat, qs: seq<Quad>, st1: Store, calcs: seq<Calc>, n1: nat,
                      x: Quad, st2: Store, cs2: seq<Calc>, n2: nat)
      requires Visited(st, n, qs, st1, calcs, n1) && (qs != [] ==> |calcs| < cs) && DerivArgs(x)
      requires var d := step(st1, n1, x);
        st2 == d.0 && cs2 == d.1 && n2 == d.2
      ensures Visited(st, n, qs + [x], st2, calcs + cs2, n2)
    {
      SweepSnoc(st, n, qs, x, step);
      ShortSnoc(st, n, qs, x, step, cs);
    }
  }

  /** BuildCartPoints: the generator for the configured derivative level,
   *  chunk size and step size, writing under progDir/dir; None is the
   *  "unrecognized derivative level" panic. */
  method BuildCartPoints(progDir: string, dir: string, ncoords: nat, deriv: int, cs: int, scale: real)
    returns (g: Option<CartGen>)
    ensures g.Some? <==> 2 <= deriv <= 4
    ensures g.Some? ==> && fresh(g.value) && g.value.Valid() && g.value.done == []
                        && g.value.b == CartBounds(deriv, ncoords).value && g.value.cs == cs
                        && g.value.scale == scale && g.value.dir == JoinPath(progDir, dir)
                        && g.value.pf == 0 && g.value.count == 0 && g.value.start == 0
  {
    var b := CartBounds(deriv, ncoords);
    if b.None? {
      return None;
    }
    var gen := new CartGen(b.value, cs, scale, JoinPath(progDir, dir));
    g := Some(gen);
  }
}
