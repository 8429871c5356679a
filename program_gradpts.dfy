/** program.go: BuildGradPoints, the generator that walks every force
 *  constant (i, j, k) of a gradient force field and hands out the calcs
 *  of GradDerivative a chunk at a time. The walk is three nested loops
 *  whose starting values jnit and knit are kept between calls, so that
 *  the next call picks up where a full chunk stopped it. As in
 *  BuildCartPoints, each chunk is returned as it would be pushed. */
module GradPoints {
  import opened Text
  import opened Types
  import opened HashName
  import opened FinDiff
  import opened Derivatives
  import opened GradDerivatives
  import opened Chunks

  // ---------------------------------------------------------------------
  // The walk

  /** One gradient force constant; j and k are 0 below the orders they
   *  reach. */
  datatype Triple = Triple(i: int, j: int, k: int)

  /** The loop bounds: ncoords, and the caps jmax and kmax on j and k that
   *  the derivative level sets. */
  datatype Bounds = Bounds(ncoords: nat, jmax: int, kmax: int)

  /** The switch on Conf.Int(Deriv); None is the "unrecognized derivative
   *  level" panic. */
  function GradBounds(deriv: int, ncoords: nat): (r: Option<Bounds>)
    ensures r.Some? <==> 2 <= deriv <= 4
    ensures r.Some? ==> r.value.ncoords == ncoords && r.value.jmax >= 0 && r.value.kmax >= 0
  {
    if deriv == 4 then Some(Bounds(ncoords, ncoords, ncoords))
    else if deriv == 3 then Some(Bounds(ncoords, ncoords, 0))
    else if deriv == 2 then Some(Bounds(ncoords, 0, 0))
    else None
  }

  /** The constants the loops reach: i from 1 to ncoords, j from 0 up to
   *  min(i, jmax) and k from 0 up to min(j, kmax). */
  predicate GradValid(b: Bounds, x: Triple) {
    && 1 <= x.i <= b.ncoords
    && 0 <= x.j <= Min(x.i, b.jmax)
    && 0 <= x.k <= Min(x.j, b.kmax)
  }

  /** Strict lexicographic order on (i, j, k). */
  predicate LexLess(x: Triple, y: Triple) {
    x.i < y.i || (x.i == y.i && (x.j < y.j || (x.j == y.j && x.k < y.k)))
  }

  predicate Increasing(s: seq<Triple>) {
    forall a, c :: 0 <= a < c < |s| ==> LexLess(s[a], s[c])
  }

  /** The innermost loop from k. */
  function KRun(b: Bounds, i: int, j: int, k: int): seq<Triple>
    decreases Min(j, b.kmax) + 1 - k
  {
    if k > Min(j, b.kmax) then [] else [Triple(i, j, k)] + KRun(b, i, j, k + 1)
  }

  /** The j loop from j, its first k loop from k and the others from 0. */
  function JRun(b: Bounds, i: int, j: int, k: int): seq<Triple>
    decreases Min(i, b.jmax) + 1 - j
  {
    if j > Min(i, b.jmax) then [] else KRun(b, i, j, k) + JRun(b, i, j + 1, 0)
  }

  /** The i loop from i, its first j loop from (j, k); jnit goes back to 0
   *  for the next i. */
  function IRun(b: Bounds, i: int, j: int, k: int): seq<Triple>
    decreases b.ncoords + 1 - i
  {
    if i > b.ncoords then [] else JRun(b, i, j, k) + IRun(b, i + 1, 0, 0)
  }

  /** The rest of the walk from the loop state (i, j, k), one step at a
   *  time: a loop whose variable is past its bound hands over to the loop
   *  around it, which moves on by one and restarts the inner one. */
  function Rest(b: Bounds, i: int, j: int, k: int): seq<Triple>
    decreases b.ncoords + 1 - i, Min(i, b.jmax) + 1 - j, Min(j, b.kmax) + 1 - k
  {
    if i > b.ncoords then []
    else if j > Min(i, b.jmax) then Rest(b, i + 1, 0, 0)
    else if k > Min(j, b.kmax) then Rest(b, i, j + 1, 0)
    else [Triple(i, j, k)] + Rest(b, i, j, k + 1)
  }

  /** The whole walk, from the generator's first state. */
  function All(b: Bounds): seq<Triple> {
    Rest(b, 1, 0, 0)
  }

  /** The step-by-step walk is the loops' nesting of runs. */
  lemma {:induction false} RestRuns(b: Bounds, i: int, j: int, k: int)
    ensures Rest(b, i, j, k) == IRun(b, i, j, k)
    decreases b.ncoords + 1 - i, Min(i, b.jmax) + 1 - j, Min(j, b.kmax) + 1 - k
  {
    if i > b.ncoords {
    } else if j > Min(i, b.jmax) {
      RestRuns(b, i + 1, 0, 0);
      assert JRun(b, i, j, k) == [];
    } else if k > Min(j, b.kmax) {
      RestRuns(b, i, j + 1, 0);
      RunsPastK(b, i, j, k);
    } else {
      RestRuns(b, i, j, k + 1);
      RunsStep(b, i, j, k);
    }
  }

  /** The k loop past its bound: the runs go on with the next j. */
  lemma RunsPastK(b: Bounds, i: int, j: int, k: int)
    requires i <= b.ncoords && j <= Min(i, b.jmax) && k > Min(j, b.kmax)
    ensures IRun(b, i, j, k) == IRun(b, i, j + 1, 0)
  {
    assert KRun(b, i, j, k) == [];
    assert JRun(b, i, j, k) == JRun(b, i, j + 1, 0);
  }

  /** One step of the innermost loop: its constant comes off the front. */
  lemma RunsStep(b: Bounds, i: int, j: int, k: int)
    requires i <= b.ncoords && j <= Min(i, b.jmax) && k <= Min(j, b.kmax)
    ensures IRun(b, i, j, k) == [Triple(i, j, k)] + IRun(b, i, j, k + 1)
  {
    var x, kr := Triple(i, j, k), KRun(b, i, j, k + 1);
    var jr, ir := JRun(b, i, j + 1, 0), IRun(b, i + 1, 0, 0);
    assert JRun(b, i, j, k) == [x] + kr + jr;
    assert JRun(b, i, j, k + 1) == kr + jr;
    calc {
      IRun(b, i, j, k);
      ([x] + kr + jr) + ir;
      [x] + ((kr + jr) + ir);
      [x] + IRun(b, i, j, k + 1);
    }
  }

  // ---------------------------------------------------------------------
  // What the walk visits

  lemma {:induction false} KRunHas(b: Bounds, i: int, j: int, k: int, x: Triple)
    ensures x in KRun(b, i, j, k) <==> x.i == i && x.j == j && k <= x.k <= Min(j, b.kmax)
    decreases Min(j, b.kmax) + 1 - k
  {
    if k <= Min(j, b.kmax) {
      KRunHas(b, i, j, k + 1, x);
    }
  }

  lemma {:induction false} JRunHas(b: Bounds, i: int, j: int, k: int, x: Triple)
    requires 0 <= k
    ensures x in JRun(b, i, j, k) <==>
      && x.i == i && j <= x.j <= Min(i, b.jmax)
      && 0 <= x.k <= Min(x.j, b.kmax) && (x.j == j ==> k <= x.k)
    decreases Min(i, b.jmax) + 1 - j
  {
    if j <= Min(i, b.jmax) {
      KRunHas(b, i, j, k, x);
      JRunHas(b, i, j + 1, 0, x);
    }
  }

  /** From any start, the walk visits exactly the valid constants at or
   *  after it. */
  lemma {:induction false} IRunHas(b: Bounds, i: int, j: int, k: int, x: Triple)
    requires 1 <= i && 0 <= j && 0 <= k
    ensures x in IRun(b, i, j, k) <==> GradValid(b, x) && !LexLess(x, Triple(i, j, k))
    decreases b.ncoords + 1 - i
  {
    if i <= b.ncoords {
      JRunHas(b, i, j, k, x);
      IRunHas(b, i + 1, 0, 0, x);
    }
  }

  /** Joining two increasing runs, the first wholly before the second. */
  lemma Joined(s: seq<Triple>, t: seq<Triple>)
    requires Increasing(s) && Increasing(t)
    requires forall x, y :: x in s && y in t ==> LexLess(x, y)
    ensures Increasing(s + t)
  {
    forall a, c | 0 <= a < c < |s + t|
      ensures LexLess((s + t)[a], (s + t)[c])
    {
      if c < |s| {
      } else if a >= |s| {
        assert (s + t)[a] == t[a - |s|] && (s + t)[c] == t[c - |s|];
      } else {
        assert (s + t)[a] in s && (s + t)[c] in t;
      }
    }
  }

  lemma {:induction false} KRunIncreasing(b: Bounds, i: int, j: int, k: int)
    ensures Increasing(KRun(b, i, j, k))
    decreases Min(j, b.kmax) + 1 - k
  {
    if k <= Min(j, b.kmax) {
      KRunIncreasing(b, i, j, k + 1);
      forall y | y in KRun(b, i, j, k + 1) ensures LexLess(Triple(i, j, k), y) {
        KRunHas(b, i, j, k + 1, y);
      }
      Joined([Triple(i, j, k)], KRun(b, i, j, k + 1));
    }
  }

  lemma {:induction false} JRunIncreasing(b: Bounds, i: int, j: int, k: int)
    ensures Increasing(JRun(b, i, j, k))
    decreases Min(i, b.jmax) + 1 - j
  {
    if j <= Min(i, b.jmax) {
      KRunIncreasing(b, i, j, k);
      JRunIncreasing(b, i, j + 1, 0);
      forall x, y | x in KRun(b, i, j, k) && y in JRun(b, i, j + 1, 0) ensures LexLess(x, y) {
        KRunHas(b, i, j, k, x);
        JRunHas(b, i, j + 1, 0, y);
      }
      Joined(KRun(b, i, j, k), JRun(b, i, j + 1, 0));
    }
  }

  lemma {:induction false} IRunIncreasing(b: Bounds, i: int, j: int, k: int)
    requires 0 <= i && 0 <= k
    ensures Increasing(IRun(b, i, j, k))
    decreases b.ncoords + 1 - i
  {
    if i <= b.ncoords {
      JRunIncreasing(b, i, j, k);
      IRunIncreasing(b, i + 1, 0, 0);
      forall x, y | x in JRun(b, i, j, k) && y in IRun(b, i + 1, 0, 0) ensures LexLess(x, y) {
        JRunHas(b, i, j, k, x);
        IRunHas(b, i + 1, 0, 0, y);
      }
      Joined(JRun(b, i, j, k), IRun(b, i + 1, 0, 0));
    }
  }

  /** The walk visits every valid constant exactly once, in increasing
   *  order: no constant is missed and none is repeated. */
  lemma AllExactly(b: Bounds)
    ensures forall x :: x in All(b) <==> GradValid(b, x)
    ensures Increasing(All(b))
  {
    RestRuns(b, 1, 0, 0);
    forall x ensures x in All(b) <==> GradValid(b, x) {
      IRunHas(b, 1, 0, 0, x);
    }
    IRunIncreasing(b, 1, 0, 0);
  }

  /** Deriv 3 walks only k = 0, and Deriv 2 only j = k = 0: the gradients
   *  of the displaced points a level below. */
  lemma LevelsCapped(deriv: int, ncoords: nat, x: Triple)
    requires deriv == 2 || deriv == 3
    requires x in All(GradBounds(deriv, ncoords).value)
    ensures x.k == 0 && (deriv == 2 ==> x.j == 0)
  {
    RestRuns(GradBounds(deriv, ncoords).value, 1, 0, 0);
    IRunHas(GradBounds(deriv, ncoords).value, 1, 0, 0, x);
  }

  // ---------------------------------------------------------------------
  // The generator

  /** GradDerivative's requirements on its constant. */
  predicate GradOk(x: Triple) {
    GradArgs(GradOrder(x.j, x.k), x.i, x.j, x.k)
  }

  /** Every constant the walk reaches is one GradDerivative accepts. */
  lemma ValidOk(b: Bounds, x: Triple)
    requires GradValid(b, x)
    ensures GradOk(x)
  {
  }

  /** GradDerivative's results on one constant: the store, its calcs and
   *  the job counter after it. */
  function GradStepOut(st: Store, n: nat, x: Triple, scale: real, ncoords: nat, dir: string): (Store, seq<Calc>, nat)
    requires GradOk(x)
  {
    var nd, dimmax := GradOrder(x.j, x.k), DimMax(ncoords, x.j, x.k);
    var t := GradTable(x.i, x.j, x.k);
    GradIndicesNatural(ncoords, nd, x.i, x.j, x.k, dimmax);
    var e := GradEmit(st, Protos(t, scale, n), GradIndices(ncoords, nd, x.i, x.j, x.k, dimmax), GradTarget(x.j, x.k), dir);
    (e.0, e.1, n + Hashed(t.rows))
  }

  /** A start the loops can resume from: inside the walk, the j loop at a
   *  value its bound admits (the k loop possibly past its own). */
  predicate Resumable(b: Bounds, i: int, jnit: int, knit: int) {
    1 <= i && 0 <= jnit && 0 <= knit && (i <= b.ncoords ==> jnit <= Min(i, b.jmax))
  }

  class GradGen {
    const b: Bounds
    const cs: int
    const scale: real
    const dir: string
    /** GradDerivative on one constant, as a function of the store and the
     *  job counter. */
    ghost const step: Step<Triple>
    var i: int
    var jnit: int
    var knit: int
    var pf: int
    var count: int
    var start: int
    /** The constants visited by the calls so far. */
    ghost var done: seq<Triple>

    /** step is GradDerivative's outcome on every constant it accepts. */
    ghost predicate StepCorrect() {
      forall st, n, x {:trigger GradStepOut(st, n, x, scale, b.ncoords, dir)} ::
        GradOk(x) ==> step(st, n, x) == GradStepOut(st, n, x, scale, b.ncoords, dir)
    }

    /** The loop state resumes the walk after the constants done. */
    ghost predicate Valid()
      reads this
    {
      && b.jmax >= 0 && StepCorrect()
      && Resumable(b, i, jnit, knit)
      && done + Rest(b, i, jnit, knit) == All(b)
    }

    constructor (b: Bounds, cs: int, scale: real, dir: string)
      requires b.jmax >= 0
      ensures Valid() && done == []
      ensures this.b == b && this.cs == cs && this.scale == scale && this.dir == dir
      ensures pf == 0 && count == 0 && start == 0
    {
      this.b, this.cs, this.scale, this.dir := b, cs, scale, dir;
      step := (st: Store, n: nat, x: Triple) =>
        if GradOk(x) then GradStepOut(st, n, x, scale, b.ncoords, dir) else (st, [], n);
      i, jnit, knit := 1, 0, 0;
      pf, count, start := 0, 0, 0;
      done := [];
    }

    /** What one call did: GradDerivative ran on each constant of qs in
     *  turn, and no proper prefix of qs had already filled a chunk. */
    ghost predicate Visited(st: Store, n: nat, qs: seq<Triple>, st': Store, calcs: seq<Calc>, n': nat) {
      && (forall m :: 0 <= m < |qs| ==> GradOk(qs[m]))
      && var r := Sweep(st, n, qs, step);
      && st' == r.0 && calcs == r.1 && n' == r.2
      && forall t :: 0 < t < |qs| ==> |Sweep(st, n, qs[..t], step).1| < cs
    }

    /** The generator's closure. One call walks on from the saved start,
     *  appending GradDerivative's calcs, until a constant brings the
     *  chunk to ChunkSize: it then saves the next start and returns true.
     *  Having walked to the end it returns false. chunk is the pf the
     *  chunk is pushed with; pf, count and start move on as the deferred
     *  function moves them. */
    method Next(jobs: JobCounter, st: Store) returns (st': Store, calcs: seq<Calc>, chunk: int, more: bool)
      requires Valid()
      modifies this, jobs
      ensures Valid()
      ensures |old(done)| <= |done| && done[..|old(done)|] == old(done)
      ensures Visited(st, old(jobs.jobNum), done[|old(done)|..], st', calcs, jobs.jobNum)
      ensures more <==> done[|old(done)|..] != [] && |calcs| >= cs
      ensures !more ==> done == All(b)
      ensures chunk == old(pf) && pf == old(pf) + 1 && count == old(count) + 1 && start == old(start) + cs
    {
      ghost var visited;
      var i', j', k';
      st', calcs, i', j', k', more, visited := Walk(jobs, st, i, jnit, knit);
      ghost var d0 := done;
      Settle(d0, visited, Rest(b, i', j', k'), Rest(b, i, jnit, knit), All(b));
      i, jnit, knit := i', j', k';
      done := d0 + visited;
      chunk := pf;
      pf, count, start := pf + 1, count + 1, start + cs;
    }

    /** The i and j loops, from the saved start (i0, j0, k0): the
     *  constants visited, and the start saved for the next call. */
    method Walk(jobs: JobCounter, st: Store, i0: int, j0: int, k0: int)
      returns (st': Store, calcs: seq<Calc>, i: int, jnit: int, knit: int, more: bool, ghost visited: seq<Triple>)
      requires b.jmax >= 0 && StepCorrect() && Resumable(b, i0, j0, k0)
      modifies jobs
      ensures Resumable(b, i, jnit, knit)
      ensures visited + Rest(b, i, jnit, knit) == Rest(b, i0, j0, k0)
      ensures Visited(st, old(jobs.jobNum), visited, st', calcs, jobs.jobNum)
      ensures more <==> visited != [] && |calcs| >= cs
      ensures !more ==> Rest(b, i, jnit, knit) == []
    {
      ghost var n0 := jobs.jobNum;
      ghost var rest0 := Rest(b, i0, j0, k0);
      i, jnit, knit := i0, j0, k0;
      visited := [];
      st', calcs := st, [];
      while i <= b.ncoords
        invariant Resumable(b, i, jnit, knit)
        invariant visited + Rest(b, i, jnit, knit) == rest0
        invariant Visited(st, n0, visited, st', calcs, jobs.jobNum) && (visited != [] ==> |calcs| < cs)
      {
        var j := jnit;
        while j <= Min(i, b.jmax)
          invariant 0 <= j && 0 <= knit && (j > jnit ==> knit == 0)
          invariant visited + Rest(b, i, j, knit) == rest0
          invariant Visited(st, n0, visited, st', calcs, jobs.jobNum) && (visited != [] ==> |calcs| < cs)
        {
          var k, full;
          st', calcs, k, full, visited := WalkInner(jobs, st, n0, visited, st', calcs, i, j, knit);
          if full {
            jnit, knit := j, k;
            more := true;
            return;
          }
          assert Rest(b, i, j, k) == Rest(b, i, j + 1, 0);
          knit := 0;
          j := j + 1;
        }
        jnit := 0;
        i := i + 1;
      }
      more := false;
    }

    /** The k loop of (i, j), from k0: the k to resume from, one past the
     *  constant that filled the chunk, or past the loop's bound. */
    method WalkInner(jobs: JobCounter, ghost st0: Store, ghost n0: nat, ghost visited: seq<Triple>,
                     st: Store, calcs: seq<Calc>, i: int, j: int, k0: int)
      returns (st': Store, calcs': seq<Calc>, knit: int, full: bool, ghost visited': seq<Triple>)
      requires StepCorrect()
      requires 1 <= i <= b.ncoords && 0 <= j <= Min(i, b.jmax) && 0 <= k0
      requires Visited(st0, n0, visited, st, calcs, jobs.jobNum) && (visited != [] ==> |calcs| < cs)
      modifies jobs
      ensures Visited(st0, n0, visited', st', calcs', jobs.jobNum)
      ensures full <==> visited' != [] && |calcs'| >= cs
      ensures visited' + Rest(b, i, j, knit) == visited + Rest(b, i, j, k0)
      ensures k0 <= knit && (!full ==> knit > Min(j, b.kmax))
    {
      knit := k0;
      st', calcs', visited' := st, calcs, visited;
      while knit <= Min(j, b.kmax)
        invariant k0 <= knit
        invariant visited' + Rest(b, i, j, knit) == visited + Rest(b, i, j, k0)
        invariant Visited(st0, n0, visited', st', calcs', jobs.jobNum) && (visited' != [] ==> |calcs'| < cs)
      {
        var x := Triple(i, j, knit);
        ghost var before := jobs.jobNum;
        var st2, cs2 := Visit(jobs, st', x);
        VisitedStep(st0, n0, visited', st', calcs', before, x, st2, cs2, jobs.jobNum);
        Shift(visited', x, Rest(b, i, j, knit + 1));
        visited' := visited' + [x];
        st', calcs' := st2, calcs' + cs2;
        knit := knit + 1;
        if |calcs'| >= cs {
          full := true;
          return;
        }
      }
      full := false;
    }

    /** GradDerivative on one constant of the walk. */
    method Visit(jobs: JobCounter, st: Store, x: Triple) returns (st': Store, calcs: seq<Calc>)
      requires StepCorrect() && GradOk(x)
      modifies jobs
      ensures var d := step(st, old(jobs.jobNum), x);
        st' == d.0 && calcs == d.1 && jobs.jobNum == d.2
    {
      ghost var d := GradStepOut(st, jobs.jobNum, x, scale, b.ncoords, dir);
      st', calcs := GradDerivative(jobs, st, scale, dir, b.ncoords, x.i, x.j, x.k);
    }

    lemma VisitedStep(st: Store, n: nat, qs: seq<Triple>, st1: Store, calcs: seq<Calc>, n1: nat,
                      x: Triple, st2: Store, cs2: seq<Calc>, n2: nat)
      requires Visited(st, n, qs, st1, calcs, n1) && (qs != [] ==> |calcs| < cs) && GradOk(x)
      requires var d := step(st1, n1, x);
        st2 == d.0 && cs2 == d.1 && n2 == d.2
      ensures Visited(st, n, qs + [x], st2, calcs + cs2, n2)
    {
      SweepSnoc(st, n, qs, x, step);
      ShortSnoc(st, n, qs, x, step, cs);
    }
  }

  /** BuildGradPoints: the generator for the configured derivative level,
   *  chunk size and step size, writing under progDir/dir; None is the
   *  "unrecognized derivative level" panic. */
  method BuildGradPoints(progDir: string, dir: string, ncoords: nat, deriv: int, cs: int, scale: real)
    returns (g: Option<GradGen>)
    ensures g.Some? <==> 2 <= deriv <= 4
    ensures g.Some? ==> && fresh(g.value) && g.value.Valid() && g.value.done == []
                        && g.value.b == GradBounds(deriv, ncoords).value && g.value.cs == cs
                        && g.value.scale == scale && g.value.dir == JoinPath(progDir, dir)
                        && g.value.pf == 0 && g.value.count == 0 && g.value.start == 0
  {
    var b := GradBounds(deriv, ncoords);
    if b.None? {
      return None;
    }
    var gen := new GradGen(b.value, cs, scale, JoinPath(progDir, dir));
    g := Some(gen);
  }
}
