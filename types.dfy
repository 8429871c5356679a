/** types.go: CountFloat, the accumulator one force constant is summed in
 *  while its energies come back, and GarbageHeap, the list of files to
 *  delete. Values are float64 in Go and reals here. */
module Types {
  import opened Text

  /** The global array a Target points into. Go tells e2d apart from the
   *  others by comparing the slice's address with &e2d; here it is named. */
  datatype Slice = E2d | Fc2 | Fc3 | Fc4 | CEnergies

  /** A coefficient, the array and the index in it. */
  datatype Target = Target(coeff: real, slice: Slice, index: int)

  /** A value, how many contributions it still waits for, and whether it
   *  came from a checkpoint. */
  datatype CountFloat = CountFloat(val: real, count: int, loaded: bool)

  /** The fields of a Calc that program.go sets: the job's name, its
   *  targets, the energy already known for a point that does not run, the
   *  noRun flag, the scale, and the Source of a point that waits for an
   *  e2d value, as its index in e2d. */
  datatype Calc = Calc(name: string, targets: seq<Target>, result: real, noRun: bool, scale: real, src: Option<int>)

  /** The package's global arrays e2d, fc2, fc3, fc4 and cenergies, which
   *  the point builders grow and whose counts they set. */
  datatype Store = Store(e2d: seq<CountFloat>, fc2: seq<CountFloat>, fc3: seq<CountFloat>,
                         fc4: seq<CountFloat>, cenergies: seq<CountFloat>)

  /** The array a Slice names: what *t.Slice is in Go. */
  function Get(st: Store, s: Slice): seq<CountFloat> {
    match s
    case E2d => st.e2d
    case Fc2 => st.fc2
    case Fc3 => st.fc3
    case Fc4 => st.fc4
    case CEnergies => st.cenergies
  }

  /** The store after `*s = a`: only the named array changes. */
  function Put(st: Store, s: Slice, a: seq<CountFloat>): (r: Store)
    ensures Get(r, s) == a
    ensures forall t :: t != s ==> Get(r, t) == Get(st, t)
  {
    match s
    case E2d => st.(e2d := a)
    case Fc2 => st.(fc2 := a)
    case Fc3 => st.(fc3 := a)
    case Fc4 => st.(fc4 := a)
    case CEnergies => st.(cenergies := a)
  }

  /** The array after `for len(a) <= v { a = append(a, fill) }`: long
   *  enough to hold index v, the old entries first, then copies of fill. */
  function Grown(a: seq<CountFloat>, v: int, fill: CountFloat): (r: seq<CountFloat>)
    ensures |r| == if |a| <= v then v + 1 else |a|
    ensures r[..|a|] == a
    ensures forall m :: |a| <= m < |r| ==> r[m] == fill
    decreases v - |a|
  {
    if |a| <= v then
      var r := Grown(a + [fill], v, fill);
      assert r[..|a|] == r[..|a| + 1][..|a|];
      r
    else a
  }

  /** The loop itself. */
  method Grow(a: seq<CountFloat>, v: int, fill: CountFloat) returns (r: seq<CountFloat>)
    ensures r == Grown(a, v, fill)
  {
    r := a;
    while |r| <= v
      invariant Grown(r, v, fill) == Grown(a, v, fill)
      decreases v - |r|
    {
      r := r + [fill];
    }
  }

  /** Done: no contribution is outstanding. */
  predicate Done(c: CountFloat) {
    c.count == 0
  }

  /** What one Add leaves in c: plus is added and the count goes down; the
   *  contribution that brings the count to zero also applies the scale,
   *  except in e2d. The count going below zero is the panic. */
  function Added(c: CountFloat, t: Target, scale: real, plus: real): CountFloat {
    var v := c.val + plus;
    var n := c.count - 1;
    if n < 0 then CountFloat(v, n, c.loaded)
    else if n == 0 && t.slice != E2d then CountFloat(v * scale, n, c.loaded)
    else CountFloat(v, n, c.loaded)
  }

  /** CountFloat.Add on the element s[i], the receiver Go points at.
   *  panicked is the "added to CountFloat too many times" panic. */
  method Add(s: array<CountFloat>, i: nat, t: Target, scale: real, plus: real) returns (panicked: bool)
    requires i < s.Length
    modifies s
    ensures s[i] == Added(old(s[i]), t, scale, plus)
    ensures forall k :: 0 <= k < s.Length && k != i ==> s[k] == old(s[k])
    ensures panicked <==> old(s[i].count) < 1
  {
    var c := s[i];
    c := c.(val := c.val + plus);
    c := c.(count := c.count - 1);
    if c.count < 0 {
      s[i] := c;
      return true;
    } else if c.count == 0 && t.slice != E2d {
      c := c.(val := c.val * scale);
    }
    s[i] := c;
    panicked := false;
  }

  function Sum(xs: seq<real>): real
    decreases |xs|
  {
    if xs == [] then 0.0 else Sum(xs[..|xs| - 1]) + xs[|xs| - 1]
  }

  /** The contributions in order; None once one of them panics. */
  function AddAll(c: CountFloat, t: Target, scale: real, plusses: seq<real>): Option<CountFloat>
    decreases |plusses|
  {
    if plusses == [] then Some(c)
    else
      match AddAll(c, t, scale, plusses[..|plusses| - 1])
      case None => None
      case Some(d) =>
        var e := Added(d, t, scale, plusses[|plusses| - 1]);
        if e.count < 0 then None else Some(e)
  }

  /** Up to as many contributions as the count expects: the value is their
   *  sum on top of the old one, the count has gone down by their number,
   *  and the scale is applied once, exactly when the last expected one
   *  arrives (and never in e2d). */
  lemma {:induction false} AddAllSum(c: CountFloat, t: Target, scale: real, plusses: seq<real>)
    requires 0 < c.count && |plusses| <= c.count
    ensures AddAll(c, t, scale, plusses) == Some(CountFloat(
      if |plusses| == c.count && t.slice != E2d then (c.val + Sum(plusses)) * scale else c.val + Sum(plusses),
      c.count - |plusses|, c.loaded))
    decreases |plusses|
  {
    if plusses != [] {
      var init, last := plusses[..|plusses| - 1], plusses[|plusses| - 1];
      AddAllSum(c, t, scale, init);
      var d := CountFloat(c.val + Sum(init), c.count - |init|, c.loaded);
      assert AddAll(c, t, scale, init) == Some(d);
      assert Sum(plusses) == Sum(init) + last;
      assert c.val + Sum(plusses) == d.val + last;
      var e := Added(d, t, scale, last);
      assert e.count == c.count - |plusses| >= 0;
      assert AddAll(c, t, scale, plusses) == Some(e);
      if |plusses| == c.count && t.slice != E2d {
        assert e.val == (c.val + Sum(plusses)) * scale;
      } else {
        assert e.val == c.val + Sum(plusses);
      }
    }
  }

  /** The expected number of contributions leaves the value Done. */
  lemma AddAllDone(c: CountFloat, t: Target, scale: real, plusses: seq<real>)
    requires 0 < c.count == |plusses|
    ensures AddAll(c, t, scale, plusses).Some? && Done(AddAll(c, t, scale, plusses).value)
  {
    AddAllSum(c, t, scale, plusses);
  }

  /** One contribution more than the count expects panics. */
  lemma {:induction false} AddAllTooMany(c: CountFloat, t: Target, scale: real, plusses: seq<real>)
    requires 0 <= c.count < |plusses|
    ensures AddAll(c, t, scale, plusses).None?
    decreases |plusses|
  {
    var init := plusses[..|plusses| - 1];
    if |init| > c.count {
      AddAllTooMany(c, t, scale, init);
    } else if c.count > 0 {
      AddAllSum(c, t, scale, init);
    }
  }

  /** FloatsFromCountFloats: the values, in order. */
  method FloatsFromCountFloats(cfs: seq<CountFloat>) returns (floats: seq<real>)
    ensures |floats| == |cfs|
    ensures forall k :: 0 <= k < |cfs| ==> floats[k] == cfs[k].val
  {
    floats := [];
    var n := 0;
    while n < |cfs|
      invariant n <= |cfs| && |floats| == n
      invariant forall k :: 0 <= k < n ==> floats[k] == cfs[k].val
    {
      floats := floats + [cfs[n].val];
      n := n + 1;
    }
  }

  /** The basenames' files, waiting to be deleted. */
  class GarbageHeap {
    var heap: seq<string>

    constructor ()
      ensures heap == []
    {
      heap := [];
    }

    function Len(): (n: nat)
      reads this
      ensures n == |heap|
    {
      |heap|
    }

    /** A job's input and output file join the heap, in that order. */
    method Add(basename: string)
      modifies this
      ensures heap == old(heap) + [basename + ".inp", basename + ".out"]
      ensures Len() == old(Len()) + 2
    {
      heap := heap + [basename + ".inp", basename + ".out"];
    }

    /** Removes every file on the heap and empties it. The removals are
     *  I/O; removed lists the names passed to os.Remove, in order. */
    method Dump() returns (removed: seq<string>)
      modifies this
      ensures removed == old(heap)
      ensures heap == [] && Len() == 0
    {
      removed := [];
      var n := 0;
      while n < |heap|
        invariant n <= |heap| && removed == heap[..n]
      {
        removed := removed + [heap[n]];
        n := n + 1;
      }
      heap := [];
    }
  }
}
