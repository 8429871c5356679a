/** program.go: what the point generators of BuildCartPoints and
 *  BuildGradPoints share: min, and the running totals of a walk that
 *  calls a derivative helper on each point it visits. */
module Chunks {
  import opened Types

  /** min: the smaller of the two. */
  function Min(a: int, b: int): (r: int)
    ensures r <= a && r <= b && (r == a || r == b)
  {
    if a < b then a else b
  }

  /** What the derivative helper does on one point: the store, its calcs
   *  and the job counter after it, from the store and the job counter
   *  before. */
  type Step<-X> = (Store, nat, X) -> (Store, seq<Calc>, nat)

  /** The store, the calcs and the job counter after step has run on each
   *  point of xs in turn. */
  function Sweep<X>(st: Store, n: nat, xs: seq<X>, step: Step<X>): (Store, seq<Calc>, nat)
    decreases |xs|
  {
    if xs == [] then (st, [], n)
    else
      var r := Sweep(st, n, xs[..|xs| - 1], step);
      var d := step(r.0, r.2, xs[|xs| - 1]);
      (d.0, r.1 + d.1, d.2)
  }

  /** One more point: its calcs go after those of the points before. */
  lemma SweepSnoc<X>(st: Store, n: nat, xs: seq<X>, x: X, step: Step<X>)
    ensures var r := Sweep(st, n, xs, step);
      var d := step(r.0, r.2, x);
      var r' := Sweep(st, n, xs + [x], step);
      r'.0 == d.0 && r'.1 == r.1 + d.1 && r'.2 == d.2
  {
    assert (xs + [x])[..|xs|] == xs;
  }

  /** The chunk stays below size over every proper prefix of xs + [x]
   *  when it did over xs and its sweep. */
  lemma ShortSnoc<X>(st: Store, n: nat, xs: seq<X>, x: X, step: Step<X>, cs: int)
    requires forall t :: 0 < t < |xs| ==> |Sweep(st, n, xs[..t], step).1| < cs
    requires xs != [] ==> |Sweep(st, n, xs, step).1| < cs
    ensures forall t :: 0 < t < |xs + [x]| ==> |Sweep(st, n, (xs + [x])[..t], step).1| < cs
  {
    forall t | 0 < t < |xs + [x]|
      ensures |Sweep(st, n, (xs + [x])[..t], step).1| < cs
    {
      assert (xs + [x])[..t] == xs[..t];
      assert xs[..|xs|] == xs;
    }
  }

  /** The point just visited moves from the walk's rest to its front. */
  lemma Shift<X>(s: seq<X>, x: X, r: seq<X>)
    ensures s + [x] + r == s + ([x] + r)
  {
  }

  /** The points one call visited join those of the calls before. */
  lemma Settle<X>(d: seq<X>, v: seq<X>, r: seq<X>, r0: seq<X>, all: seq<X>)
    requires v + r == r0 && d + r0 == all
    ensures d + v + r == all && (d + v)[..|d|] == d && (d + v)[|d|..] == v
  {
  }
}
