/** The "d:f" step-size list that input.go and config.go parse the same
 *  way (ParseDeltas): comma-separated pairs, each setting the 1-based
 *  position d to the step f, growing the list with the default step as
 *  needed. strconv.ParseFloat is a parameter. */
module Deltas {
  import opened Text

  /** A position named by a pair: at least 1. */
  type Pos = d: int | d >= 1 witness 1

  /** One pair: a piece with exactly one ":", an integer d >= 1 before it
   *  and a float f >= 0 after it, both trimmed; None for the panic
   *  "invalid deltas input". */
  function Pair(p: string, parseFloat: string -> Option<real>): (r: Option<(Pos, real)>)
    ensures r.Some? ==> r.value.1 >= 0.0
  {
    var sp := Split(p, ":");
    if |sp| != 2 then None
    else
      match Atoi(TrimSpace(sp[0]))
      case None => None
      case Some(d) =>
        if d < 1 then None
        else
          match parseFloat(TrimSpace(sp[1]))
          case None => None
          case Some(f) => if f < 0.0 then None else Some((d, f))
  }

  /** The list grown with the default step up to length n. */
  function Grow(ret: seq<real>, n: int, delta: real): (r: seq<real>)
    ensures |r| == if |ret| < n then n else |ret|
    ensures forall k :: 0 <= k < |r| ==> r[k] == if k < |ret| then ret[k] else delta
    decreases n - |ret|
  {
    if |ret| < n then Grow(ret + [delta], n, delta) else ret
  }

  /** One pair applied: grown up to d, then position d set to f. */
  function Place(ret: seq<real>, d: Pos, f: real, delta: real): seq<real> {
    Grow(ret, d, delta)[d - 1 := f]
  }

  /** Each piece parsed on its own. */
  function Pairs(pieces: seq<string>, parseFloat: string -> Option<real>): (r: seq<Option<(Pos, real)>>)
    ensures |r| == |pieces|
    decreases |pieces|
  {
    if pieces == [] then []
    else Pairs(pieces[..|pieces| - 1], parseFloat) + [Pair(pieces[|pieces| - 1], parseFloat)]
  }

  /** Piece i parsed on its own. */
  lemma {:induction false} PairsAt(pieces: seq<string>, parseFloat: string -> Option<real>, i: nat)
    requires i < |pieces|
    ensures Pairs(pieces, parseFloat)[i] == Pair(pieces[i], parseFloat)
    decreases |pieces|
  {
    var init := pieces[..|pieces| - 1];
    if i < |init| {
      PairsAt(init, parseFloat, i);
    }
  }

  /** The pairs in order, or None when one of them panics. */
  function Parsed(opts: seq<Option<(Pos, real)>>): (r: Option<seq<(Pos, real)>>)
    ensures r.Some? ==> |r.value| == |opts|
    decreases |opts|
  {
    if opts == [] then Some([])
    else
      match Parsed(opts[..|opts| - 1])
      case None => None
      case Some(ps) =>
        match opts[|opts| - 1]
        case None => None
        case Some(p) => Some(ps + [p])
  }

  /** The pairs applied in order to an empty list. */
  function PlaceAll(ps: seq<(Pos, real)>, delta: real): seq<real>
    decreases |ps|
  {
    if ps == [] then []
    else
      var last := ps[|ps| - 1];
      Place(PlaceAll(ps[..|ps| - 1], delta), last.0, last.1, delta)
  }

  /** The largest position, 0 without pairs. */
  function MaxPos(ps: seq<(Pos, real)>): int
    decreases |ps|
  {
    if ps == [] then 0
    else
      var m := MaxPos(ps[..|ps| - 1]);
      if ps[|ps| - 1].0 > m then ps[|ps| - 1].0 else m
  }

  /** The step of the last pair at position d, or the default. */
  function LastFor(ps: seq<(Pos, real)>, d: int, delta: real): real
    decreases |ps|
  {
    if ps == [] then delta
    else if ps[|ps| - 1].0 == d then ps[|ps| - 1].1
    else LastFor(ps[..|ps| - 1], d, delta)
  }

  /** What ParseDeltas computes from the text: the pairs applied, then
   *  grown with the default up to ncoords. */
  function FromPairs(s: string, delta: real, ncoords: int, parseFloat: string -> Option<real>): Option<seq<real>> {
    match Parsed(Pairs(Split(s, ","), parseFloat))
    case None => None
    case Some(ps) => Some(Grow(PlaceAll(ps, delta), ncoords, delta))
  }

  // ---------------------------------------------------------------------
  // What the result holds

  /** Position k (0-based) holds the step of the last pair naming k + 1,
   *  or the default; the length is the largest position named. */
  lemma {:induction false} PlaceAllAt(ps: seq<(Pos, real)>, delta: real)
    ensures |PlaceAll(ps, delta)| == MaxPos(ps)
    ensures forall k :: 0 <= k < |PlaceAll(ps, delta)| ==> PlaceAll(ps, delta)[k] == LastFor(ps, k + 1, delta)
    decreases |ps|
  {
    if ps != [] {
      var init := ps[..|ps| - 1];
      var last := ps[|ps| - 1];
      PlaceAllAt(init, delta);
      var ret := PlaceAll(init, delta);
      var r := PlaceAll(ps, delta);
      assert r == Grow(ret, last.0, delta)[last.0 - 1 := last.1];
      forall k | 0 <= k < |r|
        ensures r[k] == LastFor(ps, k + 1, delta)
      {
        if k + 1 != last.0 && k >= |ret| {
          Beyond(init, k + 1, delta);
        }
      }
    }
  }

  /** No pair names a position past the largest. */
  lemma {:induction false} Beyond(ps: seq<(Pos, real)>, d: int, delta: real)
    requires d > MaxPos(ps)
    ensures LastFor(ps, d, delta) == delta
    decreases |ps|
  {
    if ps != [] {
      Beyond(ps[..|ps| - 1], d, delta);
    }
  }

  /** The pairs parse exactly when each of them does, each to its own
   *  position and step. */
  lemma {:induction false} ParsedIff(opts: seq<Option<(Pos, real)>>)
    ensures Parsed(opts).Some? <==> forall i :: 0 <= i < |opts| ==> opts[i].Some?
    ensures Parsed(opts).Some? ==> forall i :: 0 <= i < |opts| ==> Parsed(opts).value[i] == opts[i].value
    decreases |opts|
  {
    if opts != [] {
      var init := opts[..|opts| - 1];
      ParsedIff(init);
      assert forall i :: 0 <= i < |init| ==> init[i] == opts[i];
    }
  }

  /** ParseDeltas succeeds exactly when every comma-separated pair
   *  parses. */
  lemma FromPairsIff(s: string, delta: real, ncoords: int, parseFloat: string -> Option<real>)
    ensures var pieces := Split(s, ",");
      FromPairs(s, delta, ncoords, parseFloat).Some? <==> forall i :: 0 <= i < |pieces| ==> Pair(pieces[i], parseFloat).Some?
  {
    var pieces := Split(s, ",");
    var opts := Pairs(pieces, parseFloat);
    ParsedIff(opts);
    if forall i :: 0 <= i < |pieces| ==> Pair(pieces[i], parseFloat).Some? {
      forall i | 0 <= i < |opts|
        ensures opts[i].Some?
      {
        PairsAt(pieces, parseFloat, i);
      }
      assert Parsed(opts).Some?;
    } else {
      var i :| 0 <= i < |pieces| && Pair(pieces[i], parseFloat).None?;
      PairsAt(pieces, parseFloat, i);
      assert opts[i].None?;
      assert FromPairs(s, delta, ncoords, parseFloat).None?;
      assert pieces == Split(s, ",");
      assert !(forall i :: 0 <= i < |Split(s, ",")| ==> Pair(Split(s, ",")[i], parseFloat).Some?);
      assert !(forall i :: 0 <= i < |Split(s, ",")| ==> Pair(Split(s, ",")[i], parseFloat).Some?);
    }
  }

  /** The result of ParseDeltas: as long as the larger of ncoords and the
   *  largest position named; each position the step of the last pair
   *  naming it, or the default. */
  lemma FromPairsAt(s: string, delta: real, ncoords: int, parseFloat: string -> Option<real>)
    requires FromPairs(s, delta, ncoords, parseFloat).Some?
    ensures var ps := Parsed(Pairs(Split(s, ","), parseFloat)).value;
      var r := FromPairs(s, delta, ncoords, parseFloat).value;
      |r| == (if MaxPos(ps) < ncoords then ncoords else MaxPos(ps)) &&
      forall k :: 0 <= k < |r| ==> r[k] == LastFor(ps, k + 1, delta)
  {
    Padded(Parsed(Pairs(Split(s, ","), parseFloat)).value, delta, ncoords);
  }

  /** The pairs applied and then grown up to ncoords. */
  lemma Padded(ps: seq<(Pos, real)>, delta: real, ncoords: int)
    ensures var r := Grow(PlaceAll(ps, delta), ncoords, delta);
      |r| == (if MaxPos(ps) < ncoords then ncoords else MaxPos(ps)) &&
      forall k :: 0 <= k < |r| ==> r[k] == LastFor(ps, k + 1, delta)
  {
    PlaceAllAt(ps, delta);
    var r := Grow(PlaceAll(ps, delta), ncoords, delta);
    forall k | 0 <= k < |r|
      ensures r[k] == LastFor(ps, k + 1, delta)
    {
      if k >= |PlaceAll(ps, delta)| {
        Beyond(ps, k + 1, delta);
      }
    }
  }

  /** The empty text is one piece without ":", which panics. */
  lemma EmptyPanics(delta: real, ncoords: int, parseFloat: string -> Option<real>)
    ensures FromPairs("", delta, ncoords, parseFloat) == None
  {
    assert Split("", ",") == [""];
    assert Split("", ":") == [""];
    assert Pair("", parseFloat) == None;
    var opts := Pairs([""], parseFloat);
    PairsAt([""], parseFloat, 0);
    assert opts == [None] && opts[..0] == [];
  }

  // ---------------------------------------------------------------------
  // The loops

  /** The loop over the pairs: None for the panic. */
  method ApplyPairs(pieces: seq<string>, delta: real, parseFloat: string -> Option<real>) returns (r: Option<seq<real>>)
    ensures r == match Parsed(Pairs(pieces, parseFloat)) case None => None case Some(ps) => Some(PlaceAll(ps, delta))
  {
    var ret: seq<real> := [];
    ghost var opts := Pairs(pieces, parseFloat);
    ghost var ps: seq<(Pos, real)> := [];
    var i := 0;
    while i < |pieces|
      invariant i <= |pieces| && Parsed(opts[..i]) == Some(ps) && ret == PlaceAll(ps, delta)
    {
      var ok;
      ok, ret, ps := ApplyPair(pieces, i, ps, ret, delta, parseFloat);
      if !ok {
        return None;
      }
      i := i + 1;
    }
    assert opts[..i] == opts;
    r := Some(ret);
  }

  /** One turn of the loop: piece i parsed and applied, or the panic. */
  method ApplyPair(pieces: seq<string>, i: nat, ghost ps: seq<(Pos, real)>, ret: seq<real>, delta: real,
                   parseFloat: string -> Option<real>)
    returns (ok: bool, ret': seq<real>, ghost ps': seq<(Pos, real)>)
    requires i < |pieces| && Parsed(Pairs(pieces, parseFloat)[..i]) == Some(ps) && ret == PlaceAll(ps, delta)
    ensures ok ==> Parsed(Pairs(pieces, parseFloat)[..i + 1]) == Some(ps') && ret' == PlaceAll(ps', delta)
    ensures !ok ==> Parsed(Pairs(pieces, parseFloat)) == None
  {
    ghost var opts := Pairs(pieces, parseFloat);
    var p := ParsePair(pieces[i], parseFloat);
    PairsAt(pieces, parseFloat, i);
    if p.None? {
      Halt(opts, i);
      return false, ret, ps;
    }
    var d, f := p.value.0, p.value.1;
    ret' := PlaceOne(ret, d, f, delta);
    Advance(opts, i, ps, (d, f));
    PlaceNext(ps, d, f, delta);
    ok, ps' := true, ps + [(d, f)];
  }

  /** One pair applied to the list in hand. */
  method PlaceOne(ret: seq<real>, d: Pos, f: real, delta: real) returns (r: seq<real>)
    ensures r == Place(ret, d, f, delta)
  {
    r := GrowTo(ret, d, delta);
    r := r[d - 1 := f];
  }

  /** One piece parsed. */
  method ParsePair(piece: string, parseFloat: string -> Option<real>) returns (p: Option<(Pos, real)>)
    ensures p == Pair(piece, parseFloat)
  {
    p := Pair(piece, parseFloat);
  }

  /** One more piece parsed. */
  lemma ParsedNext(opts: seq<Option<(Pos, real)>>, i: nat)
    requires i < |opts|
    ensures Parsed(opts[..i + 1]) ==
      match Parsed(opts[..i])
      case None => None
      case Some(ps) => if opts[i].None? then None else Some(ps + [opts[i].value])
  {
    assert opts[..i + 1][..i] == opts[..i];
  }

  /** A pair that parses extends the parsed prefix. */
  lemma Advance(opts: seq<Option<(Pos, real)>>, i: nat, ps: seq<(Pos, real)>, p: (Pos, real))
    requires i < |opts| && Parsed(opts[..i]) == Some(ps) && opts[i] == Some(p)
    ensures Parsed(opts[..i + 1]) == Some(ps + [p])
  {
    ParsedNext(opts, i);
  }

  /** A pair that panics makes the whole parse panic. */
  lemma Halt(opts: seq<Option<(Pos, real)>>, i: nat)
    requires i < |opts| && opts[i] == None
    ensures Parsed(opts) == None
  {
    ParsedNext(opts, i);
    ParsedStops(opts, i + 1);
  }

  /** One more pair applied. */
  lemma PlaceNext(ps: seq<(Pos, real)>, d: Pos, f: real, delta: real)
    ensures PlaceAll(ps + [(d, f)], delta) == Place(PlaceAll(ps, delta), d, f, delta)
  {
    assert (ps + [(d, f)])[..|ps|] == ps;
  }

  /** A pair that panics ends the whole loop in a panic. */
  lemma {:induction false} ParsedStops(opts: seq<Option<(Pos, real)>>, i: nat)
    requires i <= |opts| && Parsed(opts[..i]) == None
    ensures Parsed(opts) == None
    decreases |opts| - i
  {
    if i < |opts| {
      assert opts[..i + 1][..i] == opts[..i];
      ParsedStops(opts, i + 1);
    } else {
      assert opts[..i] == opts;
    }
  }

  /** The loop that appends the default step while the list is shorter
   *  than n. */
  method GrowTo(ret: seq<real>, n: int, delta: real) returns (r: seq<real>)
    ensures r == Grow(ret, n, delta)
  {
    r := ret;
    while |r| < n
      invariant Grow(r, n, delta) == Grow(ret, n, delta)
      decreases n - |r|
    {
      r := r + [delta];
    }
  }
}
