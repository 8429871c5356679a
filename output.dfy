/** output.go: Subtract and ParseOutput, which read the displaced
 *  geometry and the energy back out of a Molpro output file. The file is
 *  given as its scanner lines; strconv.ParseFloat, whose error is ignored
 *  by the source, is the parameter parseFloat (0 where it fails). */
module Output {
  import opened Text

  // ---------------------------------------------------------------------
  // Subtract

  /** The elementwise difference of two vectors of the same length. */
  function Diff(a: seq<real>, b: seq<real>): (r: seq<real>)
    requires |a| == |b|
    ensures |r| == |a| && forall i :: 0 <= i < |a| ==> r[i] == a[i] - b[i]
    decreases |a|
  {
    if a == [] then [] else Diff(a[..|a| - 1], b[..|b| - 1]) + [a[|a| - 1] - b[|b| - 1]]
  }

  /** Subtract: None is the "dimension mismatch" panic. */
  method Subtract(a: seq<real>, b: seq<real>) returns (r: Option<seq<real>>)
    ensures r.None? <==> |a| != |b|
    ensures r.Some? ==> r.value == Diff(a, b)
  {
    if |a| != |b| {
      return None;
    }
    var diff: seq<real> := [];
    var i := 0;
    while i < |a|
      invariant i <= |a| && |diff| == i
      invariant forall k :: 0 <= k < i ==> diff[k] == a[k] - b[k]
    {
      diff := diff + [a[i] - b[i]];
      i := i + 1;
    }
    r := Some(diff);
  }

  /** Adding b back gives a, and a vector minus itself is zero. */
  lemma DiffInverse(a: seq<real>, b: seq<real>)
    requires |a| == |b|
    ensures forall i :: 0 <= i < |a| ==> Diff(a, b)[i] + b[i] == a[i]
    ensures forall i :: 0 <= i < |a| ==> Diff(a, a)[i] == 0.0
    ensures forall i :: 0 <= i < |a| ==> Diff(b, a)[i] == -Diff(a, b)[i]
  {
  }

  // ---------------------------------------------------------------------
  // ParseOutput

  datatype State = State(ingeom: bool, skip: nat, coords: seq<real>, energy: real)

  const Start := State(false, 0, [], 0.0)

  /** The switch on one line: a pending skip first, then the opener (which
   *  with comment set skips the two lines after it), the end of the
   *  block, a line inside the block (a 4-field line gives its last three
   *  fields as coordinates), and outside the block an "energy=" line,
   *  whose last field is the energy. */
  function Step(st: State, line: string, comment: bool, parseFloat: string -> real): State {
    if st.skip > 0 then st.(skip := st.skip - 1)
    else if Contains(line, "geometry={") then st.(ingeom := true, skip := if comment then st.skip + 2 else st.skip)
    else if st.ingeom && Contains(line, "}") then st.(ingeom := false)
    else if st.ingeom then
      var fields := Fields(line);
      if |fields| == 4 then st.(coords := st.coords + Map(parseFloat, fields[1..])) else st
    else if Contains(line, "energy=") then
      var fields := Fields(line);
      if fields == [] then st
      else st.(energy := parseFloat(fields[|fields| - 1]))
    else st
  }

  function Scan(lines: seq<string>, comment: bool, parseFloat: string -> real): State
    decreases |lines|
  {
    if lines == [] then Start
    else Step(Scan(lines[..|lines| - 1], comment, parseFloat), lines[|lines| - 1], comment, parseFloat)
  }

  /** ParseOutput over the file's lines. */
  method ParseOutput(lines: seq<string>, comment: bool, parseFloat: string -> real) returns (coords: seq<real>, energy: real)
    ensures coords == Scan(lines, comment, parseFloat).coords
    ensures energy == Scan(lines, comment, parseFloat).energy
    ensures coords == CoordsOf(lines, |lines|, comment, parseFloat)
  {
    var ingeom := false;
    var skip: nat := 0;
    coords := [];
    energy := 0.0;
    var n := 0;
    while n < |lines|
      invariant n <= |lines|
      invariant State(ingeom, skip, coords, energy) == Scan(lines[..n], comment, parseFloat)
    {
      assert lines[..n + 1][..n] == lines[..n];
      var line := lines[n];
      n := n + 1;
      if skip > 0 {
        skip := skip - 1;
        continue;
      } else if Contains(line, "geometry={") {
        ingeom := true;
        if comment {
          skip := skip + 2;
        }
        continue;
      } else if ingeom && Contains(line, "}") {
        ingeom := false;
        continue;
      } else if ingeom {
        var fields := Fields(line);
        if |fields| == 4 {
          coords := AppendParsed(coords, fields[1..], parseFloat);
        }
      } else if Contains(line, "energy=") {
        var fields := Fields(line);
        ContainsFields(line, "energy=", 0);
        energy := parseFloat(fields[|fields| - 1]);
      }
    }
    assert lines[..n] == lines;
    ScanAllCoords(lines, comment, parseFloat);
  }

  /** The loop over the last fields of an atom line: each parsed and
   *  appended in order. */
  method AppendParsed(coords: seq<real>, rest: seq<string>, parseFloat: string -> real) returns (out: seq<real>)
    ensures out == coords + Map(parseFloat, rest)
  {
    out := coords;
    var k := 0;
    while k < |rest|
      invariant k <= |rest|
      invariant out == coords + Map(parseFloat, rest[..k])
    {
      MapSnoc(parseFloat, rest, k);
      out := out + [parseFloat(rest[k])];
      k := k + 1;
    }
    assert rest[..k] == rest;
  }

  lemma ScanAllCoords(lines: seq<string>, comment: bool, parseFloat: string -> real)
    ensures Scan(lines, comment, parseFloat).coords == CoordsOf(lines, |lines|, comment, parseFloat)
  {
    ScanCoords(lines, |lines|, comment, parseFloat);
    assert lines[..|lines|] == lines;
  }

  /** Line k is read for the energy: no skip is pending, it is neither an
   *  opener nor inside the block, and it holds "energy=". */
  predicate ReadsEnergy(lines: seq<string>, k: nat, comment: bool, parseFloat: string -> real)
    requires k < |lines|
  {
    var st := Scan(lines[..k], comment, parseFloat);
    st.skip == 0 && !Contains(lines[k], "geometry={") && !st.ingeom && Contains(lines[k], "energy=")
  }

  function LastField(line: string): string {
    var fields := Fields(line);
    if fields == [] then "" else fields[|fields| - 1]
  }

  lemma ScanPrefix(lines: seq<string>, n: nat, comment: bool, parseFloat: string -> real)
    requires 0 < n <= |lines|
    ensures Scan(lines[..n], comment, parseFloat) == Step(Scan(lines[..n - 1], comment, parseFloat), lines[n - 1], comment, parseFloat)
  {
    assert lines[..n][..n - 1] == lines[..n - 1];
  }

  /** One line's effect on the energy. */
  lemma StepEnergy(st: State, line: string, comment: bool, parseFloat: string -> real)
    ensures Step(st, line, comment, parseFloat).energy ==
      if st.skip == 0 && !Contains(line, "geometry={") && !st.ingeom && Contains(line, "energy=")
      then parseFloat(LastField(line)) else st.energy
  {
    if st.skip == 0 && !Contains(line, "geometry={") && !st.ingeom && Contains(line, "energy=") {
      ContainsFields(line, "energy=", 0);
    }
  }

  /** The energy is read from the last line read for it: later lines leave
   *  it alone. */
  lemma {:induction false} LastEnergyWins(lines: seq<string>, n: nat, k: nat, comment: bool, parseFloat: string -> real)
    requires k < n <= |lines|
    requires ReadsEnergy(lines, k, comment, parseFloat)
    requires forall m :: k < m < n ==> !ReadsEnergy(lines, m, comment, parseFloat)
    ensures Scan(lines[..n], comment, parseFloat).energy == parseFloat(LastField(lines[k]))
    decreases n
  {
    ScanPrefix(lines, n, comment, parseFloat);
    StepEnergy(Scan(lines[..n - 1], comment, parseFloat), lines[n - 1], comment, parseFloat);
    if k < n - 1 {
      assert !ReadsEnergy(lines, n - 1, comment, parseFloat);
      LastEnergyWins(lines, n - 1, k, comment, parseFloat);
    }
  }

  /** With no line read for the energy it stays 0. */
  lemma {:induction false} NoEnergyLine(lines: seq<string>, n: nat, comment: bool, parseFloat: string -> real)
    requires n <= |lines|
    requires forall m :: 0 <= m < n ==> !ReadsEnergy(lines, m, comment, parseFloat)
    ensures Scan(lines[..n], comment, parseFloat).energy == 0.0
    decreases n
  {
    if n > 0 {
      ScanPrefix(lines, n, comment, parseFloat);
      StepEnergy(Scan(lines[..n - 1], comment, parseFloat), lines[n - 1], comment, parseFloat);
      assert !ReadsEnergy(lines, n - 1, comment, parseFloat);
      NoEnergyLine(lines, n - 1, comment, parseFloat);
    }
  }

  /** Line k is read for coordinates: no skip is pending, it is not an
   *  opener, the block is open before it, it does not close the block, and
   *  it has exactly four fields. */
  predicate ReadsCoords(lines: seq<string>, k: nat, comment: bool, parseFloat: string -> real)
    requires k < |lines|
  {
    var st := Scan(lines[..k], comment, parseFloat);
    st.skip == 0 && !Contains(lines[k], "geometry={") && st.ingeom && !Contains(lines[k], "}")
    && |Fields(lines[k])| == 4
  }

  /** The last three fields, parsed, of every line among the first n that
   *  is read for coordinates, in file order. */
  function CoordsOf(lines: seq<string>, n: nat, comment: bool, parseFloat: string -> real): seq<real>
    requires n <= |lines|
  {
    if n == 0 then []
    else
      CoordsOf(lines, n - 1, comment, parseFloat)
      + (if ReadsCoords(lines, n - 1, comment, parseFloat) then Map(parseFloat, Fields(lines[n - 1])[1..]) else [])
  }

  /** One line's effect on the coordinates. */
  lemma StepCoords(st: State, line: string, comment: bool, parseFloat: string -> real)
    ensures Step(st, line, comment, parseFloat).coords ==
      if st.skip == 0 && !Contains(line, "geometry={") && st.ingeom && !Contains(line, "}") && |Fields(line)| == 4
      then st.coords + Map(parseFloat, Fields(line)[1..]) else st.coords
  {
  }

  /** The coordinates read from the first n lines are exactly the last
   *  three fields of the in-block 4-field lines among them, in order. */
  lemma {:induction false} ScanCoords(lines: seq<string>, n: nat, comment: bool, parseFloat: string -> real)
    requires n <= |lines|
    ensures Scan(lines[..n], comment, parseFloat).coords == CoordsOf(lines, n, comment, parseFloat)
    decreases n
  {
    if n == 0 {
      assert lines[..0] == [];
    } else {
      ScanPrefix(lines, n, comment, parseFloat);
      StepCoords(Scan(lines[..n - 1], comment, parseFloat), lines[n - 1], comment, parseFloat);
      ScanCoords(lines, n - 1, comment, parseFloat);
    }
  }

  /** Coordinates come three at a time, one triple per atom line. */
  lemma {:induction false} CoordsTriples(lines: seq<string>, comment: bool, parseFloat: string -> real)
    ensures |Scan(lines, comment, parseFloat).coords| % 3 == 0
    decreases |lines|
  {
    if lines != [] {
      CoordsTriples(lines[..|lines| - 1], comment, parseFloat);
    }
  }

  /** With comment set, the two lines after the opener are passed over
   *  whatever they hold: the state after them is the state after the
   *  opener, with nothing left to skip. */
  lemma CommentSkipped(lines: seq<string>, k: nat, parseFloat: string -> real)
    requires k + 3 <= |lines|
    requires Scan(lines[..k], true, parseFloat).skip == 0 && Contains(lines[k], "geometry={")
    ensures Scan(lines[..k + 3], true, parseFloat) == Scan(lines[..k + 1], true, parseFloat).(skip := 0)
    ensures Scan(lines[..k + 1], true, parseFloat).ingeom
  {
    ScanPrefix(lines, k + 1, true, parseFloat);
    ScanPrefix(lines, k + 2, true, parseFloat);
    ScanPrefix(lines, k + 3, true, parseFloat);
  }
}
