/** The pure helpers of main.go: the procedure flag bits and their Do*
 *  tests, the mode switch at the end of ParseFlags, GetNames, the older
 *  ParseDeltas that reads the geometry, totalPoints and XYZGeom.
 *  strconv.ParseFloat is a parameter. */
module MainFile {
  import opened Text
  import opened Deltas

  // ---------------------------------------------------------------------
  // Flags

  /** The procedure bits, 1 << iota in order. */
  const Opt: bv64 := 1
  const Pts: bv64 := 2
  const Cart: bv64 := 4
  const Grad: bv64 := 8
  const Freqs: bv64 := 16

  /** The five bits. */
  predicate IsBit(b: bv64) {
    b == Opt || b == Pts || b == Cart || b == Grad || b == Freqs
  }

  /** flags&bit > 0: a single bit is either clear or a positive value. */
  predicate Has(flags: bv64, bit: bv64) {
    flags & bit != 0
  }

  predicate DoOpt(flags: bv64) { Has(flags, Opt) }
  predicate DoPts(flags: bv64) { Has(flags, Pts) }
  predicate DoFreqs(flags: bv64) { Has(flags, Freqs) }
  predicate DoCart(flags: bv64) { Has(flags, Cart) }
  predicate DoGrad(flags: bv64) { Has(flags, Grad) }

  /** Setting one bit turns its test on and leaves the other four alone. */
  lemma SetBit(flags: bv64, b: bv64, c: bv64)
    requires IsBit(b) && IsBit(c)
    ensures Has(flags | b, c) <==> Has(flags, c) || b == c
  {
  }

  /** Clearing one bit (&^) turns its test off and leaves the other four
   *  alone. */
  lemma ClearBit(flags: bv64, b: bv64, c: bv64)
    requires IsBit(b) && IsBit(c)
    ensures Has(flags & !b, c) <==> Has(flags, c) && b != c
  {
  }

  /** The mode switch: -freqs runs only the frequencies, -pts the points
   *  and the frequencies, and the default everything from the
   *  optimization on; neither cartesian nor gradient mode is set here. */
  function ParseFlags(freqs: bool, pts: bool): (flags: bv64)
    ensures DoFreqs(flags) && !DoCart(flags) && !DoGrad(flags)
    ensures DoPts(flags) <==> !freqs
    ensures DoOpt(flags) <==> !freqs && !pts
  {
    if freqs then Freqs
    else if pts then Pts | Freqs
    else Opt | Pts | Freqs
  }

  // ---------------------------------------------------------------------
  // Atom names

  /** A line as the loops of GetNames and XYZGeom see it: whether it is
   *  empty, and its fields. */
  datatype Row = Row(blank: bool, fields: seq<string>)

  function RowOf(line: string): Row {
    Row(line == "", Fields(line))
  }

  /** Each line as a row. */
  function Rows(lines: seq<string>): (r: seq<Row>)
    ensures |r| == |lines|
    ensures forall k :: 0 <= k < |lines| ==> r[k] == RowOf(lines[k])
  {
    seq(|lines|, k requires 0 <= k < |lines| => RowOf(lines[k]))
  }

  /** The name a row gives: its first field when it has exactly four. */
  function NameOf(row: Row): seq<string>
  {
    if |row.fields| == 4 then [row.fields[0]] else []
  }

  /** The first field of every row with exactly four fields, in order. */
  function Names(rows: seq<Row>): seq<string>
    decreases |rows|
  {
    if rows == [] then [] else Names(rows[..|rows| - 1]) + NameOf(rows[|rows| - 1])
  }

  lemma {:induction false} NamesAppend(a: seq<Row>, b: seq<Row>)
    ensures Names(a + b) == Names(a) + Names(b)
    decreases |b|
  {
    if b == [] {
      assert a + b == a;
    } else {
      var init, last := b[..|b| - 1], b[|b| - 1];
      NamesAppend(a, init);
      var ab := a + b;
      assert ab[..|ab| - 1] == a + init && ab[|ab| - 1] == last;
      assert Names(ab) == Names(a + init) + NameOf(last);
      Assoc(Names(a), Names(init), NameOf(last));
    }
  }

  /** Every name is the first field of some four-field line, and every
   *  four-field line gives a name. */
  lemma {:induction false} NamesFrom(rows: seq<Row>)
    ensures forall n :: n in Names(rows) ==> exists k :: 0 <= k < |rows| && |rows[k].fields| == 4 && rows[k].fields[0] == n
    ensures forall k :: 0 <= k < |rows| && |rows[k].fields| == 4 ==> rows[k].fields[0] in Names(rows)
    decreases |rows|
  {
    if rows != [] {
      var init := rows[..|rows| - 1];
      NamesFrom(init);
      assert forall k :: 0 <= k < |init| ==> init[k] == rows[k];
    }
  }

  /** GetNames: the names of a cartesian geometry, line by line. */
  method GetNames(cart: string) returns (names: seq<string>)
    ensures names == Names(Rows(Split(cart, "\n")))
  {
    var lines := Split(cart, "\n");
    ghost var rows := Rows(lines);
    names := [];
    var i := 0;
    while i < |lines|
      invariant i <= |lines| && names == Names(rows[..i])
    {
      var fields := Fields(lines[i]);
      assert rows[..i + 1][..i] == rows[..i] && rows[..i + 1][i] == rows[i];
      if |fields| == 4 {
        names := names + [fields[0]];
      }
      i := i + 1;
    }
    assert rows[..i] == rows;
  }

  // ---------------------------------------------------------------------
  // ParseDeltas over the geometry

  /** What ParseDeltas returns, or the panic of make with a negative
   *  length. err is "invalid deltas input". */
  datatype Returned = MakePanic | Returned(ncoords: int, out: seq<real>, err: bool)

  /** The number of coordinates: three per line after the two header
   *  lines for "xyz", otherwise one per line. */
  function CoordCount(geometry: string, geomType: string): int {
    var lines := Split(geometry, "\n");
    if geomType == "xyz" then 3 * (|lines| - 2) else |lines|
  }

  /** The loop over the parsed pairs from out: each sets its position,
   *  and the first that failed to parse or names a position past the end
   *  stops it with an error, keeping what was set before. */
  function Overwrite(out: seq<real>, opts: seq<Option<(Pos, real)>>): (r: (seq<real>, bool))
    ensures |r.0| == |out|
    decreases |opts|
  {
    if opts == [] then (out, true)
    else
      var prev := Overwrite(out, opts[..|opts| - 1]);
      if !prev.1 then prev
      else
        match opts[|opts| - 1]
        case None => (prev.0, false)
        case Some(p) => if p.0 > |prev.0| then (prev.0, false) else (prev.0[p.0 - 1 := p.1], true)
  }

  /** n copies of the default step. */
  function Filled(n: nat, delta: real): (r: seq<real>)
    ensures |r| == n && forall k :: 0 <= k < n ==> r[k] == delta
  {
    seq(n, _ => delta)
  }

  /** ParseDeltas as a value. */
  function MainDeltas(geometry: string, geomType: string, delta: real, inp: string,
                      parseFloat: string -> Option<real>): Returned
  {
    var n := CoordCount(geometry, geomType);
    if n < 0 then MakePanic
    else
      var out := Filled(n, delta);
      if inp == "" then Returned(n, out, false)
      else
        var r := Overwrite(out, Pairs(Split(inp, ","), parseFloat));
        Returned(n, r.0, !r.1)
  }

  /** ParseDeltas: the defaults in a fresh slice, then the pairs written
   *  over them in order. */
  method ParseDeltas(geometry: string, geomType: string, delta: real, inp: string,
                     parseFloat: string -> Option<real>) returns (r: Returned)
    ensures r == MainDeltas(geometry, geomType, delta, inp, parseFloat)
  {
    var geom := Split(geometry, "\n");
    var ncoords := if geomType == "xyz" then 3 * (|geom| - 2) else |geom|;
    if ncoords < 0 {
      return MakePanic;
    }
    var out := Defaults(ncoords, delta);
    if |inp| == 0 {
      return Returned(ncoords, out[..], false);
    }
    var pieces := Split(inp, ",");
    ghost var opts := Pairs(pieces, parseFloat);
    ghost var start := out[..];
    var j := 0;
    while j < |pieces|
      invariant j <= |pieces| && Overwrite(start, opts[..j]) == (out[..], true)
    {
      var p := ParsePair(pieces[j], parseFloat);
      PairsAt(pieces, parseFloat, j);
      var stop := WritePair(out, start, opts, j, p);
      if stop {
        return Returned(ncoords, out[..], true);
      }
      j := j + 1;
    }
    assert opts[..j] == opts;
    r := Returned(ncoords, out[..], false);
  }

  /** make([]float64, n) with every entry set to delta. */
  method Defaults(n: nat, delta: real) returns (out: array<real>)
    ensures fresh(out) && out[..] == Filled(n, delta)
  {
    out := new real[n];
    var i := 0;
    while i < n
      invariant i <= n && forall k :: 0 <= k < i ==> out[k] == delta
    {
      out[i] := delta;
      i := i + 1;
    }
  }

  /** One turn of the loop: pair j written, or the error that stops it. */
  method WritePair(out: array<real>, ghost start: seq<real>, ghost opts: seq<Option<(Pos, real)>>, j: nat,
                   p: Option<(Pos, real)>) returns (stop: bool)
    requires j < |opts| && opts[j] == p && Overwrite(start, opts[..j]) == (out[..], true)
    modifies out
    ensures stop ==> Overwrite(start, opts) == (out[..], false)
    ensures !stop ==> Overwrite(start, opts[..j + 1]) == (out[..], true)
  {
    if p.None? || p.value.0 > out.Length {
      Stopped(start, opts, j);
      return true;
    }
    ghost var prev := out[..];
    out[p.value.0 - 1] := p.value.1;
    Written(start, opts, j, prev, p.value.0, p.value.1);
    stop := false;
  }

  /** A pair that parses and fits is written. */
  lemma Written(out: seq<real>, opts: seq<Option<(Pos, real)>>, j: nat, prev: seq<real>, d: Pos, f: real)
    requires j < |opts| && Overwrite(out, opts[..j]) == (prev, true) && opts[j] == Some((d, f)) && d <= |prev|
    ensures Overwrite(out, opts[..j + 1]) == (prev[d - 1 := f], true)
  {
    OverwriteNext(out, opts, j);
  }

  /** A pair that fails to parse or does not fit stops the loop. */
  lemma Stopped(out: seq<real>, opts: seq<Option<(Pos, real)>>, j: nat)
    requires j < |opts| && Overwrite(out, opts[..j]).1
    requires opts[j].None? || opts[j].value.0 > |Overwrite(out, opts[..j]).0|
    ensures Overwrite(out, opts) == (Overwrite(out, opts[..j]).0, false)
  {
    OverwriteNext(out, opts, j);
    OverwriteStops(out, opts, j + 1);
  }

  /** One more pair. */
  lemma OverwriteNext(out: seq<real>, opts: seq<Option<(Pos, real)>>, j: nat)
    requires j < |opts|
    ensures Overwrite(out, opts[..j + 1]) ==
      var prev := Overwrite(out, opts[..j]);
      if !prev.1 then prev
      else
        match opts[j]
        case None => (prev.0, false)
        case Some(p) => if p.0 > |prev.0| then (prev.0, false) else (prev.0[p.0 - 1 := p.1], true)
  {
    assert opts[..j + 1][..j] == opts[..j];
  }

  /** Once stopped, the loop stays stopped with what it had. */
  lemma {:induction false} OverwriteStops(out: seq<real>, opts: seq<Option<(Pos, real)>>, j: nat)
    requires j <= |opts| && !Overwrite(out, opts[..j]).1
    ensures Overwrite(out, opts) == Overwrite(out, opts[..j])
    decreases |opts| - j
  {
    if j < |opts| {
      OverwriteNext(out, opts, j);
      OverwriteStops(out, opts, j + 1);
    } else {
      assert opts[..j] == opts;
    }
  }

  /** The loop succeeds exactly when every pair parses and names a
   *  position inside out; then each position holds the step of the last
   *  pair naming it, or what it held before. */
  lemma {:induction false} OverwriteAt(out: seq<real>, opts: seq<Option<(Pos, real)>>)
    ensures Overwrite(out, opts).1 <==> forall i :: 0 <= i < |opts| ==> opts[i].Some? && opts[i].value.0 <= |out|
    ensures Overwrite(out, opts).1 ==> (Parsed(opts).Some? && MaxPos(Parsed(opts).value) <= |out| &&
      forall k :: 0 <= k < |out| ==> Overwrite(out, opts).0[k] == LastFor(Parsed(opts).value, k + 1, out[k]))
    decreases |opts|
  {
    if opts != [] {
      var init := opts[..|opts| - 1];
      OverwriteAt(out, init);
      assert forall i :: 0 <= i < |init| ==> init[i] == opts[i];
      var prev := Overwrite(out, init);
      if prev.1 && opts[|opts| - 1].Some? {
        var ps := Parsed(init).value;
        var p := opts[|opts| - 1].value;
        assert Parsed(opts) == Some(ps + [p]);
        assert (ps + [p])[..|ps|] == ps;
      }
    }
  }

  /** The number of coordinates, and the make panic for an "xyz"
   *  geometry of a single line. */
  lemma MainCount(geometry: string, geomType: string, delta: real, inp: string,
                  parseFloat: string -> Option<real>)
    ensures var r := MainDeltas(geometry, geomType, delta, inp, parseFloat);
      var lines := Split(geometry, "\n");
      (r.MakePanic? <==> geomType == "xyz" && |lines| == 1) &&
      (r.Returned? ==> r.ncoords == (if geomType == "xyz" then 3 * (|lines| - 2) else |lines|) && |r.out| == r.ncoords)
  {
  }

  /** An empty input leaves every position at the default, without
   *  error. */
  lemma MainEmpty(geometry: string, geomType: string, delta: real, parseFloat: string -> Option<real>)
    requires MainDeltas(geometry, geomType, delta, "", parseFloat).Returned?
    ensures var r := MainDeltas(geometry, geomType, delta, "", parseFloat);
      !r.err && forall k :: 0 <= k < |r.out| ==> r.out[k] == delta
  {
  }

  /** A non-empty input is an error exactly when some pair is malformed,
   *  has d < 1 or a negative or unparsable f, or names a position past
   *  ncoords. */
  lemma MainErrIff(geometry: string, geomType: string, delta: real, inp: string,
                   parseFloat: string -> Option<real>)
    requires inp != "" && MainDeltas(geometry, geomType, delta, inp, parseFloat).Returned?
    ensures var r := MainDeltas(geometry, geomType, delta, inp, parseFloat);
      var pieces := Split(inp, ",");
      !r.err <==> forall i :: 0 <= i < |pieces| ==> Pair(pieces[i], parseFloat).Some? && Pair(pieces[i], parseFloat).value.0 <= r.ncoords
  {
    var pieces := Split(inp, ",");
    var n := CoordCount(geometry, geomType);
    OverwriteAt(Filled(n, delta), Pairs(pieces, parseFloat));
    forall i | 0 <= i < |pieces| {
      PairsAt(pieces, parseFloat, i);
    }
  }

  /** Without an error the result is what the configuration's
   *  ParseDeltas makes of the same text and ncoords: the two differ only
   *  in that this one rejects a position past ncoords where that one
   *  grows the list. */
  lemma MainAgrees(geometry: string, geomType: string, delta: real, inp: string,
                   parseFloat: string -> Option<real>)
    requires inp != ""
    requires var r := MainDeltas(geometry, geomType, delta, inp, parseFloat); r.Returned? && !r.err
    ensures var r := MainDeltas(geometry, geomType, delta, inp, parseFloat);
      FromPairs(inp, delta, r.ncoords, parseFloat) == Some(r.out)
  {
    var n := CoordCount(geometry, geomType);
    var start := Filled(n, delta);
    var opts := Pairs(Split(inp, ","), parseFloat);
    var out := Overwrite(start, opts).0;
    assert MainDeltas(geometry, geomType, delta, inp, parseFloat) == Returned(n, out, false);
    OverwriteAt(start, opts);
    var ps := Parsed(opts).value;
    var grown := Grow(PlaceAll(ps, delta), n, delta);
    assert FromPairs(inp, delta, n, parseFloat) == Some(grown);
    Deltas.Padded(ps, delta, n);
    assert grown == out by {
      forall k | 0 <= k < n
        ensures grown[k] == out[k]
      {
        assert start[k] == delta;
      }
    }
  }

  // ---------------------------------------------------------------------
  // totalPoints

  /** The numerator of totalPoints. */
  function Numerator(n: int): int {
    2 * n * (n * n * n + 2 * n * n + 8 * n + 1)
  }

  /** totalPoints: 2n(n³ + 2n² + 8n + 1)/3 with Go's truncating
   *  division. */
  function TotalPoints(n: int): int {
    Quo(Numerator(n), 3)
  }

  /** The division is exact for every n, negative ones included, so
   *  nothing is truncated. */
  lemma TotalPointsExact(n: int)
    ensures 3 * TotalPoints(n) == Numerator(n)
  {
    var q := n / 3;
    var k: int;
    if n % 3 == 0 {
      Residue0(q);
      k := 2 * q + 48 * q * q + 36 * q * q * q + 54 * q * q * q * q;
    } else if n % 3 == 1 {
      Residue1(q);
      k := 8 + 54 * q + 120 * q * q + 108 * q * q * q + 54 * q * q * q * q;
    } else {
      Residue2(q);
      k := 44 + 178 * q + 264 * q * q + 180 * q * q * q + 54 * q * q * q * q;
    }
    assert Numerator(n) == 3 * k;
    if Numerator(n) >= 0 {
      DivExact(Numerator(n), k);
    } else {
      DivExact(-Numerator(n), -k);
    }
  }

  /** The numerator at n = 3q, 3q + 1 and 3q + 2, as three times a
   *  polynomial in q. */
  lemma Residue0(q: int)
    ensures Numerator(3 * q) == 3 * (2 * q + 48 * q * q + 36 * q * q * q + 54 * q * q * q * q)
  {
  }

  lemma Residue1(q: int)
    ensures Numerator(3 * q + 1) == 3 * (8 + 54 * q + 120 * q * q + 108 * q * q * q + 54 * q * q * q * q)
  {
  }

  lemma Residue2(q: int)
    ensures Numerator(3 * q + 2) == 3 * (44 + 178 * q + 264 * q * q + 180 * q * q * q + 54 * q * q * q * q)
  {
  }

  lemma DivExact(a: int, k: int)
    requires a >= 0 && 3 * k == a
    ensures a / 3 == k
  {
  }

  // ---------------------------------------------------------------------
  // XYZGeom

  /** The state of XYZGeom's loop: the skip counter, the names and the
   *  coordinates so far. */
  datatype Atoms = Atoms(skip: int, names: seq<string>, coords: seq<real>)

  /** strconv.ParseFloat whose error is ignored: 0 on failure. */
  function Coord(s: string, parseFloat: string -> Option<real>): real {
    match parseFloat(s)
    case None => 0.0
    case Some(f) => f
  }

  /** The coordinates a row gives: its last three fields when it has
   *  exactly four. */
  function TripleOf(row: Row, parseFloat: string -> Option<real>): seq<real>
  {
    var fs := row.fields;
    if |fs| == 4 then [Coord(fs[1], parseFloat), Coord(fs[2], parseFloat), Coord(fs[3], parseFloat)] else []
  }

  /** Line i: empty lines do nothing; a pending skip is spent; a first
   *  line with a single field (the atom count) asks to skip the next
   *  non-empty line (the comment); a four-field line gives a name and
   *  three coordinates. */
  function AtomStep(st: Atoms, i: int, row: Row, parseFloat: string -> Option<real>): Atoms {
    if row.blank then st
    else if st.skip > 0 then st.(skip := st.skip - 1)
    else if i == 0 && |row.fields| == 1 then st.(skip := st.skip + 1)
    else st.(names := st.names + NameOf(row), coords := st.coords + TripleOf(row, parseFloat))
  }

  /** The loop over the rows. */
  function XYZ(rows: seq<Row>, parseFloat: string -> Option<real>): Atoms
    decreases |rows|
  {
    if rows == [] then Atoms(0, [], [])
    else AtomStep(XYZ(rows[..|rows| - 1], parseFloat), |rows| - 1, rows[|rows| - 1], parseFloat)
  }

  /** The coordinates of every four-field row, in order. */
  function CoordsOf(rows: seq<Row>, parseFloat: string -> Option<real>): seq<real>
    decreases |rows|
  {
    if rows == [] then [] else CoordsOf(rows[..|rows| - 1], parseFloat) + TripleOf(rows[|rows| - 1], parseFloat)
  }

  /** XYZGeom: the atom names and their coordinates. */
  method XYZGeom(geom: string, parseFloat: string -> Option<real>) returns (names: seq<string>, coords: seq<real>)
    ensures var r := XYZ(Rows(Split(geom, "\n")), parseFloat); names == r.names && coords == r.coords
  {
    var lines := Split(geom, "\n");
    ghost var rows := Rows(lines);
    var skip := 0;
    names, coords := [], [];
    var i := 0;
    while i < |lines|
      invariant i <= |lines| && XYZ(rows[..i], parseFloat) == Atoms(skip, names, coords)
    {
      assert rows[..i + 1][..i] == rows[..i] && rows[..i + 1][i] == rows[i];
      var line := lines[i];
      i := i + 1;
      if line == "" {
        continue;
      }
      if skip > 0 {
        skip := skip - 1;
        continue;
      }
      var fields := Fields(line);
      if i - 1 == 0 && |fields| == 1 {
        skip := skip + 1;
        continue;
      }
      if |fields| == 4 {
        names := names + [fields[0]];
        coords := coords + [Coord(fields[1], parseFloat), Coord(fields[2], parseFloat), Coord(fields[3], parseFloat)];
      }
    }
    assert rows[..i] == rows;
  }

  /** One more row. */
  lemma XYZNext(rows: seq<Row>, n: nat, parseFloat: string -> Option<real>)
    requires 0 < n <= |rows|
    ensures XYZ(rows[..n], parseFloat) == AtomStep(XYZ(rows[..n - 1], parseFloat), n - 1, rows[n - 1], parseFloat)
  {
    assert rows[..n][..n - 1] == rows[..n - 1] && rows[..n][n - 1] == rows[n - 1];
  }

  /** Past the first line with nothing to skip, a row adds its name and
   *  coordinates. */
  lemma StepAfter(st: Atoms, i: int, row: Row, parseFloat: string -> Option<real>)
    requires st.skip == 0 && i > 0 && (row.blank ==> row.fields == [])
    ensures AtomStep(st, i, row, parseFloat) == Atoms(0, st.names + NameOf(row), st.coords + TripleOf(row, parseFloat))
  {
    if row.blank {
      assert st.names + NameOf(row) == st.names;
      assert st.coords + TripleOf(row, parseFloat) == st.coords;
    }
  }

  /** An empty line has no fields. */
  predicate Honest(rows: seq<Row>) {
    forall k :: 0 <= k < |rows| ==> rows[k].blank ==> rows[k].fields == []
  }

  lemma RowsHonest(lines: seq<string>)
    ensures Honest(Rows(lines))
  {
    assert Fields("") == [];
  }

  /** Once nothing is left to skip past the first line, every later line
   *  adds its name and coordinates as GetNames would. */
  lemma {:induction false} Unskipped(rows: seq<Row>, m: nat, n: nat, parseFloat: string -> Option<real>)
    requires 1 <= m <= n <= |rows| && Honest(rows) && XYZ(rows[..m], parseFloat).skip == 0
    ensures var st := XYZ(rows[..m], parseFloat);
      XYZ(rows[..n], parseFloat) == Atoms(0, st.names + Names(rows[m..n]), st.coords + CoordsOf(rows[m..n], parseFloat))
    decreases n - m
  {
    var st := XYZ(rows[..m], parseFloat);
    if n == m {
      assert rows[m..n] == [];
      assert st.names + [] == st.names && st.coords + [] == st.coords;
    } else {
      var row := rows[n - 1];
      Unskipped(rows, m, n - 1, parseFloat);
      var prev := XYZ(rows[..n - 1], parseFloat);
      XYZNext(rows, n, parseFloat);
      assert row.blank ==> row.fields == [];
      StepAfter(prev, n - 1, row, parseFloat);
      var mid := rows[m..n - 1];
      SliceSnoc(rows, m, n, parseFloat);
      Assoc(st.names, Names(mid), NameOf(row));
      Assoc(st.coords, CoordsOf(mid, parseFloat), TripleOf(row, parseFloat));
    }
  }

  /** One more row of a slice. */
  lemma SliceSnoc(rows: seq<Row>, m: nat, n: nat, parseFloat: string -> Option<real>)
    requires m < n <= |rows|
    ensures Names(rows[m..n]) == Names(rows[m..n - 1]) + NameOf(rows[n - 1])
    ensures CoordsOf(rows[m..n], parseFloat) == CoordsOf(rows[m..n - 1], parseFloat) + TripleOf(rows[n - 1], parseFloat)
  {
    assert rows[m..n][..n - 1 - m] == rows[m..n - 1] && rows[m..n][n - 1 - m] == rows[n - 1];
  }

  /** Without a single-field first line XYZGeom reads the names GetNames
   *  reads, and three coordinates for each. */
  lemma XYZPlain(lines: seq<string>, parseFloat: string -> Option<real>)
    requires |lines| >= 1 && |Fields(lines[0])| != 1
    ensures XYZ(Rows(lines), parseFloat) == Atoms(0, Names(Rows(lines)), CoordsOf(Rows(lines), parseFloat))
  {
    RowsHonest(lines);
    PlainRows(Rows(lines), parseFloat);
  }

  lemma PlainRows(rows: seq<Row>, parseFloat: string -> Option<real>)
    requires |rows| >= 1 && |rows[0].fields| != 1 && Honest(rows)
    ensures XYZ(rows, parseFloat) == Atoms(0, Names(rows), CoordsOf(rows, parseFloat))
  {
    var first := rows[..1];
    FirstRow(rows, parseFloat);
    Unskipped(rows, 1, |rows|, parseFloat);
    NamesAppend(first, rows[1..]);
    CoordsAppend(first, rows[1..], parseFloat);
    assert first + rows[1..] == rows;
    assert rows[1..|rows|] == rows[1..] && rows[..|rows|] == rows;
  }

  /** A first row without a single field is read like any other. */
  lemma FirstRow(rows: seq<Row>, parseFloat: string -> Option<real>)
    requires |rows| >= 1 && |rows[0].fields| != 1 && (rows[0].blank ==> rows[0].fields == [])
    ensures XYZ(rows[..1], parseFloat) == Atoms(0, Names(rows[..1]), CoordsOf(rows[..1], parseFloat))
  {
    var first := rows[..1];
    assert first[..0] == [] && first[0] == rows[0];
    assert XYZ(first, parseFloat) == AtomStep(Atoms(0, [], []), 0, rows[0], parseFloat);
    assert Names(first) == [] + NameOf(rows[0]);
    assert CoordsOf(first, parseFloat) == [] + TripleOf(rows[0], parseFloat);
  }

  /** With a single-field first line (the atom count), the next
   *  non-empty line j (the comment) is skipped too, and the atoms are
   *  read from the lines after it. */
  lemma XYZTitled(lines: seq<string>, j: nat, parseFloat: string -> Option<real>)
    requires 0 < j < |lines| && |Fields(lines[0])| == 1 && lines[j] != ""
    requires forall k :: 0 < k < j ==> lines[k] == ""
    ensures var rest := Rows(lines)[j + 1..];
      XYZ(Rows(lines), parseFloat) == Atoms(0, Names(rest), CoordsOf(rest, parseFloat))
  {
    var rows := Rows(lines);
    RowsHonest(lines);
    assert forall k :: 0 < k < j ==> rows[k].blank;
    TitledRows(rows, j, parseFloat);
  }

  lemma TitledRows(rows: seq<Row>, j: nat, parseFloat: string -> Option<real>)
    requires 0 < j < |rows| && |rows[0].fields| == 1 && !rows[0].blank && !rows[j].blank && Honest(rows)
    requires forall k :: 0 < k < j ==> rows[k].blank
    ensures var rest := rows[j + 1..];
      XYZ(rows, parseFloat) == Atoms(0, Names(rest), CoordsOf(rest, parseFloat))
  {
    Pending(rows, j, parseFloat);
    XYZNext(rows, j + 1, parseFloat);
    assert XYZ(rows[..j + 1], parseFloat) == Atoms(0, [], []);
    Unskipped(rows, j + 1, |rows|, parseFloat);
    var rest := rows[j + 1..];
    assert rows[j + 1..|rows|] == rest && rows[..|rows|] == rows;
    assert [] + Names(rest) == Names(rest);
    assert [] + CoordsOf(rest, parseFloat) == CoordsOf(rest, parseFloat);
  }

  /** After the count line and any empty lines, one skip is pending. */
  lemma {:induction false} Pending(rows: seq<Row>, k: nat, parseFloat: string -> Option<real>)
    requires 0 < k <= |rows| && |rows[0].fields| == 1 && !rows[0].blank
    requires forall i :: 0 < i < k ==> rows[i].blank
    ensures XYZ(rows[..k], parseFloat) == Atoms(1, [], [])
    decreases k
  {
    XYZNext(rows, k, parseFloat);
    if k == 1 {
      assert rows[..0] == [];
    } else {
      Pending(rows, k - 1, parseFloat);
    }
  }

  /** Three coordinates per name. */
  lemma {:induction false} CoordsLength(rows: seq<Row>, parseFloat: string -> Option<real>)
    ensures |CoordsOf(rows, parseFloat)| == 3 * |Names(rows)|
    decreases |rows|
  {
    if rows != [] {
      var last := rows[|rows| - 1];
      CoordsLength(rows[..|rows| - 1], parseFloat);
      assert |TripleOf(last, parseFloat)| == 3 * |NameOf(last)|;
    }
  }

  lemma {:induction false} CoordsAppend(a: seq<Row>, b: seq<Row>, parseFloat: string -> Option<real>)
    ensures CoordsOf(a + b, parseFloat) == CoordsOf(a, parseFloat) + CoordsOf(b, parseFloat)
    decreases |b|
  {
    if b == [] {
      assert a + b == a;
    } else {
      var init, last := b[..|b| - 1], b[|b| - 1];
      CoordsAppend(a, init, parseFloat);
      var ab := a + b;
      assert ab[..|ab| - 1] == a + init && ab[|ab| - 1] == last;
      assert CoordsOf(ab, parseFloat) == CoordsOf(a + init, parseFloat) + TripleOf(last, parseFloat);
      Assoc(CoordsOf(a, parseFloat), CoordsOf(init, parseFloat), TripleOf(last, parseFloat));
    }
  }
}
