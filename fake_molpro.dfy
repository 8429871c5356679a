/** qsub/molpro.go: the fake Molpro executable used by the queue tests.
 *  It merges built-in tables of results into one map, rebuilds a lookup
 *  key from the `geometry={ … }` block of an input file, and writes a
 *  fake output holding the stored energy and gradient.
 *
 *  Files are parameters: the input file is its lines as Go's scanner
 *  yields them (None when it cannot be opened), and whether base+".out"
 *  can be created is a flag. Floats are reals printed by the `%20.12f` and
 *  `%20.15f` formatting functions given as parameters. */
module FakeMolpro {
  import opened Text
  import opened GeomBlock

  datatype Calc = Calc(energy: real, gradient: seq<real>)

  /** How the process ends: normally (0), through os.Exit, or by a panic. */
  datatype Status = Exited(code: int) | Panicked(msg: string)

  /** The file written, as (path, contents), and how the process ends. */
  datatype Outcome = Outcome(written: Option<(string, string)>, status: Status)

  // ---------------------------------------------------------------------
  // init: the tables merged into one map (qsub/molpro.go:24-31)

  /** Each table copied over the previous ones, in order. */
  function Merged(tables: seq<map<string, Calc>>): map<string, Calc>
    decreases |tables|
  {
    if tables == [] then map[]
    else Merged(tables[..|tables| - 1]) + tables[|tables| - 1]
  }

  /** The part of m whose keys are in ks. */
  function Restrict(m: map<string, Calc>, ks: set<string>): (r: map<string, Calc>)
    requires ks <= m.Keys
    ensures r.Keys == ks && forall k :: k in ks ==> r[k] == m[k]
  {
    map k | k in ks :: m[k]
  }

  /** init: for each table in turn, every entry is stored. */
  method Init(tables: seq<map<string, Calc>>) returns (geoms: map<string, Calc>)
    ensures geoms == Merged(tables)
  {
    geoms := map[];
    var t := 0;
    while t < |tables|
      invariant 0 <= t <= |tables|
      invariant geoms == Merged(tables[..t])
    {
      geoms := CopyAll(geoms, tables[t]);
      assert tables[..t + 1][..t] == tables[..t];
      t := t + 1;
    }
    assert tables[..t] == tables;
  }

  /** The inner loop of init: `geoms[k] = v` for every entry of m, in
   *  whatever order the map is ranged over. */
  method CopyAll(geoms: map<string, Calc>, m: map<string, Calc>) returns (r: map<string, Calc>)
    ensures r == geoms + m
  {
    r := geoms;
    var rest := m.Keys;
    while rest != {}
      invariant rest <= m.Keys
      invariant r == geoms + Restrict(m, m.Keys - rest)
      decreases |rest|
    {
      var k :| k in rest;
      CopyOne(geoms, m, rest, k);
      r := r[k := m[k]];
      rest := rest - {k};
    }
    CopyDone(geoms, m, rest);
  }

  lemma CopyOne(geoms: map<string, Calc>, m: map<string, Calc>, rest: set<string>, k: string)
    requires rest <= m.Keys && k in rest
    ensures (geoms + Restrict(m, m.Keys - rest))[k := m[k]] == geoms + Restrict(m, m.Keys - (rest - {k}))
  {
    assert m.Keys - (rest - {k}) == (m.Keys - rest) + {k};
  }

  lemma CopyDone(geoms: map<string, Calc>, m: map<string, Calc>, rest: set<string>)
    requires rest == {}
    ensures geoms + Restrict(m, m.Keys - rest) == geoms + m
  {
    assert Restrict(m, m.Keys - rest) == m;
  }

  /** The last table holding k, or -1. */
  function LastHolder(tables: seq<map<string, Calc>>, k: string): (r: int)
    ensures -1 <= r < |tables|
    ensures r >= 0 ==> k in tables[r]
    ensures forall t :: r < t < |tables| ==> k !in tables[t]
    decreases |tables|
  {
    if tables == [] then -1
    else if k in tables[|tables| - 1] then |tables| - 1
    else LastHolder(tables[..|tables| - 1], k)
  }

  /** A key is in the merged map iff some table holds it, and the value is
   *  the one from the last table that holds it. */
  lemma {:induction false} MergedLookup(tables: seq<map<string, Calc>>, k: string)
    ensures k in Merged(tables) <==> LastHolder(tables, k) >= 0
    ensures k in Merged(tables) ==> Merged(tables)[k] == tables[LastHolder(tables, k)][k]
    decreases |tables|
  {
    if tables != [] {
      MergedLookup(tables[..|tables| - 1], k);
    }
  }

  /** A later table wins over an earlier one: qsub/molpro.go lists grad
   *  last so that its entries, which carry gradients, take precedence. */
  lemma LaterWins(tables: seq<map<string, Calc>>, k: string, t: nat)
    requires t < |tables| && k in tables[t]
    requires forall u :: t < u < |tables| ==> k !in tables[u]
    ensures k in Merged(tables) && Merged(tables)[k] == tables[t][k]
  {
    MergedLookup(tables, k);
  }

  // ---------------------------------------------------------------------
  // The lookup key (qsub/molpro.go:47-63)

  /** What the switch writes for one line, given whether the block was
   *  open before it. */
  function KeyPiece(open: bool, line: string): string {
    if Opens(line) then ""
    else if Contains(line, "}") && open then ""
    else if open && |Fields(line)| == 4 then Join(Fields(line), " ") + "\n"
    else ""
  }

  /** The key after the first n lines. */
  function Key(ls: seq<string>, n: nat): string
    requires n <= |ls|
  {
    if n == 0 then "" else Key(ls, n - 1) + KeyPiece(OpenAt(ls, n - 1), ls[n - 1])
  }

  /** The scanner loop with its `geom` flag and string builder. */
  method ScanKey(lines: seq<string>) returns (key: string)
    ensures key == Key(lines, |lines|)
  {
    var geom := false;
    key := "";
    var i := 0;
    while i < |lines|
      invariant 0 <= i <= |lines|
      invariant geom == OpenAt(lines, i) && key == Key(lines, i)
    {
      var line := lines[i];
      var fields := Fields(line);
      KeyStep(lines, i);
      if Contains(line, "geometry={") {
        geom := true;
      } else if Contains(line, "}") && geom {
        geom := false;
      } else if geom && |fields| == 4 {
        key := key + (Join(fields, " ") + "\n");
      }
      i := i + 1;
    }
  }

  lemma KeyStep(ls: seq<string>, i: nat)
    requires i < |ls|
    ensures Key(ls, i + 1) == Key(ls, i) + KeyPiece(OpenAt(ls, i), ls[i])
    ensures OpenAt(ls, i + 1) == After(OpenAt(ls, i), ls[i])
  {
  }

  /** The single-spaced 4-field body lines among the first n lines. */
  function KeyLines(ls: seq<string>, n: nat): seq<string>
    requires n <= |ls|
  {
    Pick(n, KeyKeep(ls), KeyOf(ls))
  }

  /** The body lines the key keeps, and what it rebuilds of them. */
  function KeyKeep(ls: seq<string>): nat -> bool {
    (k: nat) => k < |ls| && InBody(ls, k) && |Fields(ls[k])| == 4
  }

  function KeyOf(ls: seq<string>): nat -> string {
    (k: nat) => if k < |ls| then Join(Fields(ls[k]), " ") else ""
  }

  /** Reference definition of the key: each geometry-body line (Body, see
   *  OpenAtIff) with exactly four fields, re-joined with single spaces,
   *  one per line. Openers, closers and lines with other field counts add
   *  nothing. */
  lemma KeySpec(ls: seq<string>, n: nat)
    requires n <= |ls|
    ensures Key(ls, n) == Lines(KeyLines(ls, n))
  {
    var i := 0;
    while i < n
      invariant i <= n
      invariant KeyIsLines(ls, i)
    {
      KeySpecStep(ls, i);
      i := i + 1;
    }
  }

  predicate KeyIsLines(ls: seq<string>, i: nat)
    requires i <= |ls|
  {
    Key(ls, i) == Lines(KeyLines(ls, i))
  }

  lemma KeySpecStep(ls: seq<string>, i: nat)
    requires i < |ls| && KeyIsLines(ls, i)
    ensures KeyIsLines(ls, i + 1)
  {
    KeyStep(ls, i);
    KeyLinesStep(ls, i + 1);
  }

  lemma KeyLinesStep(ls: seq<string>, n: nat)
    requires 0 < n <= |ls|
    ensures Lines(KeyLines(ls, n)) == Lines(KeyLines(ls, n - 1)) + KeyPiece(OpenAt(ls, n - 1), ls[n - 1])
  {
    PieceIs(ls, n - 1);
    LinesPickPiece(n, KeyKeep(ls), KeyOf(ls), KeyPiece(OpenAt(ls, n - 1), ls[n - 1]));
  }

  /** LinesPickStep with the last line's piece named. */
  lemma LinesPickPiece(n: nat, keep: nat -> bool, f: nat -> string, piece: string)
    requires n > 0 && piece == if keep(n - 1) then f(n - 1) + "\n" else ""
    ensures Lines(Pick(n, keep, f)) == Lines(Pick(n - 1, keep, f)) + piece
  {
    LinesPickStep(n, keep, f);
  }

  /** One line's piece, as the reference definition selects it. */
  lemma PieceIs(ls: seq<string>, k: nat)
    requires k < |ls|
    ensures KeyPiece(OpenAt(ls, k), ls[k]) == if KeyKeep(ls)(k) then KeyOf(ls)(k) + "\n" else ""
  {
  }

  /** Spacing does not matter: two lines with the same fields contribute
   *  the same piece. */
  lemma PieceIgnoresSpacing(open: bool, a: string, b: string)
    requires Fields(a) == Fields(b) && !Opens(a) && !Opens(b)
    requires Contains(a, "}") == Contains(b, "}")
    ensures KeyPiece(open, a) == KeyPiece(open, b)
  {
  }

  /** Looking the key up: a missing key exits with status 5. */
  function Lookup(geoms: map<string, Calc>, key: string): (r: Result<Calc, int>)
    ensures r.Ok? <==> key in geoms
    ensures r.Ok? ==> r.value == geoms[key]
    ensures r.Err? ==> r.error == 5
  {
    if key in geoms then Ok(geoms[key]) else Err(5)
  }

  // ---------------------------------------------------------------------
  // The output file (qsub/molpro.go:40-41, 68-79)

  /** filepath.Ext: from the last "." of the final path element, or "". */
  function ExtFrom(path: string, i: int): (r: string)
    requires -1 <= i < |path|
    ensures r == "" || (HasSuffix(path, r) && r[0] == '.')
    decreases i + 1
  {
    if i < 0 || path[i] == '/' then ""
    else if path[i] == '.' then path[i..]
    else ExtFrom(path, i - 1)
  }

  function Ext(path: string): (r: string)
    ensures r == "" || (HasSuffix(path, r) && r[0] == '.')
  {
    ExtFrom(path, |path| - 1)
  }

  /** The output path: the input path with its extension replaced. */
  function OutPath(path: string): string {
    path[..|path| - |Ext(path)|] + ".out"
  }

  lemma {:induction false} ExtFromSuffix(s: string, ext: string, i: int)
    requires |s| <= i < |s| + |ext| && ext != [] && ext[0] == '.'
    requires forall k :: 0 < k < |ext| ==> ext[k] != '.' && ext[k] != '/'
    ensures ExtFrom(s + ext, i) == ext
    decreases i
  {
    if i > |s| {
      assert (s + ext)[i] == ext[i - |s|];
      ExtFromSuffix(s, ext, i - 1);
    } else {
      assert (s + ext)[i..] == ext;
    }
  }

  /** An input named base+".inp" writes base+".out". */
  lemma OutPathInp(base: string)
    ensures Ext(base + ".inp") == ".inp"
    ensures OutPath(base + ".inp") == base + ".out"
  {
    ExtFromSuffix(base, ".inp", |base| + 3);
    assert (base + ".inp")[..|base|] == base;
  }

  /** A path whose final element has no "." keeps its whole name. */
  lemma {:induction false} NoDotNoExt(path: string, i: int)
    requires -1 <= i < |path|
    requires forall k :: 0 <= k <= i ==> path[k] != '.'
    ensures ExtFrom(path, i) == ""
    decreases i + 1
  {
    if i >= 0 && path[i] != '/' {
      NoDotNoExt(path, i - 1);
    }
  }

  /** Offset of the i-th third of a gradient of length gl (Go's i*gl/3). */
  function Cut(gl: nat, i: nat): (c: nat)
    requires i <= 3
    ensures c <= gl
  {
    CutBound(gl, i);
    i * gl / 3
  }

  lemma CutBound(gl: nat, i: nat)
    requires i <= 3
    ensures 0 <= i * gl / 3 <= gl
  {
  }

  lemma CutMono(gl: nat, i: nat)
    requires i < 3
    ensures Cut(gl, i) <= Cut(gl, i + 1)
  {
    assert i * gl <= (i + 1) * gl;
  }

  /** Gradient[i*gl/3 : (i+1)*gl/3]. */
  function Third(g: seq<real>, i: nat): seq<real>
    requires i < 3
  {
    CutMono(|g|, i);
    g[Cut(|g|, i)..Cut(|g|, i + 1)]
  }

  /** The three printed slices are consecutive and together the whole
   *  gradient, and their lengths differ by at most one. */
  lemma ThirdsPartition(g: seq<real>)
    ensures Third(g, 0) + Third(g, 1) + Third(g, 2) == g
    ensures forall i :: 0 <= i < 3 ==> |g| / 3 <= |Third(g, i)| <= |g| / 3 + 1
  {
    var gl := |g|;
    assert Cut(gl, 0) == 0 && Cut(gl, 3) == gl;
    CutMono(gl, 0);
    CutMono(gl, 1);
    CutMono(gl, 2);
    assert g[Cut(gl, 0)..Cut(gl, 1)] + g[Cut(gl, 1)..Cut(gl, 2)] + g[Cut(gl, 2)..Cut(gl, 3)] == g;
  }

  function Label(i: nat): string
    requires i < 3
  {
    ["X", "Y", "Z"][i]
  }

  /** The values of one slice, each printed with `%20.15f`. */
  function Values(part: seq<real>, fmt15: real -> string): string
    decreases |part|
  {
    if part == [] then "" else Values(part[..|part| - 1], fmt15) + fmt15(part[|part| - 1])
  }

  /** "GRAD<label>(1:<gl>)   = [ ". */
  function GradHead(name: string, gl: nat): string {
    "GRAD" + name + "(1:" + NatToString(gl) + ")   = [ "
  }

  function GradLine(g: seq<real>, i: nat, fmt15: real -> string): string
    requires i < 3
  {
    GradHead(Label(i), |g|) + Values(Third(g, i), fmt15) + "] AU\n"
  }

  function GradLines(g: seq<real>, n: nat, fmt15: real -> string): string
    requires n <= 3
  {
    if n == 0 then "" else GradLines(g, n - 1, fmt15) + GradLine(g, n - 1, fmt15)
  }

  /** Everything written to the output file for a found entry. */
  function Report(c: Calc, fmt12: real -> string, fmt15: real -> string): string {
    "dummy output\nenergy= " + fmt12(c.energy) + "\n" + GradLines(c.gradient, 3, fmt15)
  }

  /** The printing loops. */
  method WriteReport(c: Calc, fmt12: real -> string, fmt15: real -> string) returns (out: string)
    ensures out == Report(c, fmt12, fmt15)
  {
    out := "dummy output\nenergy= " + fmt12(c.energy) + "\n";
    ghost var head := out;
    var gl := |c.gradient|;
    var labels := ["X", "Y", "Z"];
    var i := 0;
    while i < 3
      invariant 0 <= i <= 3
      invariant out == head + GradLines(c.gradient, i, fmt15)
    {
      ThirdIs(c.gradient, i);
      var line := c.gradient[i * gl / 3..(i + 1) * gl / 3];
      LabelAt(labels, i);
      var start := out + GradHead(labels[i], gl);
      out := PrintValues(start, line, fmt15);
      out := out + "] AU\n";
      GradStep(head, c.gradient, i, line, fmt15);
      i := i + 1;
    }
  }

  lemma LabelAt(labels: seq<string>, i: nat)
    requires labels == ["X", "Y", "Z"] && i < 3
    ensures labels[i] == Label(i)
  {
  }

  /** The inner loop: each value of the slice printed after out. */
  method PrintValues(out: string, line: seq<real>, fmt15: real -> string) returns (r: string)
    ensures r == out + Values(line, fmt15)
  {
    r := out;
    var j := 0;
    while j < |line|
      invariant 0 <= j <= |line|
      invariant r == out + Values(line[..j], fmt15)
    {
      assert line[..j + 1][..j] == line[..j];
      r := r + fmt15(line[j]);
      j := j + 1;
    }
    assert line[..j] == line;
  }

  lemma GradStep(head: string, g: seq<real>, i: nat, line: seq<real>, fmt15: real -> string)
    requires i < 3 && line == Third(g, i)
    ensures head + GradLines(g, i, fmt15) + GradHead(Label(i), |g|) + Values(line, fmt15) + "] AU\n"
      == head + GradLines(g, i + 1, fmt15)
  {
    var a, b, c := GradHead(Label(i), |g|), Values(line, fmt15), "] AU\n";
    var x := GradLines(g, i, fmt15);
    assert GradLines(g, i + 1, fmt15) == x + (a + b + c);
    Assoc(head + x, a, b);
    Assoc(head + x, a + b, c);
    Assoc(head, x, a + b + c);
  }

  lemma ThirdIs(g: seq<real>, i: nat)
    requires i < 3
    ensures 0 <= i * |g| / 3 <= (i + 1) * |g| / 3 <= |g|
    ensures g[i * |g| / 3..(i + 1) * |g| / 3] == Third(g, i)
  {
    CutMono(|g|, i);
  }

  // ---------------------------------------------------------------------
  // Molpro(filename) (qsub/molpro.go:33-80)

  /** The whole run on one input file. */
  method Molpro(geoms: map<string, Calc>, filename: string, input: Option<seq<string>>, creatable: bool,
                fmt12: real -> string, fmt15: real -> string) returns (o: Outcome)
    ensures o == Run(geoms, filename, input, creatable, fmt12, fmt15)
  {
    if input.None? {
      return Outcome(None, Exited(3));
    }
    var base := filename[..|filename| - |Ext(filename)|];
    if !creatable {
      return Outcome(None, Exited(4));
    }
    var key := ScanKey(input.value);
    if key !in geoms {
      return Outcome(Some((base + ".out", "")), Exited(5));
    }
    var text := WriteReport(geoms[key], fmt12, fmt15);
    return Outcome(Some((base + ".out", text)), Exited(0));
  }

  /** What a run does, stated on the lookup result. */
  function Run(geoms: map<string, Calc>, filename: string, input: Option<seq<string>>, creatable: bool,
               fmt12: real -> string, fmt15: real -> string): Outcome
  {
    if input.None? then Outcome(None, Exited(3))
    else if !creatable then Outcome(None, Exited(4))
    else
      match Lookup(geoms, Key(input.value, |input.value|))
      case Err(code) => Outcome(Some((OutPath(filename), "")), Exited(code))
      case Ok(c) => Outcome(Some((OutPath(filename), Report(c, fmt12, fmt15))), Exited(0))
  }

  /** The exit status tells the cases apart: 3 for an unreadable input,
   *  4 for an output that cannot be created, 5 for an unknown geometry and
   *  0 with the stored entry's report otherwise. */
  lemma RunStatus(geoms: map<string, Calc>, filename: string, input: Option<seq<string>>, creatable: bool,
                  fmt12: real -> string, fmt15: real -> string)
    ensures var o := Run(geoms, filename, input, creatable, fmt12, fmt15);
      && (o.status == Exited(3) <==> input.None?)
      && (o.status == Exited(4) <==> input.Some? && !creatable)
      && (o.status == Exited(5) <==> input.Some? && creatable && Key(input.value, |input.value|) !in geoms)
      && (o.status == Exited(0) <==> input.Some? && creatable && Key(input.value, |input.value|) in geoms)
      && (o.status == Exited(0) ==>
            o.written == Some((OutPath(filename), Report(geoms[Key(input.value, |input.value|)], fmt12, fmt15))))
  {
  }
}
