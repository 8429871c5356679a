/** program.go: BuildPoints, which reads the geometries of an intder
 *  file07, turns each one into a single-point calculation on the
 *  cenergies array and hands the calculations out a chunk at a time.
 *
 *  The file's lines are a parameter (ReadFile is not part of this model),
 *  and so is the program's FormatGeom; the input files WriteInput would
 *  write are returned as (name, geometry) pairs. Lines holding "#" are
 *  the file's headers and take no part; the others are grouped
 *  len(atomNames) at a time, line t of them labelled with atom name
 *  t % len(atomNames). */
module Points {
  import opened Text
  import opened Types
  import opened Derivatives
  import opened GradDerivatives
  import opened Chunks

  // ---------------------------------------------------------------------
  // Paths and names

  /** Index of the last '/' in s, or -1. */
  function LastSlash(s: string): (r: int)
    ensures -1 <= r < |s|
    ensures r >= 0 ==> s[r] == '/'
    ensures forall k :: r < k < |s| ==> s[k] != '/'
    decreases |s|
  {
    if s == [] then -1
    else if s[|s| - 1] == '/' then |s| - 1
    else LastSlash(s[..|s| - 1])
  }

  /** path.Dir for a path whose elements need no cleaning: everything
   *  before the last '/', "/" for a file in the root and "." for a bare
   *  name. */
  function DirOf(path: string): (r: string)
    ensures r != ""
    ensures LastSlash(path) > 0 ==> r + "/" + path[LastSlash(path) + 1..] == path
  {
    var k := LastSlash(path);
    if k < 0 then "." else if k == 0 then "/" else path[..k]
  }

  /** What a geometry is made into: where its files go, the molecule's
   *  name (the atom names joined), the atom names, whether inputs are
   *  written, and the program's FormatGeom. */
  datatype Env = Env(dir: string, name: string, names: seq<string>, write: bool, format: string -> string)

  /** The "%s/inp/%s.%05d" base name of geometry g. */
  function Basename(e: Env, g: nat): (r: string)
    ensures HasPrefix(r, e.dir + "/inp/" + e.name + ".")
  {
    e.dir + "/inp/" + e.name + "." + ZeroPad(g, 5)
  }

  /** Different geometries get different base names. */
  lemma BasenameInjective(e: Env, g: nat, h: nat)
    requires Basename(e, g) == Basename(e, h)
    ensures g == h
  {
    var p := e.dir + "/inp/" + e.name + ".";
    assert Basename(e, g)[|p|..] == ZeroPad(g, 5);
    assert Basename(e, h)[|p|..] == ZeroPad(h, 5);
    ParseZeroPad(g, 5);
    ParseZeroPad(h, 5);
  }

  /** An input file to write: its name and the geometry it holds. */
  datatype Input = Input(file: string, geometry: string)

  // ---------------------------------------------------------------------
  // One geometry

  /** The calc geometry g becomes, from the cenergies entry it had before
   *  the file was read: a loaded entry gives a calc that is not run and
   *  carries the stored value; any other one a calc named after the
   *  geometry, aimed at its slot with coefficient 1. */
  function CalcOf(ce0: seq<CountFloat>, g: nat, e: Env): (c: Calc)
    ensures c.scale == 1.0 && c.src.None?
    ensures c.noRun <==> Before(ce0, g).loaded
    ensures c.noRun ==> c.name == "" && c.targets == [] && c.result == Before(ce0, g).val
    ensures !c.noRun ==> c.name == Basename(e, g) && c.targets == [Target(1.0, CEnergies, g)] && c.result == 0.0
  {
    var b := Before(ce0, g);
    if b.loaded then Calc("", [], b.val, true, 1.0, None)
    else Calc(Basename(e, g), [Target(1.0, CEnergies, g)], 0.0, false, 1.0, None)
  }

  /** cenergies after geometry g is claimed: grown to hold it and, unless
   *  loaded, its count set to 1. */
  function Claim(ce: seq<CountFloat>, g: nat): seq<CountFloat> {
    var c := Grown(ce, g, Zero);
    if c[g].loaded then c else c[g := c[g].(count := 1)]
  }

  /** cenergies after geometries 0 .. q-1 are claimed. */
  function Claimed(ce0: seq<CountFloat>, q: nat): seq<CountFloat>
    decreases q
  {
    if q == 0 then ce0 else Claim(Claimed(ce0, q - 1), q - 1)
  }

  /** The calcs of geometries 0 .. q-1. */
  function CalcsTo(ce0: seq<CountFloat>, e: Env, q: nat): seq<Calc>
    decreases q
  {
    if q == 0 then [] else CalcsTo(ce0, e, q - 1) + [CalcOf(ce0, q - 1, e)]
  }

  /** The inputs written for geometries whose texts are texts: one per
   *  geometry whose slot was not loaded, when writing at all. */
  function Inputs(ce0: seq<CountFloat>, e: Env, texts: seq<string>): seq<Input>
    decreases |texts|
  {
    if texts == [] then []
    else
      var g := |texts| - 1;
      Inputs(ce0, e, texts[..g])
        + (if e.write && !Before(ce0, g).loaded then [Input(Basename(e, g) + ".inp", e.format(texts[g]))] else [])
  }

  // ---------------------------------------------------------------------
  // The loop over the lines, as a specification

  /** The loop's variables: the count i of lines taken, the geometry text
   *  buf, the next geometry number, and what has been produced. */
  datatype Scan = Scan(i: nat, buf: string, geom: nat, calcs: seq<Calc>, ce: seq<CountFloat>, inputs: seq<Input>)

  /** "%s %s\n" of the atom name line t is labelled with, and the line. */
  function Entry(names: seq<string>, t: nat, line: string): string
    requires names != []
  {
    names[t % |names|] + " " + line + "\n"
  }

  /** A geometry ends: its calc, the claim on cenergies and its input,
   *  with text buf; the buffer is reset. */
  function Emit(s: Scan, buf: string, e: Env): Scan {
    var ce := Grown(s.ce, s.geom, Zero);
    if !ce[s.geom].loaded then
      var base := Basename(e, s.geom);
      Scan(s.i, "", s.geom + 1,
        s.calcs + [Calc(base, [Target(1.0, CEnergies, s.geom)], 0.0, false, 1.0, None)],
        ce[s.geom := ce[s.geom].(count := 1)],
        if e.write then s.inputs + [Input(base + ".inp", e.format(buf))] else s.inputs)
    else
      Scan(s.i, "", s.geom + 1, s.calcs + [Calc("", [], ce[s.geom].val, true, 1.0, None)], ce, s.inputs)
  }

  /** One line, the file's last when last holds. A line with "#" changes
   *  nothing; i % len(atomNames) with no atom names is a division by
   *  zero (None). A geometry ends when line t starts a new group (t a
   *  positive multiple of len(atomNames)) or the line is the last; the
   *  last line goes into the geometry's text first. */
  function Step(s: Scan, line: string, last: bool, e: Env): Option<Scan> {
    if Contains(line, "#") then Some(s)
    else if e.names == [] then None
    else
      var entry := Entry(e.names, s.i, line);
      var s1 := if (s.i % |e.names| == 0 && s.i > 0) || last then Emit(s, if last then s.buf + entry else s.buf, e) else s;
      Some(s1.(buf := s1.buf + entry, i := s.i + 1))
  }

  /** The loop's variables after the first n lines. */
  function Scanned(lines: seq<string>, n: nat, ce0: seq<CountFloat>, e: Env): Option<Scan>
    requires n <= |lines|
    decreases n
  {
    if n == 0 then Some(Scan(0, "", 0, [], ce0, []))
    else
      var r := Scanned(lines, n - 1, ce0, e);
      if r.None? then None else Step(r.value, lines[n - 1], n == |lines|, e)
  }

  // ---------------------------------------------------------------------
  // What the loop computes

  /** The lines without "#" among the first n. */
  function Kept(lines: seq<string>, n: nat): (h: seq<string>)
    requires n <= |lines|
    ensures |h| <= n
    decreases n
  {
    if n == 0 then []
    else Kept(lines, n - 1) + (if Contains(lines[n - 1], "#") then [] else [lines[n - 1]])
  }

  /** The text of kept lines a .. b-1, each labelled with its atom name. */
  function Labelled(names: seq<string>, h: seq<string>, a: nat, b: nat): string
    requires names != [] && a <= b <= |h|
    decreases b - a
  {
    if a == b then "" else Labelled(names, h, a, b - 1) + Entry(names, b - 1, h[b - 1])
  }

  /** How many geometries have ended once t kept lines have been looked
   *  at, the last of them not being the file's last line: one for each
   *  positive multiple of l below t. */
  function Ended(t: nat, l: nat): (q: nat)
    requires l > 0
    ensures q * l <= t && (t > 0 ==> q * l < t)
  {
    if t == 0 then 0 else (t - 1) / l
  }

  /** The texts of the first q full groups of l = len(names) kept lines. */
  function Groups(names: seq<string>, h: seq<string>, q: nat): (r: seq<string>)
    requires names != [] && q * |names| <= |h|
    ensures |r| == q
    decreases q
  {
    if q == 0 then []
    else
      MulLess(q - 1, q, |names|);
      Groups(names, h, q - 1) + [Labelled(names, h, (q - 1) * |names|, q * |names|)]
  }

  lemma MulLess(a: nat, b: nat, l: nat)
    requires a <= b
    ensures a * l <= b * l
  {
  }

  /** The texts of the geometries of a whole file: the full groups that
   *  ended before the last line and, when the last line is a geometry
   *  line, the group it closes, however long that is. When the last line
   *  holds "#" the lines after the last full group belong to no
   *  geometry. */
  function FileTexts(lines: seq<string>, names: seq<string>): (r: seq<string>)
    requires names != []
  {
    var h := Kept(lines, |lines|);
    if lines != [] && !Contains(lines[|lines| - 1], "#") then
      KeptLast(lines);
      var q := Ended(|h| - 1, |names|);
      Groups(names, h, q) + [Labelled(names, h, q * |names|, |h|)]
    else
      Groups(names, h, Ended(|h|, |names|))
  }

  /** The last line, when it is kept, is the last kept line. */
  lemma KeptLast(lines: seq<string>)
    requires lines != [] && !Contains(lines[|lines| - 1], "#")
    ensures var h := Kept(lines, |lines|);
      h != [] && h[|h| - 1] == lines[|lines| - 1] && h[..|h| - 1] == Kept(lines, |lines| - 1)
  {
    var h0 := Kept(lines, |lines| - 1);
    assert Kept(lines, |lines|) == h0 + [lines[|lines| - 1]];
  }

  /** The loop's variables between lines, as the kept lines h determine
   *  them. */
  predicate Midway(s: Scan, h: seq<string>, ce0: seq<CountFloat>, e: Env)
    requires e.names != []
  {
    var l := |e.names|;
    s.i == |h| && s.geom == Ended(|h|, l) && s.buf == Labelled(e.names, h, s.geom * l, |h|)
    && s.calcs == CalcsTo(ce0, e, s.geom) && s.ce == Claimed(ce0, s.geom)
    && s.inputs == Inputs(ce0, e, Groups(e.names, h, s.geom))
  }

  /** Entry v of cenergies after geometries 0 .. q-1 are claimed: what it
   *  was before (zero if new), its count set to 1 when it was claimed and
   *  not loaded. */
  lemma {:induction false} ClaimedAt(ce0: seq<CountFloat>, q: nat)
    ensures |Claimed(ce0, q)| == if |ce0| < q then q else |ce0|
    ensures forall v :: 0 <= v < |Claimed(ce0, q)| ==>
      Claimed(ce0, q)[v] == if v < q && !Before(ce0, v).loaded then Before(ce0, v).(count := 1) else Before(ce0, v)
    decreases q
  {
    if q > 0 {
      ClaimedAt(ce0, q - 1);
    }
  }

  /** The calcs of geometries 0 .. q-1, one each, in order. */
  lemma {:induction false} CalcsToAt(ce0: seq<CountFloat>, e: Env, q: nat)
    ensures |CalcsTo(ce0, e, q)| == q
    ensures forall g :: 0 <= g < q ==> CalcsTo(ce0, e, q)[g] == CalcOf(ce0, g, e)
    decreases q
  {
    if q > 0 {
      CalcsToAt(ce0, e, q - 1);
    }
  }

  /** The slot geometry g claims has its value from before the file. */
  lemma ClaimedNext(ce0: seq<CountFloat>, g: nat)
    ensures Grown(Claimed(ce0, g), g, Zero)[g] == Before(ce0, g)
  {
    ClaimedAt(ce0, g);
  }

  /** Ending geometry g extends the calcs, the claims and the inputs by
   *  that geometry's. */
  lemma EmitNext(s: Scan, buf: string, ce0: seq<CountFloat>, e: Env)
    requires s.ce == Claimed(ce0, s.geom) && s.calcs == CalcsTo(ce0, e, s.geom)
    ensures var g := s.geom; var s' := Emit(s, buf, e);
      s'.i == s.i && s'.buf == "" && s'.geom == g + 1 && s'.calcs == CalcsTo(ce0, e, g + 1)
      && s'.ce == Claimed(ce0, g + 1)
      && s'.inputs == s.inputs + (if e.write && !Before(ce0, g).loaded then [Input(Basename(e, g) + ".inp", e.format(buf))] else [])
  {
    ClaimedNext(ce0, s.geom);
  }

  lemma InputsSnoc(ce0: seq<CountFloat>, e: Env, texts: seq<string>, x: string)
    ensures var g := |texts|;
      Inputs(ce0, e, texts + [x]) == Inputs(ce0, e, texts)
        + (if e.write && !Before(ce0, g).loaded then [Input(Basename(e, g) + ".inp", e.format(x))] else [])
  {
    assert (texts + [x])[..|texts|] == texts;
  }

  /** A text over lines already kept does not change as more are kept. */
  lemma {:induction false} TextLonger(names: seq<string>, h: seq<string>, x: string, a: nat, b: nat)
    requires names != [] && a <= b <= |h|
    ensures Labelled(names, h + [x], a, b) == Labelled(names, h, a, b)
    decreases b - a
  {
    if a < b {
      TextLonger(names, h, x, a, b - 1);
    }
  }

  lemma {:induction false} GroupsLonger(names: seq<string>, h: seq<string>, x: string, q: nat)
    requires names != [] && q * |names| <= |h|
    ensures Groups(names, h + [x], q) == Groups(names, h, q)
    decreases q
  {
    if q > 0 {
      MulLess(q - 1, q, |names|);
      GroupsLonger(names, h, x, q - 1);
      TextLonger(names, h, x, (q - 1) * |names|, q * |names|);
    }
  }

  /** Where a geometry line does not end a group, the count of ended
   *  groups stays; where it does, line t = m * l closes group m - 1. */
  lemma EndedNext(t: nat, l: nat)
    requires l > 0
    ensures !(t % l == 0 && t > 0) ==> Ended(t + 1, l) == Ended(t, l)
    ensures t % l == 0 && t > 0 ==> Ended(t + 1, l) == Ended(t, l) + 1 && Ended(t + 1, l) * l == t
  {
    if t == 0 {
      DivUnique(0, l, 0, 0);
    } else {
      var k, r := t / l, t % l;
      assert t == k * l + r;
      if r == 0 {
        DivUnique(t - 1, l, k - 1, l - 1);
      } else {
        DivUnique(t - 1, l, k, r - 1);
      }
    }
  }

  /** A geometry line that is not the file's last keeps the loop midway. */
  lemma MidwayStep(s: Scan, h: seq<string>, line: string, ce0: seq<CountFloat>, e: Env)
    requires e.names != [] && !Contains(line, "#") && Midway(s, h, ce0, e)
    ensures Step(s, line, false, e).Some? && Midway(Step(s, line, false, e).value, h + [line], ce0, e)
  {
    var l := |e.names|;
    var t := |h|;
    var h' := h + [line];
    var entry := Entry(e.names, t, line);
    EndedNext(t, l);
    TextLonger(e.names, h, line, s.geom * l, t);
    assert Labelled(e.names, h', s.geom * l, t + 1) == Labelled(e.names, h', s.geom * l, t) + entry;
    if t % l == 0 && t > 0 {
      EmitNext(s, s.buf, ce0, e);
      GroupsLonger(e.names, h, line, s.geom);
      TextLonger(e.names, h, line, s.geom * l, (s.geom + 1) * l);
      InputsSnoc(ce0, e, Groups(e.names, h, s.geom), s.buf);
      assert Groups(e.names, h', s.geom + 1) == Groups(e.names, h, s.geom) + [s.buf];
      assert Labelled(e.names, h', (s.geom + 1) * l, t + 1) == entry;
    } else {
      GroupsLonger(e.names, h, line, s.geom);
    }
  }

  /** The file's last line, a geometry line, closes the group it is in. */
  lemma LastStep(s: Scan, h: seq<string>, line: string, ce0: seq<CountFloat>, e: Env)
    requires e.names != [] && !Contains(line, "#") && Midway(s, h, ce0, e)
    requires s.geom * |e.names| <= |h|
    ensures var s' := Step(s, line, true, e); var h' := h + [line]; var q := s.geom;
      s'.Some? && s'.value.geom == q + 1 && s'.value.calcs == CalcsTo(ce0, e, q + 1)
      && s'.value.ce == Claimed(ce0, q + 1)
      && s'.value.inputs == Inputs(ce0, e, Groups(e.names, h', q) + [Labelled(e.names, h', q * |e.names|, |h'|)])
  {
    var l := |e.names|;
    var h' := h + [line];
    var text := s.buf + Entry(e.names, |h|, line);
    TextLonger(e.names, h, line, s.geom * l, |h|);
    assert Labelled(e.names, h', s.geom * l, |h'|) == text;
    EmitNext(s, text, ce0, e);
    GroupsLonger(e.names, h, line, s.geom);
    InputsSnoc(ce0, e, Groups(e.names, h, s.geom), text);
  }

  /** Before the last line, the loop is midway through the kept lines. */
  lemma {:induction false} ScannedMidway(lines: seq<string>, n: nat, ce0: seq<CountFloat>, e: Env)
    requires e.names != [] && n < |lines|
    ensures Scanned(lines, n, ce0, e).Some? && Midway(Scanned(lines, n, ce0, e).value, Kept(lines, n), ce0, e)
    decreases n
  {
    if n > 0 {
      ScannedMidway(lines, n - 1, ce0, e);
      var s := Scanned(lines, n - 1, ce0, e).value;
      var line := lines[n - 1];
      assert Scanned(lines, n, ce0, e) == Step(s, line, false, e);
      if !Contains(line, "#") {
        assert Kept(lines, n) == Kept(lines, n - 1) + [line];
        MidwayStep(s, Kept(lines, n - 1), line, ce0, e);
      } else {
        assert Kept(lines, n) == Kept(lines, n - 1);
      }
    }
  }

  /** BuildPoints' loop over a whole file: one calc per geometry of
   *  FileTexts, numbered from 0, the cenergies slots 0 .. q-1 claimed,
   *  and an input for each geometry whose slot was not loaded. */
  lemma Grouped(lines: seq<string>, ce0: seq<CountFloat>, e: Env)
    requires e.names != []
    ensures var r := Scanned(lines, |lines|, ce0, e); var texts := FileTexts(lines, e.names); var q := |texts|;
      r.Some? && r.value.geom == q && r.value.calcs == CalcsTo(ce0, e, q) && r.value.ce == Claimed(ce0, q)
      && r.value.inputs == Inputs(ce0, e, texts)
  {
    if lines == [] {
      assert FileTexts(lines, e.names) == Groups(e.names, [], 0) == [];
    } else {
      var n := |lines| - 1;
      ScannedMidway(lines, n, ce0, e);
      var s := Scanned(lines, n, ce0, e).value;
      var h := Kept(lines, n);
      var line := lines[n];
      assert Scanned(lines, |lines|, ce0, e) == Step(s, line, true, e);
      if !Contains(line, "#") {
        KeptLast(lines);
        assert Kept(lines, |lines|) == h + [line];
        LastStep(s, h, line, ce0, e);
      } else {
        assert Kept(lines, |lines|) == h;
      }
    }
  }

  /** A well-formed file07: at least two atoms, the last line a geometry
   *  line and m whole geometries. Each geometry is then exactly one group
   *  of len(atomNames) lines. */
  lemma WholeGroups(lines: seq<string>, names: seq<string>, m: nat)
    requires |names| >= 2 && lines != [] && !Contains(lines[|lines| - 1], "#")
    requires |Kept(lines, |lines|)| == m * |names|
    ensures m >= 1 && FileTexts(lines, names) == Groups(names, Kept(lines, |lines|), m)
  {
    var l := |names|;
    KeptLast(lines);
    MulCancel(0, m, l);
    assert (m - 1) * l == m * l - l;
    DivUnique(m * l - 2, l, m - 1, l - 2);
  }

  /** The loop stops with the division by zero exactly when there are no
   *  atom names and some line holds a geometry. */
  lemma {:induction false} ScannedStops(lines: seq<string>, n: nat, ce0: seq<CountFloat>, e: Env)
    requires n <= |lines| && e.names == []
    ensures Scanned(lines, n, ce0, e).None? <==> Kept(lines, n) != []
    decreases n
  {
    if n > 0 {
      ScannedStops(lines, n - 1, ce0, e);
    }
  }

  /** Once the division by zero has happened, the loop stays stopped. */
  lemma {:induction false} StaysStopped(lines: seq<string>, n: nat, m: nat, ce0: seq<CountFloat>, e: Env)
    requires n <= m <= |lines| && Scanned(lines, n, ce0, e).None?
    ensures Scanned(lines, m, ce0, e).None?
    decreases m - n
  {
    if n < m {
      StaysStopped(lines, n + 1, m, ce0, e);
    }
  }

  /** The end of one geometry, with text buf: its calc, its claim on
   *  cenergies and its input. */
  method Close(i: nat, buf: string, geom: nat, calcs: seq<Calc>, ce: seq<CountFloat>, inputs: seq<Input>, e: Env)
    returns (calcs': seq<Calc>, ce': seq<CountFloat>, inputs': seq<Input>)
    ensures Emit(Scan(i, buf, geom, calcs, ce, inputs), buf, e) == Scan(i, "", geom + 1, calcs', ce', inputs')
  {
    ce' := Grow(ce, geom, Zero);
    inputs' := inputs;
    if !ce'[geom].loaded {
      ce' := ce'[geom := ce'[geom].(count := 1)];
      var base := e.dir + "/inp/" + e.name + "." + ZeroPad(geom, 5);
      if e.write {
        inputs' := inputs + [Input(base + ".inp", e.format(buf))];
      }
      calcs' := calcs + [Calc(base, [Target(1.0, CEnergies, geom)], 0.0, false, 1.0, None)];
    } else {
      calcs' := calcs + [Calc("", [], ce'[geom].val, true, 1.0, None)];
    }
  }

  /** One line without "#", with atom names to label it: the geometry it
   *  ends, if any, and the line added to the text. */
  method Take(i: nat, buf: string, geom: nat, calcs: seq<Calc>, ce: seq<CountFloat>, inputs: seq<Input>,
              line: string, last: bool, e: Env)
    returns (i': nat, buf': string, geom': nat, calcs': seq<Calc>, ce': seq<CountFloat>, inputs': seq<Input>)
    requires e.names != [] && !Contains(line, "#")
    ensures Step(Scan(i, buf, geom, calcs, ce, inputs), line, last, e) == Some(Scan(i', buf', geom', calcs', ce', inputs'))
  {
    var ind := i % |e.names|;
    var entry := e.names[ind] + " " + line + "\n";
    buf', geom', calcs', ce', inputs' := buf, geom, calcs, ce, inputs;
    if (ind == 0 && i > 0) || last {
      if last {
        buf' := buf' + entry;
      }
      calcs', ce', inputs' := Close(i, buf', geom, calcs, ce, inputs, e);
      geom' := geom + 1;
      buf' := "";
    }
    buf' := buf' + entry;
    i' := i + 1;
  }

  /** The loop: the calcs, the cenergies array after it and the inputs
   *  written, or None for the division by zero. */
  method Group(lines: seq<string>, ce0: seq<CountFloat>, e: Env)
    returns (r: Option<(seq<Calc>, seq<CountFloat>, seq<Input>)>)
    ensures var s := Scanned(lines, |lines|, ce0, e);
      r.Some? <==> s.Some?
    ensures r.Some? ==> var s := Scanned(lines, |lines|, ce0, e).value;
      r.value.0 == s.calcs && r.value.1 == s.ce && r.value.2 == s.inputs
  {
    var i: nat, geom: nat := 0, 0;
    var buf := "";
    var calcs: seq<Calc> := [];
    var ce := ce0;
    var inputs: seq<Input> := [];
    var li := 0;
    while li < |lines|
      invariant li <= |lines|
      invariant Scanned(lines, li, ce0, e) == Some(Scan(i, buf, geom, calcs, ce, inputs))
    {
      if !Contains(lines[li], "#") {
        if e.names == [] {
          StaysStopped(lines, li + 1, |lines|, ce0, e);
          return None;
        }
        i, buf, geom, calcs, ce, inputs := Take(i, buf, geom, calcs, ce, inputs, lines[li], li == |lines| - 1, e);
      }
      li := li + 1;
    }
    r := Some((calcs, ce, inputs));
  }

  // ---------------------------------------------------------------------
  // The generator

  /** The end of the slice call c hands out, as the closure moves it:
   *  min(cs, len) at first, then cs further each call, capped at len. */
  function EndAt(n: nat, cs: int, c: nat): int
    decreases c
  {
    if c == 0 then (if cs > n then n else cs)
    else
      var prev := EndAt(n, cs, c - 1);
      if prev + cs > n then n else prev + cs
  }

  /** The end in closed form: c * cs + cs capped at len for a chunk size
   *  that is not negative; for a negative one it only falls. */
  lemma {:induction false} EndClosed(n: nat, cs: int, c: nat)
    ensures cs >= 0 ==> EndAt(n, cs, c) == Min(c * cs + cs, n)
    ensures cs < 0 ==> EndAt(n, cs, c) == c * cs + cs
    decreases c
  {
    if c > 0 {
      EndClosed(n, cs, c - 1);
      assert c * cs == (c - 1) * cs + cs;
    }
  }

  /** What call c returns: calcs[c * cs : end], or None for a slice out of
   *  range, which panics. */
  function ChunkAt(calcs: seq<Calc>, cs: int, c: nat): Option<seq<Calc>> {
    var start, end := c * cs, EndAt(|calcs|, cs, c);
    if 0 <= start <= end <= |calcs| then Some(calcs[start..end]) else None
  }

  /** Whether call c asks to be called again: its slice does not reach
   *  the last calc. */
  predicate MoreAt(calcs: seq<Calc>, cs: int, c: nat) {
    EndAt(|calcs|, cs, c) != |calcs|
  }

  /** The chunks: consecutive slices of at most cs calcs, full whenever
   *  another call is asked for; a call is answered while its start is
   *  within the calcs, and a negative chunk size panics at once. */
  lemma ChunkShape(calcs: seq<Calc>, cs: int, c: nat)
    ensures cs < 0 ==> ChunkAt(calcs, cs, c).None?
    ensures cs >= 0 ==> (ChunkAt(calcs, cs, c).Some? <==> c * cs <= |calcs|)
    ensures ChunkAt(calcs, cs, c).Some? ==>
      ChunkAt(calcs, cs, c).value == calcs[c * cs..Min(c * cs + cs, |calcs|)]
      && |ChunkAt(calcs, cs, c).value| <= cs
      && (MoreAt(calcs, cs, c) ==> |ChunkAt(calcs, cs, c).value| == cs)
  {
    EndClosed(|calcs|, cs, c);
    if cs >= 0 {
      MulMono(0, c, cs);
    } else {
      MulMono(0, c, -cs);
      assert c * cs == -(c * -cs);
    }
  }

  /** The slices of calls 0 .. c-1 joined. */
  function Handed(calcs: seq<Calc>, cs: int, c: nat): seq<Calc>
    decreases c
  {
    if c == 0 then []
    else
      var r := ChunkAt(calcs, cs, c - 1);
      Handed(calcs, cs, c - 1) + (if r.Some? then r.value else [])
  }

  /** The chunks joined are the calcs up to the next start: resuming
   *  hands out each calc once, in order. */
  lemma {:induction false} HandedPrefix(calcs: seq<Calc>, cs: int, c: nat)
    requires cs >= 0
    ensures Handed(calcs, cs, c) == calcs[..Min(c * cs, |calcs|)]
    decreases c
  {
    if c > 0 {
      HandedPrefix(calcs, cs, c - 1);
      ChunkShape(calcs, cs, c - 1);
      assert c * cs == (c - 1) * cs + cs;
      if (c - 1) * cs <= |calcs| {
        var a, b := (c - 1) * cs, Min(c * cs, |calcs|);
        assert calcs[..b] == calcs[..a] + calcs[a..b];
      }
    }
  }

  /** The call that says not to call again is the one whose slice ends
   *  at the last calc; after it every calc has been handed out. */
  lemma LastChunk(calcs: seq<Calc>, cs: int, c: nat)
    requires cs > 0
    ensures !MoreAt(calcs, cs, c) <==> c * cs + cs >= |calcs|
    ensures !MoreAt(calcs, cs, c) && c * cs <= |calcs| ==> Handed(calcs, cs, c + 1) == calcs
  {
    EndClosed(|calcs|, cs, c);
    HandedPrefix(calcs, cs, c + 1);
    assert (c + 1) * cs == c * cs + cs;
  }

  /** The closure BuildPoints returns, with the variables it captures:
   *  the calcs, the chunk size, the directory the chunks are pushed
   *  with, and start, pf, count and end. */
  class PointsGen {
    const calcs: seq<Calc>
    const cs: int
    const dir: string
    var start: int
    var pf: int
    var count: int
    var end: int

    ghost predicate Valid()
      reads this
    {
      count >= 0 && pf == count && start == count * cs && end == EndAt(|calcs|, cs, count)
    }

    constructor (calcs: seq<Calc>, cs: int, dir: string)
      ensures Valid() && count == 0
      ensures this.calcs == calcs && this.cs == cs && this.dir == dir
    {
      this.calcs, this.cs, this.dir := calcs, cs, dir;
      start, pf, count := 0, 0, 0;
      end := if 0 + cs > |calcs| then |calcs| else cs;
    }

    /** One call: the slice calcs[start:end] (None for the panic of a
     *  slice out of range), the pf it is pushed with, and whether to call
     *  again; the deferred function then moves pf, count, start and end
     *  on. */
    method Next() returns (chunk: Option<seq<Calc>>, chunkPf: int, more: bool)
      requires Valid()
      modifies this
      ensures Valid() && count == old(count) + 1
      ensures chunk == ChunkAt(calcs, cs, old(count)) && chunkPf == old(count)
      ensures more <==> MoreAt(calcs, cs, old(count))
    {
      more := end != |calcs|;
      if 0 <= start <= end <= |calcs| {
        chunk := Some(calcs[start..end]);
      } else {
        chunk := None;
      }
      chunkPf := pf;
      assert (count + 1) * cs == count * cs + cs;
      pf, count, start := pf + 1, count + 1, start + cs;
      end := if end + cs > |calcs| then |calcs| else end + cs;
    }
  }

  /** filepath.Join(dir, "inp") for a directory path.Dir returned. */
  function InpDir(dir: string): (r: string)
    ensures HasSuffix(r, "inp")
  {
    if dir == "." then "inp" else if dir == "/" then "/inp" else dir + "/inp"
  }

  /** BuildPoints: the loop over the file's lines, then the generator over
   *  its calcs. None is the division by zero; the cenergies array and the
   *  inputs written are returned beside the generator. */
  method BuildPoints(lines: seq<string>, filename: string, atomNames: seq<string>, write: bool,
                     format: string -> string, cs: int, ce0: seq<CountFloat>)
    returns (gen: Option<PointsGen>, ce: seq<CountFloat>, inputs: seq<Input>)
    ensures var e := Env(DirOf(filename), Join(atomNames, ""), atomNames, write, format);
      gen.Some? <==> Scanned(lines, |lines|, ce0, e).Some?
    ensures gen.Some? ==>
      var r := Scanned(lines, |lines|, ce0, Env(DirOf(filename), Join(atomNames, ""), atomNames, write, format)).value;
      fresh(gen.value) && gen.value.Valid() && gen.value.count == 0 && gen.value.calcs == r.calcs
      && gen.value.cs == cs && gen.value.dir == InpDir(DirOf(filename)) && ce == r.ce && inputs == r.inputs
  {
    var dir := DirOf(filename);
    var e := Env(dir, Join(atomNames, ""), atomNames, write, format);
    var r := Group(lines, ce0, e);
    if r.None? {
      return None, ce0, [];
    }
    var calcs;
    calcs, ce, inputs := r.value.0, r.value.1, r.value.2;
    var g := new PointsGen(calcs, cs, InpDir(dir));
    gen := Some(g);
  }
}
