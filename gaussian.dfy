/** gaussian.go: the Gaussian input template (LoadGaussian, makeInput,
 *  FormatZmat, FormatCart, UpdateZmat, SetDir, GetDir) and the
 *  classification of an output file (ReadOut). The template and the
 *  output file are given as their scanner lines; the charge-and-spin
 *  regular expression, the removal of "opt"/"freq" from the route line,
 *  the configured energy-line expression and strconv.ParseFloat are
 *  parameters. */
module GaussianFile {
  import opened Text
  import opened Utils
  import Zmat
  import MolproFile

  // ---------------------------------------------------------------------
  // LoadGaussian

  /** The fields LoadGaussian fills, its buffer, and whether it is
   *  skipping the geometry. */
  datatype Parts = Parts(head: string, opt: string, body: string, buf: string, geom: bool)

  const NoParts := Parts("", "", "", "", false)

  /** One scanner line. A route line (holding "#") moves the buffer to
   *  Head and becomes Opt without its procedure; a charge-and-spin line
   *  ends Body and starts the geometry, which is skipped up to an empty
   *  line; any other line goes into the buffer. */
  function LoadStep(p: Parts, line: string, chargeSpin: string -> bool, stripProc: string -> string): Parts {
    if Contains(line, "#") then p.(head := p.buf, buf := "", opt := stripProc(line) + "\n")
    else if chargeSpin(line) then p.(body := p.buf + line + "\n", buf := "", geom := true)
    else if p.geom && line == "" then p.(geom := false)
    else if p.geom then p
    else p.(buf := p.buf + line + "\n")
  }

  function Template(lines: seq<string>, chargeSpin: string -> bool, stripProc: string -> string): Parts
    decreases |lines|
  {
    if lines == [] then NoParts
    else LoadStep(Template(lines[..|lines| - 1], chargeSpin, stripProc), lines[|lines| - 1], chargeSpin, stripProc)
  }

  /** A line that is neither a route line nor a charge-and-spin line. */
  predicate Plain(line: string, chargeSpin: string -> bool) {
    !Contains(line, "#") && !chargeSpin(line)
  }

  predicate PlainBetween(ls: seq<string>, i: nat, j: nat, chargeSpin: string -> bool)
    requires i <= j <= |ls|
  {
    forall k :: i <= k < j ==> Plain(ls[k], chargeSpin)
  }

  /** The lines from i up to j are geometry lines: plain and not empty. */
  predicate SkippedBetween(ls: seq<string>, i: nat, j: nat, chargeSpin: string -> bool)
    requires i <= j <= |ls|
  {
    forall k :: i <= k < j ==> Plain(ls[k], chargeSpin) && ls[k] != ""
  }

  lemma TemplateAt(ls: seq<string>, j: nat, chargeSpin: string -> bool, stripProc: string -> string)
    requires 0 < j <= |ls|
    ensures Template(ls[..j], chargeSpin, stripProc) == LoadStep(Template(ls[..j - 1], chargeSpin, stripProc), ls[j - 1], chargeSpin, stripProc)
  {
    assert ls[..j][..j - 1] == ls[..j - 1];
  }

  lemma StepPlain(p: Parts, line: string, chargeSpin: string -> bool, stripProc: string -> string)
    requires !p.geom && Plain(line, chargeSpin)
    ensures LoadStep(p, line, chargeSpin, stripProc) == p.(buf := p.buf + line + "\n")
  {
  }

  lemma StepSkipped(p: Parts, line: string, chargeSpin: string -> bool, stripProc: string -> string)
    requires p.geom && Plain(line, chargeSpin) && line != ""
    ensures LoadStep(p, line, chargeSpin, stripProc) == p
  {
  }

  /** Outside the geometry, plain lines only add themselves to the buffer. */
  lemma {:induction false} TemplatePlain(ls: seq<string>, i: nat, j: nat, chargeSpin: string -> bool, stripProc: string -> string)
    requires i <= j <= |ls| && PlainBetween(ls, i, j, chargeSpin) && !Template(ls[..i], chargeSpin, stripProc).geom
    ensures var p := Template(ls[..i], chargeSpin, stripProc);
      Template(ls[..j], chargeSpin, stripProc) == p.(buf := p.buf + Lines(ls[i..j]))
    decreases j
  {
    if j == i {
      assert ls[i..j] == [];
    } else {
      assert PlainBetween(ls, i, j - 1, chargeSpin) && Plain(ls[j - 1], chargeSpin);
      TemplatePlain(ls, i, j - 1, chargeSpin, stripProc);
      var p := Template(ls[..i], chargeSpin, stripProc);
      var q := Template(ls[..j - 1], chargeSpin, stripProc);
      TemplatePlainLine(ls, j - 1, q, chargeSpin, stripProc);
      LinesSlice(ls, i, j - 1);
      BufParts(p, q, Template(ls[..j], chargeSpin, stripProc), Lines(ls[i..j - 1]), ls[j - 1], Lines(ls[i..j]));
    }
  }

  lemma TemplatePlainLine(ls: seq<string>, j: nat, q: Parts, chargeSpin: string -> bool, stripProc: string -> string)
    requires j < |ls| && Template(ls[..j], chargeSpin, stripProc) == q && !q.geom && Plain(ls[j], chargeSpin)
    ensures Template(ls[..j + 1], chargeSpin, stripProc) == q.(buf := q.buf + ls[j] + "\n")
  {
    TemplateAt(ls, j + 1, chargeSpin, stripProc);
    StepPlain(q, ls[j], chargeSpin, stripProc);
  }

  lemma BufParts(p: Parts, q: Parts, r: Parts, l: string, x: string, all: string)
    requires q == p.(buf := p.buf + l) && r == q.(buf := q.buf + x + "\n") && all == l + x + "\n"
    ensures r == p.(buf := p.buf + all)
  {
    Assoc(p.buf, l + x, "\n");
    Assoc(p.buf, l, x);
  }

  /** Inside the geometry, geometry lines change nothing. */
  lemma {:induction false} TemplateSkipped(ls: seq<string>, i: nat, j: nat, chargeSpin: string -> bool, stripProc: string -> string)
    requires i <= j <= |ls| && SkippedBetween(ls, i, j, chargeSpin) && Template(ls[..i], chargeSpin, stripProc).geom
    ensures Template(ls[..j], chargeSpin, stripProc) == Template(ls[..i], chargeSpin, stripProc)
    decreases j
  {
    if j > i {
      assert SkippedBetween(ls, i, j - 1, chargeSpin);
      TemplateSkipped(ls, i, j - 1, chargeSpin, stripProc);
      TemplateSkipLine(ls, j - 1, Template(ls[..i], chargeSpin, stripProc), chargeSpin, stripProc);
    }
  }

  lemma TemplateSkipLine(ls: seq<string>, j: nat, q: Parts, chargeSpin: string -> bool, stripProc: string -> string)
    requires j < |ls| && Template(ls[..j], chargeSpin, stripProc) == q && q.geom && Plain(ls[j], chargeSpin) && ls[j] != ""
    ensures Template(ls[..j + 1], chargeSpin, stripProc) == q
  {
    TemplateAt(ls, j + 1, chargeSpin, stripProc);
    StepSkipped(q, ls[j], chargeSpin, stripProc);
  }

  /** The usual template: plain lines, the route line at h, plain lines,
   *  the charge-and-spin line at c, the geometry lines, the empty line at
   *  e that ends them, plain lines. */
  predicate Layout(ls: seq<string>, h: nat, c: nat, e: nat, chargeSpin: string -> bool) {
    h < c < e < |ls| && Contains(ls[h], "#") && chargeSpin(ls[c]) && !Contains(ls[c], "#") && ls[e] == ""
    && forall k :: 0 <= k < |ls| && k != h && k != c ==> Plain(ls[k], chargeSpin) && (c < k < e ==> ls[k] != "")
  }

  /** Through the route line: Head is the lines before it. */
  lemma TemplateRoute(ls: seq<string>, h: nat, chargeSpin: string -> bool, stripProc: string -> string)
    requires h < |ls| && Contains(ls[h], "#") && PlainBetween(ls, 0, h, chargeSpin)
    ensures Template(ls[..h + 1], chargeSpin, stripProc) == Parts(Lines(ls[..h]), stripProc(ls[h]) + "\n", "", "", false)
  {
    assert ls[..0] == [] && ls[0..h] == ls[..h];
    TemplatePlain(ls, 0, h, chargeSpin, stripProc);
    TemplateAt(ls, h + 1, chargeSpin, stripProc);
    assert ls[..h + 1][..h] == ls[..h];
  }

  /** Through the charge-and-spin line: Body is the lines after the route
   *  line up to and with it. */
  lemma TemplateBody(ls: seq<string>, h: nat, c: nat, p: Parts, chargeSpin: string -> bool, stripProc: string -> string)
    requires h < c < |ls| && Template(ls[..h + 1], chargeSpin, stripProc) == p && p.buf == "" && !p.geom
    requires PlainBetween(ls, h + 1, c, chargeSpin) && chargeSpin(ls[c]) && !Contains(ls[c], "#")
    ensures Template(ls[..c + 1], chargeSpin, stripProc) == p.(body := Lines(ls[h + 1..c + 1]), geom := true)
  {
    TemplatePlain(ls, h + 1, c, chargeSpin, stripProc);
    var q := Template(ls[..c], chargeSpin, stripProc);
    TemplateCharge(ls, c, q, chargeSpin, stripProc);
    LinesSlice(ls, h + 1, c);
    BodyParts(p, q, Template(ls[..c + 1], chargeSpin, stripProc), Lines(ls[h + 1..c]), ls[c], Lines(ls[h + 1..c + 1]));
  }

  lemma BodyParts(p: Parts, q: Parts, r: Parts, l: string, line: string, body: string)
    requires p.buf == "" && q == p.(buf := p.buf + l) && r == q.(body := q.buf + line + "\n", buf := "", geom := true)
    requires body == l + line + "\n"
    ensures r == p.(body := body, geom := true)
  {
  }

  lemma TemplateCharge(ls: seq<string>, c: nat, q: Parts, chargeSpin: string -> bool, stripProc: string -> string)
    requires c < |ls| && Template(ls[..c], chargeSpin, stripProc) == q && !Contains(ls[c], "#") && chargeSpin(ls[c])
    ensures Template(ls[..c + 1], chargeSpin, stripProc) == q.(body := q.buf + ls[c] + "\n", buf := "", geom := true)
  {
    TemplateAt(ls, c + 1, chargeSpin, stripProc);
    StepCharge(q, ls[c], chargeSpin, stripProc);
  }

  lemma StepCharge(p: Parts, line: string, chargeSpin: string -> bool, stripProc: string -> string)
    requires !Contains(line, "#") && chargeSpin(line)
    ensures LoadStep(p, line, chargeSpin, stripProc) == p.(body := p.buf + line + "\n", buf := "", geom := true)
  {
  }

  lemma LinesSlice(ls: seq<string>, i: nat, j: nat)
    requires i <= j < |ls|
    ensures Lines(ls[i..j + 1]) == Lines(ls[i..j]) + ls[j] + "\n"
  {
    assert ls[i..j + 1][..j - i] == ls[i..j];
  }

  /** Through the empty line that ends the geometry: nothing changes but
   *  the geometry flag. */
  lemma TemplateGeometry(ls: seq<string>, c: nat, e: nat, p: Parts, chargeSpin: string -> bool, stripProc: string -> string)
    requires c < e < |ls| && Template(ls[..c + 1], chargeSpin, stripProc) == p && p.geom
    requires SkippedBetween(ls, c + 1, e, chargeSpin) && ls[e] == "" && Plain(ls[e], chargeSpin)
    ensures Template(ls[..e + 1], chargeSpin, stripProc) == p.(geom := false)
  {
    TemplateSkipped(ls, c + 1, e, chargeSpin, stripProc);
    TemplateEmpty(ls, e, p, chargeSpin, stripProc);
  }

  lemma TemplateEmpty(ls: seq<string>, e: nat, p: Parts, chargeSpin: string -> bool, stripProc: string -> string)
    requires e < |ls| && Template(ls[..e], chargeSpin, stripProc) == p && p.geom
    requires ls[e] == "" && Plain(ls[e], chargeSpin)
    ensures Template(ls[..e + 1], chargeSpin, stripProc) == p.(geom := false)
  {
    TemplateAt(ls, e + 1, chargeSpin, stripProc);
    StepEmpty(p, ls[e], chargeSpin, stripProc);
  }

  lemma StepEmpty(p: Parts, line: string, chargeSpin: string -> bool, stripProc: string -> string)
    requires p.geom && Plain(line, chargeSpin) && line == ""
    ensures LoadStep(p, line, chargeSpin, stripProc) == p.(geom := false)
  {
  }

  lemma LayoutParts(ls: seq<string>, h: nat, c: nat, e: nat, chargeSpin: string -> bool)
    requires Layout(ls, h, c, e, chargeSpin)
    ensures PlainBetween(ls, 0, h, chargeSpin) && PlainBetween(ls, h + 1, c, chargeSpin)
      && SkippedBetween(ls, c + 1, e, chargeSpin) && PlainBetween(ls, e + 1, |ls|, chargeSpin)
      && Plain(ls[e], chargeSpin)
  {
  }

  /** Head is the lines before the route line, Opt the route line without
   *  its procedure, Body the lines after it through the charge-and-spin
   *  line, and the buffer (Tail) the lines after the empty line that
   *  ends the geometry, each line newline-terminated; the geometry lines
   *  are dropped. */
  lemma LoadLayout(ls: seq<string>, h: nat, c: nat, e: nat, chargeSpin: string -> bool, stripProc: string -> string)
    requires Layout(ls, h, c, e, chargeSpin)
    ensures Template(ls, chargeSpin, stripProc)
      == Parts(Lines(ls[..h]), stripProc(ls[h]) + "\n", Lines(ls[h + 1..c + 1]), Lines(ls[e + 1..]), false)
  {
    LayoutParts(ls, h, c, e, chargeSpin);
    TemplateThroughGeometry(ls, h, c, e, chargeSpin, stripProc);
    LoadParts(ls, e, Lines(ls[..h]), stripProc(ls[h]) + "\n", Lines(ls[h + 1..c + 1]), Template(ls[..e + 1], chargeSpin, stripProc),
              chargeSpin, stripProc);
  }

  /** A template that is plain after the geometry: its lines become the
   *  buffer. */
  lemma LoadParts(ls: seq<string>, e: nat, head: string, opt: string, body: string, p: Parts, chargeSpin: string -> bool, stripProc: string -> string)
    requires e < |ls| && PlainBetween(ls, e + 1, |ls|, chargeSpin)
    requires Template(ls[..e + 1], chargeSpin, stripProc) == p && p == Parts(head, opt, body, "", false)
    ensures Template(ls, chargeSpin, stripProc) == Parts(head, opt, body, Lines(ls[e + 1..]), false)
  {
    TemplateExtra(ls, e + 1, p, chargeSpin, stripProc);
  }

  lemma TemplateThroughGeometry(ls: seq<string>, h: nat, c: nat, e: nat, chargeSpin: string -> bool, stripProc: string -> string)
    requires h < c < e < |ls| && Contains(ls[h], "#") && chargeSpin(ls[c]) && !Contains(ls[c], "#")
    requires ls[e] == "" && Plain(ls[e], chargeSpin)
    requires PlainBetween(ls, 0, h, chargeSpin) && PlainBetween(ls, h + 1, c, chargeSpin)
    requires SkippedBetween(ls, c + 1, e, chargeSpin)
    ensures Template(ls[..e + 1], chargeSpin, stripProc)
      == Parts(Lines(ls[..h]), stripProc(ls[h]) + "\n", Lines(ls[h + 1..c + 1]), "", false)
  {
    var p := Parts(Lines(ls[..h]), stripProc(ls[h]) + "\n", "", "", false);
    TemplateRoute(ls, h, chargeSpin, stripProc);
    TemplateBody(ls, h, c, p, chargeSpin, stripProc);
    TemplateGeometry(ls, c, e, p.(body := Lines(ls[h + 1..c + 1]), geom := true), chargeSpin, stripProc);
  }

  /** Plain lines to the end become the buffer. */
  lemma TemplateExtra(ls: seq<string>, i: nat, p: Parts, chargeSpin: string -> bool, stripProc: string -> string)
    requires i <= |ls| && Template(ls[..i], chargeSpin, stripProc) == p && p.buf == "" && !p.geom
    requires PlainBetween(ls, i, |ls|, chargeSpin)
    ensures Template(ls, chargeSpin, stripProc) == p.(buf := Lines(ls[i..]))
  {
    TemplatePlain(ls, i, |ls|, chargeSpin, stripProc);
    assert ls[..|ls|] == ls && ls[i..|ls|] == ls[i..];
  }

  // ---------------------------------------------------------------------
  // makeInput

  /** The text makeInput writes: Head, the trimmed route line and a space,
   *  the procedure, Body, the trimmed geometry, an empty line, Tail. */
  function Input(head: string, opt: string, body: string, geom: string, tail: string, p: MolproFile.Procedure): string {
    head + TrimSpace(opt) + " "
    + (if p.Opt? then "opt \n" else if p.Freq? then "freq" else "")
    + body + TrimSpace(geom) + "\n\n" + tail
  }

  /** Writing a loaded template without a procedure gives the template
   *  back with the route line trimmed and stripped of its procedure, and
   *  the geometry lines replaced by the new geometry. */
  lemma WriteLayout(ls: seq<string>, h: nat, c: nat, e: nat, geom: string, chargeSpin: string -> bool, stripProc: string -> string)
    requires Layout(ls, h, c, e, chargeSpin)
    ensures var t := Template(ls, chargeSpin, stripProc);
      Input(t.head, t.opt, t.body, geom, t.buf, MolproFile.NoProc)
      == Lines(ls[..h]) + TrimSpace(stripProc(ls[h]) + "\n") + " " + Lines(ls[h + 1..c + 1]) + TrimSpace(geom) + "\n" + Lines(ls[e..])
  {
    LoadLayout(ls, h, c, e, chargeSpin, stripProc);
    WriteParts(Lines(ls[..h]), Lines(ls[h + 1..c + 1]), stripProc(ls[h]) + "\n", geom, ls, e, Template(ls, chargeSpin, stripProc));
  }

  lemma WriteParts(head: string, body: string, opt: string, geom: string, ls: seq<string>, e: nat, t: Parts)
    requires e < |ls| && ls[e] == "" && t == Parts(head, opt, body, Lines(ls[e + 1..]), false)
    ensures Input(t.head, t.opt, t.body, geom, t.buf, MolproFile.NoProc)
      == head + TrimSpace(opt) + " " + body + TrimSpace(geom) + "\n" + Lines(ls[e..])
  {
    assert ls[e..] == [""] + ls[e + 1..];
    WriteRest(head, body, opt, geom, ls[e + 1..], t);
  }

  lemma WriteRest(head: string, body: string, opt: string, geom: string, rest: seq<string>, t: Parts)
    requires t == Parts(head, opt, body, Lines(rest), false)
    ensures Input(t.head, t.opt, t.body, geom, t.buf, MolproFile.NoProc)
      == head + TrimSpace(opt) + " " + body + TrimSpace(geom) + "\n" + Lines([""] + rest)
  {
    var l := Lines(rest);
    assert Lines([""] + rest) == "\n" + l by {
      LinesAppend([""], rest);
      assert [""][..0] == [];
    }
    var x := head + TrimSpace(opt) + " ";
    var q := x + body + TrimSpace(geom);
    assert x + "" == x;
    assert Input(t.head, t.opt, t.body, geom, t.buf, MolproFile.NoProc) == q + "\n\n" + l;
    assert "\n\n" == "\n" + "\n";
    Assoc(q, "\n", "\n");
    Assoc(q + "\n", "\n", l);
  }

  // ---------------------------------------------------------------------
  // ReadOut

  /** How a line stops ReadOut's loop, given whether it is the first:
   *  "PANIC" on the first line is the requested panic, "ERROR" there or an
   *  error line anywhere returns ErrFileContainsError, and a short
   *  "REAL TIME" or gradient line panics. */
  function HaltKind(line: string, first: bool, energyLine: string -> bool): MolproFile.Halt {
    if first && Contains(ToUpper(line), "PANIC") then MolproFile.Panicked
    else if first && Contains(ToUpper(line), "ERROR") then MolproFile.Errored
    else if MolproFile.ErrorLine(line) then MolproFile.Errored
    else if Contains(line, "=") && MolproFile.EnergyRead(line, energyLine) then MolproFile.Going
    else if Contains(line, "REAL TIME") then (if |Fields(line)| < 2 then MolproFile.Panicked else MolproFile.Going)
    else if Contains(line, "GRADX") || Contains(line, "GRADY") || Contains(line, "GRADZ") then
      (if |Fields(line)| < 5 then MolproFile.Panicked else MolproFile.Going)
    else MolproFile.Going
  }

  /** The switch on one line of a running loop. */
  function Step(st: MolproFile.Scan, line: string, first: bool, energyLine: string -> bool, terminated: string, parseFloat: string -> Option<real>): MolproFile.Scan {
    if st.halt != MolproFile.Going then st
    else if first && Contains(ToUpper(line), "PANIC") then st.(halt := MolproFile.Panicked)
    else if first && Contains(ToUpper(line), "ERROR") then st.(err := MolproFile.FileContainsError, halt := MolproFile.Errored)
    else if MolproFile.ErrorLine(line) then st.(err := MolproFile.FileContainsError, halt := MolproFile.Errored)
    else Body(st, line, energyLine, terminated, parseFloat)
  }

  /** The cases of the switch after the error cases: the energy, then the
   *  rest. */
  function Body(st: MolproFile.Scan, line: string, energyLine: string -> bool, terminated: string, parseFloat: string -> Option<real>): MolproFile.Scan {
    if Contains(line, "=") && MolproFile.EnergyRead(line, energyLine) then
      var fields := Fields(line);
      var e := MolproFile.EnergyFields(fields, |fields|, (st.result, st.err), parseFloat);
      st.(result := e.0, err := e.1)
    else Rest(st, line, terminated, parseFloat)
  }

  /** The time, gradient and termination cases of the switch; the last
   *  is reached only when no other case matches. */
  function Rest(st: MolproFile.Scan, line: string, terminated: string, parseFloat: string -> Option<real>): MolproFile.Scan {
    if Contains(line, "REAL TIME") then
      var fields := Fields(line);
      if |fields| < 2 then st.(halt := MolproFile.Panicked) else st.(time := MolproFile.OrZero(parseFloat(fields[|fields| - 2])))
    else if Contains(line, "GRADX") then
      match MolproFile.ProcessGrad(line) case None => st.(halt := MolproFile.Panicked) case Some(c) => st.(gradx := Some(c))
    else if Contains(line, "GRADY") then
      match MolproFile.ProcessGrad(line) case None => st.(halt := MolproFile.Panicked) case Some(c) => st.(grady := Some(c))
    else if Contains(line, "GRADZ") then
      match MolproFile.ProcessGrad(line) case None => st.(halt := MolproFile.Panicked) case Some(c) => st.(gradz := Some(c))
    else if Contains(line, terminated) && st.err != MolproFile.Found then st.(err := MolproFile.FinishedButNoEnergy)
    else st
  }

  function ScanLines(lines: seq<string>, energyLine: string -> bool, terminated: string, parseFloat: string -> Option<real>): MolproFile.Scan
    decreases |lines|
  {
    if lines == [] then MolproFile.Start
    else Step(ScanLines(lines[..|lines| - 1], energyLine, terminated, parseFloat), lines[|lines| - 1], |lines| == 1,
              energyLine, terminated, parseFloat)
  }

  /** The end of ReadOut after its loop; Err is a panic. */
  function Finished(st: MolproFile.Scan, parseFloat: string -> Option<real>): Result<MolproFile.Out, string> {
    if st.halt == MolproFile.Panicked then Err("panic") else MolproFile.Finish(st, parseFloat)
  }

  /** ReadOut over the output file's lines, None when it cannot be read. */
  function Classify(file: Option<seq<string>>, energyLine: string -> bool, terminated: string, parseFloat: string -> Option<real>): Result<MolproFile.Out, string> {
    match file
    case None => Ok(MolproFile.Out(MolproFile.Broken, 0.0, None, MolproFile.FileNotFound))
    case Some(lines) =>
      if lines == [] then Ok(MolproFile.Out(MolproFile.Broken, 0.0, None, MolproFile.BlankOutput))
      else Finished(ScanLines(lines, energyLine, terminated, parseFloat), parseFloat)
  }

  lemma ScanPrefix(lines: seq<string>, n: nat, energyLine: string -> bool, terminated: string, parseFloat: string -> Option<real>)
    requires 0 < n <= |lines|
    ensures ScanLines(lines[..n], energyLine, terminated, parseFloat)
      == Step(ScanLines(lines[..n - 1], energyLine, terminated, parseFloat), lines[n - 1], n == 1, energyLine, terminated, parseFloat)
  {
    assert lines[..n][..n - 1] == lines[..n - 1];
  }

  lemma {:induction false} HaltStays(lines: seq<string>, n: nat, m: nat, energyLine: string -> bool, terminated: string, parseFloat: string -> Option<real>)
    requires n <= m <= |lines|
    requires ScanLines(lines[..n], energyLine, terminated, parseFloat).halt != MolproFile.Going
    ensures ScanLines(lines[..m], energyLine, terminated, parseFloat) == ScanLines(lines[..n], energyLine, terminated, parseFloat)
    decreases m
  {
    if m > n {
      HaltStays(lines, n, m - 1, energyLine, terminated, parseFloat);
      ScanPrefix(lines, m, energyLine, terminated, parseFloat);
    }
  }

  lemma StepHalt(st: MolproFile.Scan, line: string, first: bool, energyLine: string -> bool, terminated: string, parseFloat: string -> Option<real>)
    requires st.halt == MolproFile.Going
    ensures Step(st, line, first, energyLine, terminated, parseFloat).halt == HaltKind(line, first, energyLine)
  {
  }

  /** No line below n stops the loop. */
  predicate NoHalt(lines: seq<string>, n: nat, energyLine: string -> bool)
    requires n <= |lines|
  {
    forall k :: 0 <= k < n ==> HaltKind(lines[k], k == 0, energyLine) == MolproFile.Going
  }

  lemma NoHaltPrefix(lines: seq<string>, n: nat, m: nat, energyLine: string -> bool)
    requires m <= n <= |lines| && NoHalt(lines, n, energyLine)
    ensures NoHalt(lines, m, energyLine)
  {
  }

  lemma NoHaltStep(lines: seq<string>, n: nat, energyLine: string -> bool)
    requires 0 < n <= |lines|
    ensures NoHalt(lines, n, energyLine) <==> NoHalt(lines, n - 1, energyLine) && HaltKind(lines[n - 1], n == 1, energyLine) == MolproFile.Going
  {
    assert n - 1 == 0 <==> n == 1;
  }

  lemma GoingStep(lines: seq<string>, n: nat, energyLine: string -> bool, terminated: string, parseFloat: string -> Option<real>)
    requires 0 < n <= |lines|
    ensures ScanLines(lines[..n], energyLine, terminated, parseFloat).halt == MolproFile.Going
      <==> ScanLines(lines[..n - 1], energyLine, terminated, parseFloat).halt == MolproFile.Going && HaltKind(lines[n - 1], n == 1, energyLine) == MolproFile.Going
  {
    ScanPrefix(lines, n, energyLine, terminated, parseFloat);
    var prev := ScanLines(lines[..n - 1], energyLine, terminated, parseFloat);
    if prev.halt == MolproFile.Going {
      StepHalt(prev, lines[n - 1], n == 1, energyLine, terminated, parseFloat);
    }
  }

  /** The loop runs to the end exactly when no line stops it. */
  lemma {:induction false} GoingIff(lines: seq<string>, n: nat, energyLine: string -> bool, terminated: string, parseFloat: string -> Option<real>)
    requires n <= |lines|
    ensures ScanLines(lines[..n], energyLine, terminated, parseFloat).halt == MolproFile.Going <==> NoHalt(lines, n, energyLine)
    decreases n
  {
    if n > 0 {
      GoingIff(lines, n - 1, energyLine, terminated, parseFloat);
      GoingStep(lines, n, energyLine, terminated, parseFloat);
      NoHaltStep(lines, n, energyLine);
    }
  }

  /** The first line that stops the loop decides: a panic, or
   *  ErrFileContainsError without a gradient. */
  lemma FirstHalt(lines: seq<string>, k: nat, energyLine: string -> bool, terminated: string, parseFloat: string -> Option<real>)
    requires k < |lines| && HaltKind(lines[k], k == 0, energyLine) != MolproFile.Going
    requires forall j :: 0 <= j < k ==> HaltKind(lines[j], j == 0, energyLine) == MolproFile.Going
    ensures var out := Classify(Some(lines), energyLine, terminated, parseFloat);
      if HaltKind(lines[k], k == 0, energyLine) == MolproFile.Errored then out.Ok? && out.value.err == MolproFile.FileContainsError && out.value.grad.None?
      else out.Err?
  {
    GoingIff(lines, k, energyLine, terminated, parseFloat);
    assert NoHalt(lines, k, energyLine);
    ScanPrefix(lines, k + 1, energyLine, terminated, parseFloat);
    StepHalt(ScanLines(lines[..k], energyLine, terminated, parseFloat), lines[k], k == 0, energyLine, terminated, parseFloat);
    HaltStays(lines, k + 1, |lines|, energyLine, terminated, parseFloat);
    assert lines[..|lines|] == lines;
  }

  /** "PANIC" in any case on the first line is the requested panic;
   *  otherwise "ERROR" there is ErrFileContainsError, whatever follows. */
  lemma FirstLine(lines: seq<string>, energyLine: string -> bool, terminated: string, parseFloat: string -> Option<real>)
    requires lines != [] && (Contains(ToUpper(lines[0]), "ERROR") || Contains(ToUpper(lines[0]), "PANIC"))
    ensures var out := Classify(Some(lines), energyLine, terminated, parseFloat);
      if Contains(ToUpper(lines[0]), "PANIC") then out.Err? else out.Ok? && out.value.err == MolproFile.FileContainsError
  {
    FirstHalt(lines, 0, energyLine, terminated, parseFloat);
  }

  /** ErrBlankOutput is the answer exactly for an output without lines. */
  lemma BlankIff(lines: seq<string>, energyLine: string -> bool, terminated: string, parseFloat: string -> Option<real>)
    ensures var out := Classify(Some(lines), energyLine, terminated, parseFloat);
      out.Ok? && out.value.err == MolproFile.BlankOutput <==> lines == []
  {
    if lines != [] {
      NeverBlank(lines, |lines|, energyLine, terminated, parseFloat);
      assert lines[..|lines|] == lines;
    }
  }

  /** The loop never sets ErrBlankOutput. */
  lemma {:induction false} NeverBlank(lines: seq<string>, n: nat, energyLine: string -> bool, terminated: string, parseFloat: string -> Option<real>)
    requires n <= |lines|
    ensures ScanLines(lines[..n], energyLine, terminated, parseFloat).err != MolproFile.BlankOutput
  {
    if n > 0 {
      NeverBlank(lines, n - 1, energyLine, terminated, parseFloat);
      ScanPrefix(lines, n, energyLine, terminated, parseFloat);
      StepNotBlank(ScanLines(lines[..n - 1], energyLine, terminated, parseFloat), lines[n - 1], n == 1, energyLine, terminated, parseFloat);
    }
  }

  lemma StepNotBlank(st: MolproFile.Scan, line: string, first: bool, energyLine: string -> bool, terminated: string, parseFloat: string -> Option<real>)
    requires st.err != MolproFile.BlankOutput
    ensures Step(st, line, first, energyLine, terminated, parseFloat).err != MolproFile.BlankOutput
  {
    var fields := Fields(line);
    MolproFile.EnergyFieldsLast(fields, |fields|, (st.result, st.err), parseFloat);
  }

  /** A line that sets the energy: it is read for the energy, holds "="
   *  and some field holding "=" has a successor. */
  predicate SetsEnergy(line: string, energyLine: string -> bool) {
    !MolproFile.ErrorLine(line) && Contains(line, "=") && MolproFile.EnergyRead(line, energyLine) && MolproFile.LastAssign(Fields(line), |Fields(line)|) >= 0
  }

  lemma StepEnergy(st: MolproFile.Scan, line: string, first: bool, energyLine: string -> bool, terminated: string, parseFloat: string -> Option<real>)
    requires st.halt == MolproFile.Going && HaltKind(line, first, energyLine) == MolproFile.Going
    ensures var next := Step(st, line, first, energyLine, terminated, parseFloat);
      next.result == if SetsEnergy(line, energyLine) then MolproFile.LineEnergy(line, parseFloat).0 else st.result
  {
    if Contains(line, "=") && MolproFile.EnergyRead(line, energyLine) {
      var fields := Fields(line);
      MolproFile.EnergyFieldsLast(fields, |fields|, (st.result, st.err), parseFloat);
    }
  }

  lemma EnergyStep(lines: seq<string>, n: nat, energyLine: string -> bool, terminated: string, parseFloat: string -> Option<real>)
    requires 0 < n <= |lines| && NoHalt(lines, n, energyLine)
    ensures ScanLines(lines[..n], energyLine, terminated, parseFloat).result
      == if SetsEnergy(lines[n - 1], energyLine) then MolproFile.LineEnergy(lines[n - 1], parseFloat).0
         else ScanLines(lines[..n - 1], energyLine, terminated, parseFloat).result
  {
    GoingIff(lines, n - 1, energyLine, terminated, parseFloat);
    NoHaltPrefix(lines, n, n - 1, energyLine);
    assert HaltKind(lines[n - 1], n - 1 == 0, energyLine) == MolproFile.Going;
    ScanPrefix(lines, n, energyLine, terminated, parseFloat);
    StepEnergy(ScanLines(lines[..n - 1], energyLine, terminated, parseFloat), lines[n - 1], n == 1, energyLine, terminated, parseFloat);
  }

  /** Without a line that stops the loop, the energy is that of the last
   *  line that sets it. */
  lemma {:induction false} LastEnergyWins(lines: seq<string>, n: nat, k: nat, energyLine: string -> bool, terminated: string, parseFloat: string -> Option<real>)
    requires k < n <= |lines| && NoHalt(lines, n, energyLine)
    requires SetsEnergy(lines[k], energyLine)
    requires forall j :: k < j < n ==> !SetsEnergy(lines[j], energyLine)
    ensures ScanLines(lines[..n], energyLine, terminated, parseFloat).result == MolproFile.LineEnergy(lines[k], parseFloat).0
    decreases n
  {
    EnergyStep(lines, n, energyLine, terminated, parseFloat);
    if k < n - 1 {
      NoHaltPrefix(lines, n, n - 1, energyLine);
      LastEnergyWins(lines, n - 1, k, energyLine, terminated, parseFloat);
    }
  }

  // ---------------------------------------------------------------------
  // The Gaussian struct

  class Gaussian {
    var dir: string
    var head: string
    var opt: string
    var body: string
    var geom: string
    var tail: string

    /** LoadGaussian over the template's scanner lines. */
    constructor LoadGaussian(lines: seq<string>, chargeSpin: string -> bool, stripProc: string -> string)
      ensures var t := Template(lines, chargeSpin, stripProc);
        head == t.head && opt == t.opt && body == t.body && tail == t.buf && geom == "" && dir == ""
    {
      var p := NoParts;
      var n := 0;
      while n < |lines|
        invariant n <= |lines| && p == Template(lines[..n], chargeSpin, stripProc)
      {
        assert lines[..n + 1][..n] == lines[..n];
        var line := lines[n];
        if Contains(line, "#") {
          p := p.(head := p.buf, buf := "", opt := stripProc(line) + "\n");
        } else if chargeSpin(line) {
          p := p.(buf := p.buf + line + "\n");
          p := p.(body := p.buf, buf := "", geom := true);
        } else if p.geom && line == "" {
          p := p.(geom := false);
        } else if !p.geom {
          p := p.(buf := p.buf + line + "\n");
        }
        n := n + 1;
      }
      assert lines[..n] == lines;
      dir := "";
      head := p.head;
      opt := p.opt;
      body := p.body;
      geom := "";
      tail := p.buf;
    }

    method SetDir(d: string)
      modifies this
      ensures dir == d
      ensures head == old(head) && opt == old(opt) && body == old(body) && geom == old(geom) && tail == old(tail)
    {
      dir := d;
    }

    method GetDir() returns (d: string)
      ensures d == dir
    {
      d := dir;
    }

    method GetGeometry() returns (g: string)
      ensures g == geom
    {
      g := geom;
    }

    /** The text makeInput writes. */
    method MakeInput(p: MolproFile.Procedure) returns (text: string)
      ensures text == Input(head, opt, body, geom, tail, p)
    {
      text := head + TrimSpace(opt) + " ";
      if p.Opt? {
        text := text + "opt \n";
      } else if p.Freq? {
        text := text + "freq";
      }
      text := text + body + TrimSpace(geom) + "\n\n";
      text := text + tail;
    }

    /** FormatZmat: ok is false for the "improper z-matrix" error. */
    method FormatZmat(g: string) returns (ok: bool)
      modifies this
      ensures geom == Zmat.Braced(g)
      ensures ok <==> exists k :: 0 <= k < |Split(g, "\n")| && Contains(Split(g, "\n")[k], "=")
      ensures dir == old(dir) && head == old(head) && opt == old(opt) && body == old(body) && tail == old(tail)
    {
      geom, ok := Zmat.FormatZmat(g);
    }

    /** FormatCart closes the geometry with a "}" line; it never fails. */
    method FormatCart(g: string)
      modifies this
      ensures geom == g + "\n}\n"
      ensures dir == old(dir) && head == old(head) && opt == old(opt) && body == old(body) && tail == old(tail)
    {
      geom := g + "\n}\n";
    }

    method UpdateZmat(params: string)
      modifies this
      ensures geom == Zmat.Updated(old(geom), params)
      ensures dir == old(dir) && head == old(head) && opt == old(opt) && body == old(body) && tail == old(tail)
    {
      geom := Zmat.UpdateZmat(geom, params);
    }

    /** ReadOut over the output file's lines, None when it cannot be
     *  read; Err is a panic. */
    method ReadOut(file: Option<seq<string>>, energyLine: string -> bool, terminated: string, parseFloat: string -> Option<real>)
      returns (r: Result<MolproFile.Out, string>)
      ensures r == Classify(file, energyLine, terminated, parseFloat)
    {
      if file.None? {
        return Ok(MolproFile.Out(MolproFile.Broken, 0.0, None, MolproFile.FileNotFound));
      }
      var lines := file.value;
      var st := MolproFile.Start;
      var i := 0;
      while i < |lines|
        invariant i <= |lines| && st == ScanLines(lines[..i], energyLine, terminated, parseFloat)
        invariant st.halt == MolproFile.Going
      {
        ScanPrefix(lines, i + 1, energyLine, terminated, parseFloat);
        st := ReadLine(st, lines[i], i == 0, energyLine, terminated, parseFloat);
        i := i + 1;
        if st.halt != MolproFile.Going {
          HaltStays(lines, i, |lines|, energyLine, terminated, parseFloat);
          assert lines[..|lines|] == lines;
          if st.halt == MolproFile.Errored {
            return Ok(MolproFile.Out(st.result, st.time, None, MolproFile.FileContainsError));
          }
          return Err("panic");
        }
      }
      assert lines[..i] == lines;
      if i == 0 {
        return Ok(MolproFile.Out(MolproFile.Broken, 0.0, None, MolproFile.BlankOutput));
      }
      if st.gradx.Some? {
        var xs := st.gradx.value;
        var ys := MolproFile.OrNil(st.grady);
        var zs := MolproFile.OrNil(st.gradz);
        if !(|xs| == |ys| && |xs| == |zs|) {
          return Err("Gradient dimension mismatch");
        }
        var grad := MolproFile.Molpro.Gradient(xs, ys, zs, parseFloat);
        return Ok(MolproFile.Out(st.result, st.time, Some(grad), st.err));
      }
      return Ok(MolproFile.Out(st.result, st.time, None, st.err));
    }

    /** One pass of ReadOut's switch over a line. */
    static method ReadLine(st: MolproFile.Scan, line: string, first: bool, energyLine: string -> bool, terminated: string, parseFloat: string -> Option<real>)
      returns (next: MolproFile.Scan)
      requires st.halt == MolproFile.Going
      ensures next == Step(st, line, first, energyLine, terminated, parseFloat)
    {
      if first && Contains(ToUpper(line), "PANIC") {
        next := st.(halt := MolproFile.Panicked);
      } else if first && Contains(ToUpper(line), "ERROR") {
        next := st.(err := MolproFile.FileContainsError, halt := MolproFile.Errored);
      } else if Contains(ToLower(line), "error") && MolproFile.ErrorMatch(line) {
        next := st.(err := MolproFile.FileContainsError, halt := MolproFile.Errored);
      } else if Contains(line, "=") && energyLine(line) && !Contains(line, "gthresh") && !Contains(line, "hf") {
        var split := Fields(line);
        var e := MolproFile.Molpro.AssignEnergy(split, (st.result, st.err), parseFloat);
        next := st.(result := e.0, err := e.1);
      } else {
        next := ReadRest(st, line, terminated, parseFloat);
      }
    }

    /** The time, gradient and termination cases of ReadOut's switch. */
    static method ReadRest(st: MolproFile.Scan, line: string, terminated: string, parseFloat: string -> Option<real>)
      returns (next: MolproFile.Scan)
      ensures next == Rest(st, line, terminated, parseFloat)
    {
      next := st;
      if Contains(line, "REAL TIME") {
        var fields := Fields(line);
        if |fields| < 2 {
          return next.(halt := MolproFile.Panicked);
        }
        next := next.(time := MolproFile.OrZero(parseFloat(fields[|fields| - 2])));
      } else if Contains(line, "GRADX") || Contains(line, "GRADY") || Contains(line, "GRADZ") {
        var coords := MolproFile.ProcessGrad(line);
        if coords.None? {
          return next.(halt := MolproFile.Panicked);
        }
        if Contains(line, "GRADX") {
          next := next.(gradx := coords);
        } else if Contains(line, "GRADY") {
          next := next.(grady := coords);
        } else {
          next := next.(gradz := coords);
        }
      } else if Contains(line, terminated) && st.err != MolproFile.Found {
        next := next.(err := MolproFile.FinishedButNoEnergy);
      }
    }
  }
}
