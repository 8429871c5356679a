/** molpro.go: the Molpro input template (LoadMolpro, WriteInput,
 *  FormatZmat, UpdateZmat, AugmentHead) and the classification of a
 *  Molpro output file (ReadOut). The template file and the output file
 *  are given as their scanner lines; the configured energy-line regular
 *  expression and strconv.ParseFloat are parameters. */
module MolproFile {
  import opened Text
  import opened Utils
  import Zmat

  /** The calculation WriteInput asks for. */
  datatype Procedure = Opt | Freq | NoProc

  // ---------------------------------------------------------------------
  // LoadMolpro

  /** An optimisation line: it holds "optg" but not "gthresh". */
  predicate OptLine(line: string) {
    Contains(line, "optg") && !Contains(line, "gthresh")
  }

  /** A line that ends the head. */
  predicate GeomLine(line: string) {
    !OptLine(line) && Contains(line, "geometry=")
  }

  /** A line that only goes into the buffer. */
  predicate Plain(line: string) {
    !OptLine(line) && !Contains(line, "geometry=")
  }

  /** The fields LoadMolpro fills, and its buffer. */
  datatype Parts = Parts(head: string, tail: string, opt: string, buf: string)

  const NoParts := Parts("", "", "", "")

  /** One scanner line: an optimisation line moves the buffer to Tail and
   *  becomes Opt; any other line goes into the buffer, and a "geometry="
   *  line then moves the buffer to Head. */
  function LoadStep(p: Parts, line: string): Parts {
    if OptLine(line) then p.(tail := p.buf, buf := "", opt := line + "\n")
    else if Contains(line, "geometry=") then p.(head := p.buf + line + "\n", buf := "")
    else p.(buf := p.buf + line + "\n")
  }

  function Template(lines: seq<string>): Parts
    decreases |lines|
  {
    if lines == [] then NoParts
    else LoadStep(Template(lines[..|lines| - 1]), lines[|lines| - 1])
  }

  /** The lines from i up to j are plain. */
  predicate PlainBetween(ls: seq<string>, i: nat, j: nat)
    requires i <= j <= |ls|
  {
    forall k :: i <= k < j ==> Plain(ls[k])
  }

  lemma TemplateAt(ls: seq<string>, j: nat)
    requires 0 < j <= |ls|
    ensures Template(ls[..j]) == LoadStep(Template(ls[..j - 1]), ls[j - 1])
  {
    assert ls[..j][..j - 1] == ls[..j - 1];
  }

  /** Plain lines only add themselves to the buffer. */
  lemma {:induction false} TemplatePlain(ls: seq<string>, i: nat, j: nat)
    requires i <= j <= |ls| && PlainBetween(ls, i, j)
    ensures Template(ls[..j]) == Template(ls[..i]).(buf := Template(ls[..i]).buf + Lines(ls[i..j]))
    decreases j
  {
    if j == i {
      assert ls[i..j] == [];
    } else {
      assert PlainBetween(ls, i, j - 1) && Plain(ls[j - 1]);
      TemplatePlain(ls, i, j - 1);
      TemplateAt(ls, j);
      assert ls[i..j][..j - 1 - i] == ls[i..j - 1];
      var b := Template(ls[..i]).buf;
      var l := Lines(ls[i..j - 1]);
      var x := ls[j - 1];
      assert Lines(ls[i..j]) == l + x + "\n";
      Assoc(b, l + x, "\n");
      Assoc(b, l, x);
    }
  }

  /** The usual template: plain lines, the "geometry=" line at g, plain
   *  lines, the optimisation line at o, plain lines. */
  predicate Layout(ls: seq<string>, g: nat, o: nat) {
    g < o < |ls| && GeomLine(ls[g]) && OptLine(ls[o])
    && forall k :: 0 <= k < |ls| && k != g && k != o ==> Plain(ls[k])
  }

  /** Through the "geometry=" line at g, everything is Head. */
  lemma TemplateHead(ls: seq<string>, g: nat)
    requires g < |ls| && GeomLine(ls[g]) && PlainBetween(ls, 0, g)
    ensures Template(ls[..g + 1]) == Parts(Lines(ls[..g + 1]), "", "", "")
  {
    TemplatePlain(ls, 0, g);
    assert ls[..0] == [] && ls[0..g] == ls[..g];
    TemplateAt(ls, g + 1);
    assert ls[..g + 1][..g] == ls[..g];
  }

  /** From the head to the optimisation line at o, the lines after the
   *  head become Tail. */
  lemma TemplateTail(ls: seq<string>, g: nat, o: nat, h: string)
    requires g < o < |ls| && Template(ls[..g + 1]) == Parts(h, "", "", "")
    requires PlainBetween(ls, g + 1, o) && OptLine(ls[o])
    ensures Template(ls[..o + 1]) == Parts(h, Lines(ls[g + 1..o]), ls[o] + "\n", "")
  {
    TemplatePlain(ls, g + 1, o);
    TemplateAt(ls, o + 1);
  }

  /** Plain lines to the end become Extra. */
  lemma TemplateExtra(ls: seq<string>, i: nat, p: Parts)
    requires i <= |ls| && Template(ls[..i]) == p && p.buf == "" && PlainBetween(ls, i, |ls|)
    ensures Template(ls) == p.(buf := Lines(ls[i..]))
  {
    TemplatePlain(ls, i, |ls|);
    assert ls[..|ls|] == ls && ls[i..|ls|] == ls[i..];
  }

  lemma LayoutPlain(ls: seq<string>, g: nat, o: nat)
    requires Layout(ls, g, o)
    ensures PlainBetween(ls, 0, g) && PlainBetween(ls, g + 1, o) && PlainBetween(ls, o + 1, |ls|)
  {
  }

  /** Head is the lines through the "geometry=" line, Tail the lines
   *  after it up to the optimisation line, Opt that line and Extra the
   *  rest, each line newline-terminated. */
  lemma LoadLayout(ls: seq<string>, g: nat, o: nat)
    requires Layout(ls, g, o)
    ensures Template(ls) == Parts(Lines(ls[..g + 1]), Lines(ls[g + 1..o]), ls[o] + "\n", Lines(ls[o + 1..]))
  {
    LayoutPlain(ls, g, o);
    LoadParts(ls, g, o);
  }

  lemma LoadParts(ls: seq<string>, g: nat, o: nat)
    requires g < o < |ls| && GeomLine(ls[g]) && OptLine(ls[o])
    requires PlainBetween(ls, 0, g) && PlainBetween(ls, g + 1, o) && PlainBetween(ls, o + 1, |ls|)
    ensures Template(ls) == Parts(Lines(ls[..g + 1]), Lines(ls[g + 1..o]), ls[o] + "\n", Lines(ls[o + 1..]))
  {
    TemplateHead(ls, g);
    TemplateTail(ls, g, o, Lines(ls[..g + 1]));
    TemplateExtra(ls, o + 1, Parts(Lines(ls[..g + 1]), Lines(ls[g + 1..o]), ls[o] + "\n", ""));
  }

  /** Without an optimisation line, Tail and Opt stay empty and Extra is
   *  everything after the "geometry=" line. */
  lemma LoadNoOpt(ls: seq<string>, g: nat)
    requires g < |ls| && GeomLine(ls[g]) && forall k :: 0 <= k < |ls| && k != g ==> Plain(ls[k])
    ensures Template(ls) == Parts(Lines(ls[..g + 1]), "", "", Lines(ls[g + 1..]))
  {
    assert PlainBetween(ls, 0, g) && PlainBetween(ls, g + 1, |ls|);
    TemplateHead(ls, g);
    TemplateExtra(ls, g + 1, Parts(Lines(ls[..g + 1]), "", "", ""));
  }

  // ---------------------------------------------------------------------
  // WriteInput

  /** The text WriteInput writes: Head, the geometry and a newline, Tail,
   *  then Opt, the frequencies command or nothing, then Extra. */
  function Written(head: string, geometry: string, tail: string, opt: string, extra: string, p: Procedure): string {
    head + geometry + "\n" + tail
    + (match p case Opt => opt case Freq => "{frequencies}\n" case NoProc => "")
    + extra
  }

  /** Writing a loaded template gives the template back with the geometry
   *  after the "geometry=" line; for frequencies the optimisation line is
   *  replaced by the frequencies command, and without a procedure it is
   *  dropped. */
  lemma WriteLayout(ls: seq<string>, g: nat, o: nat, geom: string)
    requires Layout(ls, g, o)
    ensures var t := Template(ls);
      Written(t.head, geom, t.tail, t.opt, t.buf, Opt) == Lines(ls[..g + 1]) + geom + "\n" + Lines(ls[g + 1..])
      && Written(t.head, geom, t.tail, t.opt, t.buf, Freq)
         == Lines(ls[..g + 1]) + geom + "\n" + Lines(ls[g + 1..o] + ["{frequencies}"] + ls[o + 1..])
      && Written(t.head, geom, t.tail, t.opt, t.buf, NoProc)
         == Lines(ls[..g + 1]) + geom + "\n" + Lines(ls[g + 1..o] + ls[o + 1..])
  {
    LoadLayout(ls, g, o);
    WriteTemplate(ls, g, o, geom, Template(ls));
  }

  lemma WriteTemplate(ls: seq<string>, g: nat, o: nat, geom: string, t: Parts)
    requires g < o < |ls|
    requires t == Parts(Lines(ls[..g + 1]), Lines(ls[g + 1..o]), ls[o] + "\n", Lines(ls[o + 1..]))
    ensures Written(t.head, geom, t.tail, t.opt, t.buf, Opt) == Lines(ls[..g + 1]) + geom + "\n" + Lines(ls[g + 1..])
      && Written(t.head, geom, t.tail, t.opt, t.buf, Freq)
         == Lines(ls[..g + 1]) + geom + "\n" + Lines(ls[g + 1..o] + ["{frequencies}"] + ls[o + 1..])
      && Written(t.head, geom, t.tail, t.opt, t.buf, NoProc)
         == Lines(ls[..g + 1]) + geom + "\n" + Lines(ls[g + 1..o] + ls[o + 1..])
  {
    var head := Lines(ls[..g + 1]);
    var mid := ls[g + 1..o];
    var rest := ls[o + 1..];
    assert ls[g + 1..] == mid + [ls[o]] + rest;
    WriteOpt(head, geom, mid, ls[o], rest);
    WriteFreq(head, geom, mid, ls[o], rest);
    WriteNoProc(head, geom, mid, ls[o], rest);
  }

  lemma WriteOpt(head: string, geom: string, mid: seq<string>, y: string, rest: seq<string>)
    ensures Written(head, geom, Lines(mid), y + "\n", Lines(rest), Opt) == head + geom + "\n" + Lines(mid + [y] + rest)
  {
    LinesAppend(mid + [y], rest);
    assert (mid + [y])[..|mid|] == mid;
  }

  lemma WriteFreq(head: string, geom: string, mid: seq<string>, y: string, rest: seq<string>)
    ensures Written(head, geom, Lines(mid), y + "\n", Lines(rest), Freq) == head + geom + "\n" + Lines(mid + ["{frequencies}"] + rest)
  {
    LinesAppend(mid + ["{frequencies}"], rest);
    assert (mid + ["{frequencies}"])[..|mid|] == mid;
  }

  lemma WriteNoProc(head: string, geom: string, mid: seq<string>, y: string, rest: seq<string>)
    ensures Written(head, geom, Lines(mid), y + "\n", Lines(rest), NoProc) == head + geom + "\n" + Lines(mid + rest)
  {
    LinesAppend(mid, rest);
  }

  // ---------------------------------------------------------------------
  // AugmentHead

  const Added := "geomtyp=xyz\nbohr"

  /** AugmentHead acts at line i: it mentions "geometry" and the line
   *  before it does not mention "bohr". At i = 0 that line is lines[-1],
   *  the index panic. */
  predicate InsertsAt(lines: seq<string>, i: nat)
    requires i < |lines|
  {
    Contains(lines[i], "geometry") && (i == 0 || !Contains(lines[i - 1], "bohr"))
  }

  /** The first j >= from where AugmentHead acts, or |lines|. */
  function FirstInsert(lines: seq<string>, from: nat): (r: nat)
    requires from <= |lines|
    ensures from <= r <= |lines|
    ensures forall k :: from <= k < r ==> !InsertsAt(lines, k)
    ensures r < |lines| ==> InsertsAt(lines, r)
    decreases |lines| - from
  {
    if from == |lines| then from
    else if InsertsAt(lines, from) then from
    else FirstInsert(lines, from + 1)
  }

  /** AugmentHead on Head: None is the panic of a first line that
   *  mentions "geometry". */
  function Augmented(head: string): Option<string> {
    var lines := Split(head, "\n");
    var i := FirstInsert(lines, 0);
    if i == |lines| then Some(head)
    else if i == 0 then None
    else Some(Join(lines[..i] + [Added] + lines[i..], "\n"))
  }

  lemma FirstInsertIs(lines: seq<string>, i: nat)
    requires i <= |lines| && forall k :: 0 <= k < i ==> !InsertsAt(lines, k)
    requires i < |lines| ==> InsertsAt(lines, i)
    ensures FirstInsert(lines, 0) == i
  {
  }

  /** Where it acts, AugmentHead puts the lines "geomtyp=xyz" and "bohr"
   *  in front of the geometry line. */
  lemma AugmentLines(head: string)
    requires var lines := Split(head, "\n"); 0 < FirstInsert(lines, 0) < |lines|
    ensures var lines := Split(head, "\n");
      var i := FirstInsert(lines, 0);
      Split(Augmented(head).value, "\n") == lines[..i] + ["geomtyp=xyz", "bohr"] + lines[i..]
  {
    var lines := Split(head, "\n");
    var i := FirstInsert(lines, 0);
    Zmat.NoNewlinesSplit(head);
    AddedSplit(lines, i);
  }

  /** Joining with Added in at i is joining with its two lines in at i,
   *  and splitting that gives the lines back. */
  lemma AddedSplit(lines: seq<string>, i: nat)
    requires 0 < i < |lines| && Zmat.NoNewlines(lines)
    ensures Split(Join(lines[..i] + [Added] + lines[i..], "\n"), "\n") == lines[..i] + ["geomtyp=xyz", "bohr"] + lines[i..]
  {
    var two := ["geomtyp=xyz", "bohr"];
    AddedJoinAt(lines[..i], lines[i..]);
    Zmat.NoNewlinesSlice(lines, 0, i);
    Zmat.NoNewlinesSlice(lines, i, |lines|);
    assert Zmat.NoNewlines(two) by {
      assert NoNewline(two[0]) && NoNewline(two[1]);
    }
    Zmat.NoNewlinesAppend(lines[..i], two);
    Zmat.NoNewlinesAppend(lines[..i] + two, lines[i..]);
    Zmat.SplitJoin(lines[..i] + two + lines[i..]);
  }

  lemma AddedJoinAt(a: seq<string>, b: seq<string>)
    requires a != [] && b != []
    ensures Join(a + [Added] + b, "\n") == Join(a + ["geomtyp=xyz", "bohr"] + b, "\n")
  {
    var two := ["geomtyp=xyz", "bohr"];
    AddedJoin();
    JoinAppend(a, [Added], "\n");
    JoinAppend(a + [Added], b, "\n");
    JoinAppend(a, two, "\n");
    JoinAppend(a + two, b, "\n");
  }

  lemma AddedJoin()
    ensures Join(["geomtyp=xyz", "bohr"], "\n") == Added
  {
    JoinCons("geomtyp=xyz", ["bohr"], "\n");
  }

  /** Exactly line g mentions "geometry". */
  predicate OneGeometry(lines: seq<string>, g: nat) {
    g < |lines| && forall k :: 0 <= k < |lines| ==> (Contains(lines[k], "geometry") <==> k == g)
  }

  lemma AddedLinesPlain()
    ensures !Contains("geomtyp=xyz", "geometry") && !Contains("bohr", "geometry") && Contains("bohr", "bohr")
  {
    var s := "geomtyp=xyz";
    var t := "geometry";
    forall i | 0 <= i ensures !OccursAt(s, t, i) {
      if i == 0 {
        assert s[4] != t[4];
        assert s[i..i + |t|][4] == s[4];
      } else if i + |t| <= |s| {
        assert s[i] != t[0];
        assert s[i..i + |t|][0] == s[i];
      }
    }
    ContainsIff(s, t);
    ContainsIff("bohr", t);
    OccursContains("bohr", "bohr", 0);
  }

  /** With one line mentioning "geometry", a second AugmentHead changes
   *  nothing: the line before the geometry line is now "bohr". */
  lemma AugmentTwice(head: string, g: nat)
    requires OneGeometry(Split(head, "\n"), g) && Augmented(head).Some?
    ensures Augmented(Augmented(head).value) == Augmented(head)
  {
    var lines := Split(head, "\n");
    var i := FirstInsert(lines, 0);
    if 0 < i < |lines| {
      AugmentLines(head);
      var out := lines[..i] + ["geomtyp=xyz", "bohr"] + lines[i..];
      AddedLinesPlain();
      assert i == g;
      forall k | 0 <= k < |out| ensures !InsertsAt(out, k) {
        if k < i {
          assert out[k] == lines[k];
        } else if k > i + 1 {
          assert out[k] == lines[k - 2];
          assert k - 2 != g ==> !Contains(out[k], "geometry");
          assert out[k - 1] == (if k == i + 2 then "bohr" else lines[k - 3]);
        }
      }
      FirstInsertIs(out, |out|);
    }
  }

  // ---------------------------------------------------------------------
  // ReadOut

  /** The energy ReadOut returns: brokenFloat until one is read, NaN
   *  after a failed parse. */
  datatype Energy = Broken | NaN | Value(v: real)

  /** The error ReadOut returns: Found is nil and BadFloat the error of
   *  strconv.ParseFloat; the rest are the errors of main.go. */
  datatype Status = Found | EnergyNotFound | FileNotFound | FinishedButNoEnergy
                  | FileContainsError | BlankOutput | BadFloat

  /** `(?i)[^_]error`: "error" in any ASCII case after a character other
   *  than "_". */
  predicate ErrorMatch(line: string) {
    exists j :: 1 <= j <= |line| - 5 && ErrorAt(line, j)
  }

  predicate ErrorAt(line: string, j: int) {
    1 <= j <= |line| - 5 && ToLower(line[j..j + 5]) == "error" && line[j - 1] != '_'
  }

  /** A line that makes ReadOut return ErrFileContainsError. */
  predicate ErrorLine(line: string) {
    Contains(ToLower(line), "error") && ErrorMatch(line)
  }

  /** A line read for the energy. */
  predicate EnergyRead(line: string, energyLine: string -> bool) {
    energyLine(line) && !Contains(line, "gthresh") && !Contains(line, "hf")
  }

  /** The energy and error after strconv.ParseFloat of s. */
  function Parsed(s: string, parseFloat: string -> Option<real>): (Energy, Status) {
    match parseFloat(s)
    case Some(v) => (Value(v), Found)
    case None => (NaN, BadFloat)
  }

  /** The loop over the first n fields of an energy line: every field
   *  holding "=" that has a successor parses that successor. */
  function EnergyFields(fields: seq<string>, n: nat, start: (Energy, Status), parseFloat: string -> Option<real>): (Energy, Status)
    requires n <= |fields|
  {
    if n == 0 then start
    else if Contains(fields[n - 1], "=") && n < |fields| then Parsed(fields[n], parseFloat)
    else EnergyFields(fields, n - 1, start, parseFloat)
  }

  /** Field i holds "=" and has a successor. */
  predicate Assigns(fields: seq<string>, i: nat)
    requires i < |fields|
  {
    Contains(fields[i], "=") && i + 1 < |fields|
  }

  /** The last field below n that assigns, or -1. */
  function LastAssign(fields: seq<string>, n: nat): (r: int)
    requires n <= |fields|
    ensures -1 <= r < n
    ensures r >= 0 ==> Assigns(fields, r)
    ensures forall i :: r < i < n ==> !Assigns(fields, i)
  {
    if n == 0 then -1
    else if Assigns(fields, n - 1) then n - 1
    else LastAssign(fields, n - 1)
  }

  /** The field loop leaves the energy of the last assigning field, or
   *  what it started from when none assigns. */
  lemma {:induction false} EnergyFieldsLast(fields: seq<string>, n: nat, start: (Energy, Status), parseFloat: string -> Option<real>)
    requires n <= |fields|
    ensures var i := LastAssign(fields, n);
      EnergyFields(fields, n, start, parseFloat) == if i < 0 then start else Parsed(fields[i + 1], parseFloat)
    decreases n
  {
    if n > 0 && !Assigns(fields, n - 1) {
      EnergyFieldsLast(fields, n - 1, start, parseFloat);
    }
  }

  /** processGrad: the fields after the third and before the last, with
   *  the trailing "]" of the last one removed; None is the slice panic of
   *  a line with fewer than five fields. */
  function ProcessGrad(line: string): (r: Option<seq<string>>)
    ensures r.Some? <==> |Fields(line)| >= 5
    ensures r.Some? ==> |r.value| == |Fields(line)| - 4 >= 1
  {
    var fields := Fields(line);
    if |fields| < 5 then None
    else
      var coords := fields[3..|fields| - 1];
      Some(coords[..|coords| - 1] + [TrimRight(coords[|coords| - 1], ']')])
  }

  datatype Halt = Going | Errored | Panicked

  /** ReadOut's variables after a prefix of the lines. */
  datatype Scan = Scan(result: Energy, time: real, gradx: Option<seq<string>>, grady: Option<seq<string>>,
                       gradz: Option<seq<string>>, err: Status, halt: Halt)

  const Start := Scan(Broken, 0.0, None, None, None, EnergyNotFound, Going)

  /** A line that panics: a "REAL TIME" line with fewer than two fields,
   *  or a gradient line with fewer than five. */
  predicate PanicLine(line: string, energyLine: string -> bool) {
    !ErrorLine(line) && !EnergyRead(line, energyLine)
    && (if Contains(line, "REAL TIME") then |Fields(line)| < 2
        else (Contains(line, "GRADX") || Contains(line, "GRADY") || Contains(line, "GRADZ")) && |Fields(line)| < 5)
  }

  /** The if-chain on one line that is not an error line. */
  function Body(st: Scan, line: string, energyLine: string -> bool, parseFloat: string -> Option<real>): Scan {
    if EnergyRead(line, energyLine) then
      var fields := Fields(line);
      var e := EnergyFields(fields, |fields|, (st.result, st.err), parseFloat);
      st.(result := e.0, err := e.1)
    else if Contains(line, "REAL TIME") then
      var fields := Fields(line);
      if |fields| < 2 then st.(halt := Panicked)
      else st.(time := match parseFloat(fields[|fields| - 2]) case Some(v) => v case None => 0.0)
    else if Contains(line, "GRADX") then
      match ProcessGrad(line) case None => st.(halt := Panicked) case Some(c) => st.(gradx := Some(c))
    else if Contains(line, "GRADY") then
      match ProcessGrad(line) case None => st.(halt := Panicked) case Some(c) => st.(grady := Some(c))
    else if Contains(line, "GRADZ") then
      match ProcessGrad(line) case None => st.(halt := Panicked) case Some(c) => st.(gradz := Some(c))
    else st
  }

  /** One line of ReadOut's loop; terminated is the text that marks a
   *  finished Molpro run. */
  function Step(st: Scan, line: string, energyLine: string -> bool, terminated: string, parseFloat: string -> Option<real>): Scan {
    if st.halt != Going then st
    else if ErrorLine(line) then st.(err := FileContainsError, halt := Errored)
    else
      var st1 := Body(st, line, energyLine, parseFloat);
      if st1.halt == Going && Contains(line, terminated) && st1.err != Found then st1.(err := FinishedButNoEnergy)
      else st1
  }

  function ScanLines(lines: seq<string>, energyLine: string -> bool, terminated: string, parseFloat: string -> Option<real>): Scan
    decreases |lines|
  {
    if lines == [] then Start
    else Step(ScanLines(lines[..|lines| - 1], energyLine, terminated, parseFloat), lines[|lines| - 1], energyLine, terminated, parseFloat)
  }

  /** The gradient: x, y and z of each atom in turn, unparsable fields
   *  reading as 0. */
  function Interleave(xs: seq<string>, ys: seq<string>, zs: seq<string>, parseFloat: string -> Option<real>): (r: seq<real>)
    requires |xs| == |ys| == |zs|
    ensures |r| == 3 * |xs|
    decreases |xs|
  {
    if xs == [] then []
    else
      var n := |xs| - 1;
      Interleave(xs[..n], ys[..n], zs[..n], parseFloat)
      + [OrZero(parseFloat(xs[n])), OrZero(parseFloat(ys[n])), OrZero(parseFloat(zs[n]))]
  }

  function OrZero(v: Option<real>): real {
    match v case Some(x) => x case None => 0.0
  }

  /** What ReadOut returns. */
  datatype Out = Out(result: Energy, time: real, grad: Option<seq<real>>, err: Status)

  function OrNil(v: Option<seq<string>>): seq<string> {
    match v case Some(x) => x case None => []
  }

  /** The end of ReadOut after its loop: Err is a panic. */
  function Finish(st: Scan, parseFloat: string -> Option<real>): Result<Out, string> {
    if st.halt == Panicked then Err("index out of range")
    else if st.halt == Errored then Ok(Out(st.result, st.time, None, FileContainsError))
    else if st.gradx.None? then Ok(Out(st.result, st.time, None, st.err))
    else
      var xs := st.gradx.value;
      var ys := OrNil(st.grady);
      var zs := OrNil(st.gradz);
      if !(|xs| == |ys| && |xs| == |zs|) then Err("Gradient dimension mismatch")
      else Ok(Out(st.result, st.time, Some(Interleave(xs, ys, zs, parseFloat)), st.err))
  }

  /** ReadOut over the output file's lines, None when it cannot be read. */
  function Classify(file: Option<seq<string>>, energyLine: string -> bool, terminated: string, parseFloat: string -> Option<real>): Result<Out, string> {
    match file
    case None => Ok(Out(Broken, 0.0, None, FileNotFound))
    case Some(lines) =>
      if |lines| == 1 then
        Ok(Out(Broken, 0.0, None, if Contains(ToUpper(lines[0]), "ERROR") then FileContainsError else BlankOutput))
      else if |lines| == 0 then Ok(Out(Broken, 0.0, None, BlankOutput))
      else Finish(ScanLines(lines, energyLine, terminated, parseFloat), parseFloat)
  }

  lemma ScanPrefix(lines: seq<string>, n: nat, energyLine: string -> bool, terminated: string, parseFloat: string -> Option<real>)
    requires 0 < n <= |lines|
    ensures ScanLines(lines[..n], energyLine, terminated, parseFloat)
      == Step(ScanLines(lines[..n - 1], energyLine, terminated, parseFloat), lines[n - 1], energyLine, terminated, parseFloat)
  {
    assert lines[..n][..n - 1] == lines[..n - 1];
  }

  /** Once the loop has returned or panicked, later lines change nothing. */
  lemma {:induction false} HaltStays(lines: seq<string>, n: nat, m: nat, energyLine: string -> bool, terminated: string, parseFloat: string -> Option<real>)
    requires n <= m <= |lines|
    requires ScanLines(lines[..n], energyLine, terminated, parseFloat).halt != Going
    ensures ScanLines(lines[..m], energyLine, terminated, parseFloat) == ScanLines(lines[..n], energyLine, terminated, parseFloat)
    decreases m
  {
    if m > n {
      HaltStays(lines, n, m - 1, energyLine, terminated, parseFloat);
      ScanPrefix(lines, m, energyLine, terminated, parseFloat);
    }
  }

  /** A line halts the loop. */
  predicate Halts(line: string, energyLine: string -> bool) {
    ErrorLine(line) || PanicLine(line, energyLine)
  }

  /** A line that does not halt keeps the loop going, and one that does
   *  stops it: an error line as a return, any other as a panic. */
  lemma StepHalt(st: Scan, line: string, energyLine: string -> bool, terminated: string, parseFloat: string -> Option<real>)
    requires st.halt == Going
    ensures Step(st, line, energyLine, terminated, parseFloat).halt
      == if ErrorLine(line) then Errored else if PanicLine(line, energyLine) then Panicked else Going
  {
  }

  /** No line below n halts the loop. */
  predicate NoHalt(lines: seq<string>, n: nat, energyLine: string -> bool)
    requires n <= |lines|
  {
    forall k :: 0 <= k < n ==> !Halts(lines[k], energyLine)
  }

  lemma GoingStep(lines: seq<string>, n: nat, energyLine: string -> bool, terminated: string, parseFloat: string -> Option<real>)
    requires 0 < n <= |lines|
    ensures ScanLines(lines[..n], energyLine, terminated, parseFloat).halt == Going
      <==> ScanLines(lines[..n - 1], energyLine, terminated, parseFloat).halt == Going && !Halts(lines[n - 1], energyLine)
  {
    ScanPrefix(lines, n, energyLine, terminated, parseFloat);
    var prev := ScanLines(lines[..n - 1], energyLine, terminated, parseFloat);
    if prev.halt == Going {
      StepHalt(prev, lines[n - 1], energyLine, terminated, parseFloat);
    }
  }

  /** The loop runs to the end exactly when no line halts it. */
  lemma {:induction false} GoingIff(lines: seq<string>, n: nat, energyLine: string -> bool, terminated: string, parseFloat: string -> Option<real>)
    requires n <= |lines|
    ensures ScanLines(lines[..n], energyLine, terminated, parseFloat).halt == Going <==> NoHalt(lines, n, energyLine)
    decreases n
  {
    if n > 0 {
      GoingIff(lines, n - 1, energyLine, terminated, parseFloat);
      GoingStep(lines, n, energyLine, terminated, parseFloat);
      assert NoHalt(lines, n, energyLine) <==> NoHalt(lines, n - 1, energyLine) && !Halts(lines[n - 1], energyLine);
    }
  }

  /** The first halting line decides: an error line gives
   *  ErrFileContainsError with no gradient, any other a panic. */
  lemma FirstHalt(lines: seq<string>, k: nat, energyLine: string -> bool, terminated: string, parseFloat: string -> Option<real>)
    requires k < |lines| && Halts(lines[k], energyLine)
    requires forall j :: 0 <= j < k ==> !Halts(lines[j], energyLine)
    ensures var out := Finish(ScanLines(lines, energyLine, terminated, parseFloat), parseFloat);
      if ErrorLine(lines[k]) then out.Ok? && out.value.err == FileContainsError && out.value.grad.None? else out.Err?
  {
    GoingIff(lines, k, energyLine, terminated, parseFloat);
    assert NoHalt(lines, k, energyLine);
    ScanPrefix(lines, k + 1, energyLine, terminated, parseFloat);
    StepHalt(ScanLines(lines[..k], energyLine, terminated, parseFloat), lines[k], energyLine, terminated, parseFloat);
    HaltStays(lines, k + 1, |lines|, energyLine, terminated, parseFloat);
    assert lines[..|lines|] == lines;
  }

  /** The line sets the energy: it is read for the energy and some field
   *  holding "=" has a successor. */
  predicate SetsEnergy(line: string, energyLine: string -> bool) {
    !ErrorLine(line) && EnergyRead(line, energyLine) && LastAssign(Fields(line), |Fields(line)|) >= 0
  }

  /** The energy a line that sets it gives. */
  function LineEnergy(line: string, parseFloat: string -> Option<real>): (Energy, Status)
    requires LastAssign(Fields(line), |Fields(line)|) >= 0
  {
    Parsed(Fields(line)[LastAssign(Fields(line), |Fields(line)|) + 1], parseFloat)
  }

  /** A line that neither halts nor sets the energy leaves it alone. */
  lemma StepEnergy(st: Scan, line: string, energyLine: string -> bool, terminated: string, parseFloat: string -> Option<real>)
    requires st.halt == Going && !Halts(line, energyLine)
    ensures var next := Step(st, line, energyLine, terminated, parseFloat);
      next.result == if SetsEnergy(line, energyLine) then LineEnergy(line, parseFloat).0 else st.result
  {
    var fields := Fields(line);
    EnergyFieldsLast(fields, |fields|, (st.result, st.err), parseFloat);
  }

  lemma EnergyStep(lines: seq<string>, n: nat, energyLine: string -> bool, terminated: string, parseFloat: string -> Option<real>)
    requires 0 < n <= |lines| && NoHalt(lines, n, energyLine)
    ensures ScanLines(lines[..n], energyLine, terminated, parseFloat).result
      == if SetsEnergy(lines[n - 1], energyLine) then LineEnergy(lines[n - 1], parseFloat).0
         else ScanLines(lines[..n - 1], energyLine, terminated, parseFloat).result
  {
    GoingIff(lines, n - 1, energyLine, terminated, parseFloat);
    assert NoHalt(lines, n - 1, energyLine);
    ScanPrefix(lines, n, energyLine, terminated, parseFloat);
    StepEnergy(ScanLines(lines[..n - 1], energyLine, terminated, parseFloat), lines[n - 1], energyLine, terminated, parseFloat);
  }

  lemma NoHaltPrefix(lines: seq<string>, n: nat, m: nat, energyLine: string -> bool)
    requires m <= n <= |lines| && NoHalt(lines, n, energyLine)
    ensures NoHalt(lines, m, energyLine)
  {
  }

  /** No line below n sets the energy. */
  predicate NoSets(lines: seq<string>, n: nat, energyLine: string -> bool)
    requires n <= |lines|
  {
    forall k :: 0 <= k < n ==> !SetsEnergy(lines[k], energyLine)
  }

  lemma LineEnergyRead(line: string, parseFloat: string -> Option<real>)
    requires LastAssign(Fields(line), |Fields(line)|) >= 0
    ensures LineEnergy(line, parseFloat).0 != Broken
  {
  }

  lemma BrokenStep(lines: seq<string>, n: nat, energyLine: string -> bool, terminated: string, parseFloat: string -> Option<real>)
    requires 0 < n <= |lines| && NoHalt(lines, n, energyLine)
    ensures ScanLines(lines[..n], energyLine, terminated, parseFloat).result == Broken
      <==> ScanLines(lines[..n - 1], energyLine, terminated, parseFloat).result == Broken && !SetsEnergy(lines[n - 1], energyLine)
  {
    EnergyStep(lines, n, energyLine, terminated, parseFloat);
    if SetsEnergy(lines[n - 1], energyLine) {
      LineEnergyRead(lines[n - 1], parseFloat);
    }
  }

  /** Without a halting line the energy stays brokenFloat exactly when no
   *  line sets it. */
  lemma {:induction false} BrokenIff(lines: seq<string>, n: nat, energyLine: string -> bool, terminated: string, parseFloat: string -> Option<real>)
    requires n <= |lines| && NoHalt(lines, n, energyLine)
    ensures ScanLines(lines[..n], energyLine, terminated, parseFloat).result == Broken <==> NoSets(lines, n, energyLine)
    decreases n
  {
    if n > 0 {
      NoHaltPrefix(lines, n, n - 1, energyLine);
      BrokenIff(lines, n - 1, energyLine, terminated, parseFloat);
      BrokenStep(lines, n, energyLine, terminated, parseFloat);
      assert NoSets(lines, n, energyLine) <==> NoSets(lines, n - 1, energyLine) && !SetsEnergy(lines[n - 1], energyLine);
    }
  }

  /** Without a halting line the energy is that of the last line that
   *  sets it. */
  lemma {:induction false} LastEnergyWins(lines: seq<string>, n: nat, k: nat, energyLine: string -> bool, terminated: string, parseFloat: string -> Option<real>)
    requires k < n <= |lines| && NoHalt(lines, n, energyLine)
    requires SetsEnergy(lines[k], energyLine)
    requires forall j :: k < j < n ==> !SetsEnergy(lines[j], energyLine)
    ensures ScanLines(lines[..n], energyLine, terminated, parseFloat).result == LineEnergy(lines[k], parseFloat).0
    decreases n
  {
    EnergyStep(lines, n, energyLine, terminated, parseFloat);
    if k < n - 1 {
      NoHaltPrefix(lines, n, n - 1, energyLine);
      LastEnergyWins(lines, n - 1, k, energyLine, terminated, parseFloat);
    }
  }

  /** Some line below n holds the termination text. */
  predicate Terminated(lines: seq<string>, n: nat, terminated: string)
    requires n <= |lines|
  {
    exists k :: 0 <= k < n && Contains(lines[k], terminated)
  }

  lemma StatusStep(lines: seq<string>, n: nat, energyLine: string -> bool, terminated: string, parseFloat: string -> Option<real>)
    requires 0 < n <= |lines| && NoHalt(lines, n, energyLine) && !SetsEnergy(lines[n - 1], energyLine)
    ensures var prev := ScanLines(lines[..n - 1], energyLine, terminated, parseFloat).err;
      ScanLines(lines[..n], energyLine, terminated, parseFloat).err
      == if Contains(lines[n - 1], terminated) && prev != Found then FinishedButNoEnergy else prev
  {
    GoingIff(lines, n - 1, energyLine, terminated, parseFloat);
    assert NoHalt(lines, n - 1, energyLine);
    ScanPrefix(lines, n, energyLine, terminated, parseFloat);
    StepStatus(ScanLines(lines[..n - 1], energyLine, terminated, parseFloat), lines[n - 1], energyLine, terminated, parseFloat);
  }

  /** A line that neither halts nor sets the energy changes the error
   *  only when it holds the termination text. */
  lemma StepStatus(st: Scan, line: string, energyLine: string -> bool, terminated: string, parseFloat: string -> Option<real>)
    requires st.halt == Going && !Halts(line, energyLine) && !SetsEnergy(line, energyLine)
    ensures Step(st, line, energyLine, terminated, parseFloat).err
      == if Contains(line, terminated) && st.err != Found then FinishedButNoEnergy else st.err
  {
    var fields := Fields(line);
    EnergyFieldsLast(fields, |fields|, (st.result, st.err), parseFloat);
  }

  /** Without a halting line or a line that sets the energy, the error is
   *  ErrFinishedButNoEnergy when some line holds the termination text and
   *  ErrEnergyNotFound otherwise. */
  lemma {:induction false} NoEnergyStatus(lines: seq<string>, n: nat, energyLine: string -> bool, terminated: string, parseFloat: string -> Option<real>)
    requires n <= |lines| && NoHalt(lines, n, energyLine) && NoSets(lines, n, energyLine)
    ensures ScanLines(lines[..n], energyLine, terminated, parseFloat).err
      == if Terminated(lines, n, terminated) then FinishedButNoEnergy else EnergyNotFound
    decreases n
  {
    if n > 0 {
      NoHaltPrefix(lines, n, n - 1, energyLine);
      NoEnergyStatus(lines, n - 1, energyLine, terminated, parseFloat);
      StatusStep(lines, n, energyLine, terminated, parseFloat);
      assert Terminated(lines, n, terminated) <==> Terminated(lines, n - 1, terminated) || Contains(lines[n - 1], terminated);
    }
  }

  // ---------------------------------------------------------------------
  // The Molpro struct

  class Molpro {
    var head: string
    var geometry: string
    var tail: string
    var opt: string
    var extra: string

    /** LoadMolpro over the template's scanner lines. */
    constructor LoadMolpro(lines: seq<string>)
      ensures head == Template(lines).head && tail == Template(lines).tail
      ensures opt == Template(lines).opt && extra == Template(lines).buf && geometry == ""
    {
      var p := NoParts;
      var n := 0;
      while n < |lines|
        invariant n <= |lines| && p == Template(lines[..n])
      {
        assert lines[..n + 1][..n] == lines[..n];
        var line := lines[n];
        if Contains(line, "optg") && !Contains(line, "gthresh") {
          p := p.(tail := p.buf, buf := "", opt := line + "\n");
        } else {
          p := p.(buf := p.buf + line + "\n");
          if Contains(line, "geometry=") {
            p := p.(head := p.buf, buf := "");
          }
        }
        n := n + 1;
      }
      assert lines[..n] == lines;
      head := p.head;
      geometry := "";
      tail := p.tail;
      opt := p.opt;
      extra := p.buf;
    }

    /** The text WriteInput writes to the input file. */
    method WriteInput(p: Procedure) returns (text: string)
      ensures text == Written(head, geometry, tail, opt, extra, p)
    {
      text := head + geometry + "\n" + tail;
      match p {
        case Opt => text := text + opt;
        case Freq => text := text + "{frequencies}\n";
        case NoProc =>
      }
      text := text + extra;
    }

    /** FormatZmat: ok is false for the "improper z-matrix" error. */
    method FormatZmat(geom: string) returns (ok: bool)
      modifies this
      ensures geometry == Zmat.Braced(geom)
      ensures ok <==> exists k :: 0 <= k < |Split(geom, "\n")| && Contains(Split(geom, "\n")[k], "=")
      ensures head == old(head) && tail == old(tail) && opt == old(opt) && extra == old(extra)
    {
      geometry, ok := Zmat.FormatZmat(geom);
    }

    method UpdateZmat(params: string)
      modifies this
      ensures geometry == Zmat.Updated(old(geometry), params)
      ensures head == old(head) && tail == old(tail) && opt == old(opt) && extra == old(extra)
    {
      geometry := Zmat.UpdateZmat(geometry, params);
    }

    /** AugmentHead: ok is false for the panic, which leaves Head as it was. */
    method AugmentHead() returns (ok: bool)
      modifies this
      ensures ok <==> Augmented(old(head)).Some?
      ensures head == if ok then Augmented(old(head)).value else old(head)
      ensures geometry == old(geometry) && tail == old(tail) && opt == old(opt) && extra == old(extra)
    {
      var lines := Split(head, "\n");
      var i := 0;
      while i < |lines|
        invariant i <= |lines| && lines == Split(old(head), "\n") && head == old(head)
        invariant forall k :: 0 <= k < i ==> !InsertsAt(lines, k)
      {
        if Contains(lines[i], "geometry") {
          if i == 0 {
            FirstInsertIs(lines, 0);
            return false;
          }
          if !Contains(lines[i - 1], "bohr") {
            FirstInsertIs(lines, i);
            head := Join(lines[..i] + [Added] + lines[i..], "\n");
            return true;
          }
        }
        i := i + 1;
      }
      FirstInsertIs(lines, i);
      return true;
    }

    /** ReadOut over the output file's lines, None when it cannot be
     *  read; Err is a panic. No field of the struct is read. */
    method ReadOut(file: Option<seq<string>>, energyLine: string -> bool, terminated: string, parseFloat: string -> Option<real>)
      returns (r: Result<Out, string>)
      ensures r == Classify(file, energyLine, terminated, parseFloat)
    {
      if file.None? {
        return Ok(Out(Broken, 0.0, None, FileNotFound));
      }
      var lines := file.value;
      if |lines| == 1 {
        if Contains(ToUpper(lines[0]), "ERROR") {
          return Ok(Out(Broken, 0.0, None, FileContainsError));
        }
        return Ok(Out(Broken, 0.0, None, BlankOutput));
      } else if |lines| == 0 {
        return Ok(Out(Broken, 0.0, None, BlankOutput));
      }
      var st := Start;
      var n := 0;
      while n < |lines|
        invariant n <= |lines| && st == ScanLines(lines[..n], energyLine, terminated, parseFloat)
        invariant st.halt == Going
      {
        ScanPrefix(lines, n + 1, energyLine, terminated, parseFloat);
        st := ReadLine(st, lines[n], energyLine, terminated, parseFloat);
        n := n + 1;
        if st.halt != Going {
          HaltStays(lines, n, |lines|, energyLine, terminated, parseFloat);
          assert lines[..|lines|] == lines;
          if st.halt == Errored {
            return Ok(Out(st.result, st.time, None, FileContainsError));
          }
          return Err("index out of range");
        }
      }
      assert lines[..n] == lines;
      if st.gradx.Some? {
        var xs := st.gradx.value;
        var ys := OrNil(st.grady);
        var zs := OrNil(st.gradz);
        if !(|xs| == |ys| && |xs| == |zs|) {
          return Err("Gradient dimension mismatch");
        }
        var grad := Gradient(xs, ys, zs, parseFloat);
        return Ok(Out(st.result, st.time, Some(grad), st.err));
      }
      return Ok(Out(st.result, st.time, None, st.err));
    }

    /** One pass of ReadOut's loop over a line, on its variables. */
    static method ReadLine(st: Scan, line: string, energyLine: string -> bool, terminated: string, parseFloat: string -> Option<real>)
      returns (next: Scan)
      requires st.halt == Going
      ensures next == Step(st, line, energyLine, terminated, parseFloat)
    {
      if Contains(ToLower(line), "error") && ErrorMatch(line) {
        return st.(err := FileContainsError, halt := Errored);
      }
      next := ReadBody(st, line, energyLine, parseFloat);
      if next.halt == Going && Contains(line, terminated) && next.err != Found {
        next := next.(err := FinishedButNoEnergy);
      }
    }

    /** The if-chain of ReadOut's loop on a line that is not an error
     *  line: the energy, the time or a gradient row. */
    static method ReadBody(st: Scan, line: string, energyLine: string -> bool, parseFloat: string -> Option<real>)
      returns (next: Scan)
      ensures next == Body(st, line, energyLine, parseFloat)
    {
      next := st;
      if energyLine(line) && !Contains(line, "gthresh") && !Contains(line, "hf") {
        var split := Fields(line);
        var e := AssignEnergy(split, (st.result, st.err), parseFloat);
        next := next.(result := e.0, err := e.1);
      } else if Contains(line, "REAL TIME") {
        var fields := Fields(line);
        if |fields| < 2 {
          return next.(halt := Panicked);
        }
        next := next.(time := OrZero(parseFloat(fields[|fields| - 2])));
      } else if Contains(line, "GRADX") || Contains(line, "GRADY") || Contains(line, "GRADZ") {
        var coords := ProcessGrad(line);
        if coords.None? {
          return next.(halt := Panicked);
        }
        if Contains(line, "GRADX") {
          next := next.(gradx := coords);
        } else if Contains(line, "GRADY") {
          next := next.(grady := coords);
        } else {
          next := next.(gradz := coords);
        }
      }
    }

    /** The loop over an energy line's fields. */
    static method AssignEnergy(split: seq<string>, start: (Energy, Status), parseFloat: string -> Option<real>) returns (e: (Energy, Status))
      ensures e == EnergyFields(split, |split|, start, parseFloat)
    {
      var result := start.0;
      var err := start.1;
      var i := 0;
      while i < |split|
        invariant i <= |split| && (result, err) == EnergyFields(split, i, start, parseFloat)
      {
        if Contains(split[i], "=") {
          if i + 1 < |split| {
            err := Found;
            match parseFloat(split[i + 1]) {
              case Some(v) =>
                result := Value(v);
              case None =>
                result := NaN;
                err := BadFloat;
            }
          }
        }
        i := i + 1;
      }
      e := (result, err);
    }

    /** The gradient loop after ReadOut's line loop. */
    static method Gradient(xs: seq<string>, ys: seq<string>, zs: seq<string>, parseFloat: string -> Option<real>) returns (ret: seq<real>)
      requires |xs| == |ys| == |zs|
      ensures ret == Interleave(xs, ys, zs, parseFloat)
    {
      ret := [];
      var i := 0;
      while i < |xs|
        invariant i <= |xs| && ret == Interleave(xs[..i], ys[..i], zs[..i], parseFloat)
      {
        assert xs[..i + 1][..i] == xs[..i] && ys[..i + 1][..i] == ys[..i] && zs[..i + 1][..i] == zs[..i];
        ret := ret + [OrZero(parseFloat(xs[i])), OrZero(parseFloat(ys[i])), OrZero(parseFloat(zs[i]))];
        i := i + 1;
      }
      assert xs[..i] == xs && ys[..i] == ys && zs[..i] == zs;
    }
  }
}
