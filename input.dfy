/** input.go: the struct-based Config (NewConfig, ProcessInput,
 *  ParseInfile, WhichProgram, ProcessGeom, ParseDeltas). The input file
 *  is given as its scanner lines; strconv.ParseFloat is a parameter, a
 *  compiled regular expression is held as its pattern text, and the PBS
 *  template as its text. */
module InputFile {
  import opened Text
  import opened Deltas

  /** Every field of Config, as one value. */
  datatype ConfigState = ConfigState(
    cluster: string, package: string, program: string, workQueue: string,
    delta: real, deltas: Option<seq<real>>,
    geometry: string, geomType: string, flags: string,
    deriv: int, jobLimit: int, chunkSize: int, checkInt: int, sleepInt: int,
    numCPUs: int, pbsMem: int,
    intder: string, spectro: string, ncoords: int,
    energyLine: string, pbsTmpl: string,
    queueSystem: string, molproTmpl: string, anpassTmpl: string, intderTmpl: string)

  /** The programs WhichProgram tells apart; each sets its own global
   *  (CART, GRAD, SIC), and cccr changes EnergyLine instead. */
  datatype ProgramKind = Cccr | Cart | Grad | Sic

  /** The energy line pattern NewConfig starts with. */
  const DefaultEnergyLine := "energy="

  /** The energy line pattern of the cccr program. */
  const CccrEnergyLine := "^\\s*CCCRE\\s+="

  /** What NewConfig returns, given the text of the maple PBS template. */
  function Defaults(pbsMaple: string): (c: ConfigState)
    ensures c.delta == 0.005 && c.deltas == None && c.deriv == 4 && c.chunkSize == 8
    ensures c.jobLimit == 1024 && c.geomType == "zmat" && c.program == "sic"
  {
    ConfigState(
      "maple", "molpro", "sic", "",
      0.005, None,
      "", "zmat", "",
      4, 1024, 8, 100, 60,
      1, 8,
      "", "", 0,
      DefaultEnergyLine, pbsMaple,
      "pbs", "molpro.in", "anpass.in", "intder.in")
  }

  // ---------------------------------------------------------------------
  // ProcessGeom

  /** The number of lines without "=". */
  function CountPlain(ls: seq<string>): (n: nat)
    ensures n <= |ls|
    decreases |ls|
  {
    if ls == [] then 0
    else CountPlain(ls[..|ls| - 1]) + if Contains(ls[|ls| - 1], "=") then 0 else 1
  }

  /** The count splits over a concatenation. */
  lemma {:induction false} CountPlainAppend(a: seq<string>, b: seq<string>)
    ensures CountPlain(a + b) == CountPlain(a) + CountPlain(b)
    decreases |b|
  {
    if b == [] {
      assert a + b == a;
    } else {
      var init := b[..|b| - 1];
      CountPlainAppend(a, init);
      assert (a + b)[..|a + b| - 1] == a + init;
    }
  }

  /** Without any "=", every line counts; with "=" in every line, none. */
  lemma {:induction false} CountPlainAll(ls: seq<string>)
    ensures (forall k :: 0 <= k < |ls| ==> !Contains(ls[k], "=")) ==> CountPlain(ls) == |ls|
    ensures (forall k :: 0 <= k < |ls| ==> Contains(ls[k], "=")) ==> CountPlain(ls) == 0
    decreases |ls|
  {
    if ls != [] {
      var init := ls[..|ls| - 1];
      CountPlainAll(init);
      assert forall k :: 0 <= k < |init| ==> init[k] == ls[k];
    }
  }

  /** The coordinate count ProcessGeom stores in Ncoords and whether the
   *  geometry is Cartesian; None for its panics: no geometry, an unknown
   *  geometry type, or an xyz geometry of one line (lines[2:] out of
   *  range). A zmat line without "=" is one coordinate; an xyz line
   *  without "=" after the first two is three. */
  function GeomCount(geometry: string, geomType: string): Option<(int, bool)> {
    if geometry == "" then None
    else
      var lines := Split(geometry, "\n");
      if geomType == "xyz" || geomType == "cart" then
        if |lines| < 2 then None else Some((3 * CountPlain(lines[2..]), true))
      else if geomType == "zmat" then Some((CountPlain(lines), false))
      else None
  }

  /** A zmat geometry whose lines hold no "=" has a coordinate per line; an
   *  xyz geometry has three per atom line after the count and comment. */
  lemma GeomCountPlain(geometry: string, geomType: string)
    requires geometry != ""
    requires var lines := Split(geometry, "\n"); forall k :: 0 <= k < |lines| ==> !Contains(lines[k], "=")
    ensures geomType == "zmat" ==> GeomCount(geometry, geomType) == Some((|Split(geometry, "\n")|, false))
    ensures (geomType == "xyz" || geomType == "cart") && |Split(geometry, "\n")| >= 2 ==>
      GeomCount(geometry, geomType) == Some((3 * (|Split(geometry, "\n")| - 2), true))
  {
    var lines := Split(geometry, "\n");
    CountPlainAll(lines);
    if |lines| >= 2 {
      var rest := lines[2..];
      assert forall k :: 0 <= k < |rest| ==> rest[k] == lines[k + 2];
      CountPlainAll(rest);
    }
  }

  /** "=" lines, the variable values of a zmat, add nothing. */
  lemma ParamLinesAddNothing(geometry: string, params: seq<string>)
    requires geometry != "" && forall k :: 0 <= k < |params| ==> Contains(params[k], "=")
    ensures CountPlain(Split(geometry, "\n") + params) == CountPlain(Split(geometry, "\n"))
  {
    CountPlainAll(params);
    CountPlainAppend(Split(geometry, "\n"), params);
  }

  // ---------------------------------------------------------------------
  // ParseDeltas

  /** What ParseDeltas returns for the text s with the step delta and
   *  ncoords coordinates; None for its panic "invalid deltas input". */
  function DeltasOf(s: string, delta: real, ncoords: int, parseFloat: string -> Option<real>): Option<seq<real>> {
    if s == "" then Some(Grow([], ncoords, delta)) else FromPairs(s, delta, ncoords, parseFloat)
  }

  /** The empty text gives ncoords copies of the step. */
  lemma DeltasEmpty(delta: real, ncoords: nat, parseFloat: string -> Option<real>)
    ensures var r := DeltasOf("", delta, ncoords, parseFloat);
      r.Some? && |r.value| == ncoords && forall k :: 0 <= k < ncoords ==> r.value[k] == delta
  {
    var g := Grow([], ncoords, delta);
    assert forall k :: 0 <= k < |g| ==> g[k] == delta;
  }

  // ---------------------------------------------------------------------
  // ProcessInput

  /** The fields of Config, in declaration order. */
  datatype Field =
    ClusterField | PackageField | ProgramField | WorkQueueField | DeltaField | DeltasField | GeometryField
    | GeomTypeField | FlagsField | DerivField | JobLimitField | ChunkSizeField | CheckIntField | SleepIntField
    | NumCPUsField | PBSMemField | IntderField | SpectroField | NcoordsField | EnergyLineField | PBSTmplField
    | QueueSystemField | MolproTmplField | AnpassTmplField | IntderTmplField

  /** A field's name in lower case, which is what a key must equal. */
  function FieldName(f: Field): string {
    match f
    case ClusterField => "cluster"
    case PackageField => "package"
    case ProgramField => "program"
    case WorkQueueField => "workqueue"
    case DeltaField => "delta"
    case DeltasField => "deltas"
    case GeometryField => "geometry"
    case GeomTypeField => "geomtype"
    case FlagsField => "flags"
    case DerivField => "deriv"
    case JobLimitField => "joblimit"
    case ChunkSizeField => "chunksize"
    case CheckIntField => "checkint"
    case SleepIntField => "sleepint"
    case NumCPUsField => "numcpus"
    case PBSMemField => "pbsmem"
    case IntderField => "intder"
    case SpectroField => "spectro"
    case NcoordsField => "ncoords"
    case EnergyLineField => "energyline"
    case PBSTmplField => "pbstmpl"
    case QueueSystemField => "queuesystem"
    case MolproTmplField => "molprotmpl"
    case AnpassTmplField => "anpasstmpl"
    case IntderTmplField => "intdertmpl"
  }

  /** The fields in declaration order. */
  const AllFields: seq<Field> := [
    ClusterField, PackageField, ProgramField, WorkQueueField, DeltaField,
    DeltasField, GeometryField, GeomTypeField, FlagsField, DerivField,
    JobLimitField, ChunkSizeField, CheckIntField, SleepIntField, NumCPUsField,
    PBSMemField, IntderField, SpectroField, NcoordsField, EnergyLineField,
    PBSTmplField, QueueSystemField, MolproTmplField, AnpassTmplField, IntderTmplField
  ]

  /** The first of fs whose name is key: the search over the struct's
   *  fields by reflection. */
  function Find(key: string, fs: seq<Field>): (r: Option<Field>)
    ensures r.Some? ==> FieldName(r.value) == key && r.value in fs
    ensures r.None? ==> forall f :: f in fs ==> FieldName(f) != key
    decreases |fs|
  {
    if fs == [] then None
    else if FieldName(fs[0]) == key then Some(fs[0])
    else Find(key, fs[1..])
  }

  /** The field a lower-cased key names, if any. */
  function FieldOf(key: string): Option<Field> {
    Find(key, AllFields)
  }

  /** Every field is found by its own name. */
  lemma FieldFound(f: Field)
    ensures FieldOf(FieldName(f)).Some? && FieldName(FieldOf(FieldName(f)).value) == FieldName(f)
  {
    assert f in AllFields;
  }

  /** The fields of type string, and EnergyLine whose pattern text is a
   *  string. */
  predicate Textual(f: Field) {
    f in {ClusterField, PackageField, ProgramField, WorkQueueField, GeometryField, GeomTypeField, FlagsField, IntderField, SpectroField, EnergyLineField, QueueSystemField, MolproTmplField, AnpassTmplField, IntderTmplField}
  }

  /** The fields of type int. */
  predicate Integral(f: Field) {
    f in {DerivField, JobLimitField, ChunkSizeField, CheckIntField, SleepIntField, NumCPUsField, PBSMemField, NcoordsField}
  }

  /** The textual field f set to val. */
  function WithText(c: ConfigState, f: Field, val: string): ConfigState
    requires Textual(f)
  {
    match f
    case ClusterField => c.(cluster := val)
    case PackageField => c.(package := val)
    case ProgramField => c.(program := val)
    case WorkQueueField => c.(workQueue := val)
    case GeometryField => c.(geometry := val)
    case GeomTypeField => c.(geomType := val)
    case FlagsField => c.(flags := val)
    case IntderField => c.(intder := val)
    case SpectroField => c.(spectro := val)
    case EnergyLineField => c.(energyLine := val)
    case QueueSystemField => c.(queueSystem := val)
    case MolproTmplField => c.(molproTmpl := val)
    case AnpassTmplField => c.(anpassTmpl := val)
    case IntderTmplField => c.(intderTmpl := val)
  }

  /** The int field f set to v. */
  function WithInt(c: ConfigState, f: Field, v: int): ConfigState
    requires Integral(f)
  {
    match f
    case DerivField => c.(deriv := v)
    case JobLimitField => c.(jobLimit := v)
    case ChunkSizeField => c.(chunkSize := v)
    case CheckIntField => c.(checkInt := v)
    case SleepIntField => c.(sleepInt := v)
    case NumCPUsField => c.(numCPUs := v)
    case PBSMemField => c.(pbsMem := v)
    case NcoordsField => c.(ncoords := v)
  }

  /** The value key=val stores in field f: a string field takes val,
   *  EnergyLine compiles it, an int field or Delta takes val parsed (or
   *  panics), Deltas is parsed with the Delta and Ncoords of that moment,
   *  and the template field panics ("uncaught type"). */
  function StoreField(c: ConfigState, f: Field, val: string, parseFloat: string -> Option<real>): Option<ConfigState> {
    if Textual(f) then Some(WithText(c, f, val))
    else if Integral(f) then
      match Atoi(val)
      case None => None
      case Some(v) => Some(WithInt(c, f, v))
    else if f == DeltaField then
      match parseFloat(val)
      case None => None
      case Some(v) => Some(c.(delta := v))
    else if f == DeltasField then
      match DeltasOf(val, c.delta, c.ncoords, parseFloat)
      case None => None
      case Some(d) => Some(c.(deltas := Some(d)))
    else None
  }

  /** A key naming no field changes nothing. */
  function Store(c: ConfigState, key: string, val: string, parseFloat: string -> Option<real>): Option<ConfigState> {
    match FieldOf(key)
    case None => Some(c)
    case Some(f) => StoreField(c, f, val, parseFloat)
  }

  /** ProcessInput on one line: the key is the text before the first "="
   *  in lower case, the value everything after it; a line without "="
   *  panics. */
  function Assign(c: ConfigState, line: string, parseFloat: string -> Option<real>): Option<ConfigState> {
    var split := SplitTwo(line, "=");
    if |split| < 2 then None else Store(c, ToLower(split[0]), split[1], parseFloat)
  }

  /** strings.SplitN(s, sep, 2): the text before the first sep and the
   *  rest, or s alone when sep does not occur. */
  function SplitTwo(s: string, sep: string): (r: seq<string>)
    requires sep != ""
    ensures 1 <= |r| <= 2 && (|r| == 2 <==> Contains(s, sep))
  {
    var i := Index(s, sep);
    if i < 0 then [s] else [s[..i], s[i + |sep|..]]
  }

  /** Keys are matched without regard to case, and the value keeps any
   *  further "=". */
  lemma AssignKey(c: ConfigState, key: string, val: string, parseFloat: string -> Option<real>)
    requires !Contains(key, "=")
    ensures Assign(c, key + "=" + val, parseFloat) == Store(c, ToLower(key), val, parseFloat)
    ensures Assign(c, key + "=" + val, parseFloat) == Assign(c, ToLower(key) + "=" + val, parseFloat)
  {
    FirstAfter(key, val);
    FirstAfter(ToLower(key), val) by {
      LowerKeepsNoEquals(key);
    }
    LowerTwice(key);
    assert (key + "=" + val)[..|key|] == key;
    assert (key + "=" + val)[|key| + 1..] == val;
    assert (ToLower(key) + "=" + val)[..|key|] == ToLower(key);
    assert (ToLower(key) + "=" + val)[|key| + 1..] == val;
  }

  /** In key + "=" + val, the first "=" follows the key. */
  lemma FirstAfter(key: string, val: string)
    requires !Contains(key, "=")
    ensures Index(key + "=" + val, "=") == |key|
  {
    var s := key + "=" + val;
    assert OccursAt(s, "=", |key|) by {
      assert s[|key|..|key| + 1] == "=";
    }
    var i := Index(s, "=");
    if i < |key| {
      assert OccursAt(s, "=", i);
      assert s[i..i + 1] == key[i..i + 1];
      assert OccursAt(key, "=", i);
      OccursContains(key, "=", i);
    }
  }

  /** Lower case leaves "=" where it was. */
  lemma LowerKeepsNoEquals(key: string)
    requires !Contains(key, "=")
    ensures !Contains(ToLower(key), "=")
  {
    var l := ToLower(key);
    if Contains(l, "=") {
      var i := Index(l, "=");
      assert l[i..i + 1] == "=" && l[i] == '=';
      assert key[i] == '=';
      assert key[i..i + 1] == "=";
      OccursContains(key, "=", i);
    }
  }

  lemma LowerTwice(s: string)
    ensures ToLower(ToLower(s)) == ToLower(s)
  {
  }

  /** A line without "=" panics. */
  lemma NoEqualsPanics(c: ConfigState, line: string, parseFloat: string -> Option<real>)
    requires !Contains(line, "=")
    ensures Assign(c, line, parseFloat) == None
  {
  }

  // ---------------------------------------------------------------------
  // ParseInfile

  /** The scanner state: the block text, whether a block is open, and the
   *  lines handed to ProcessInput so far. */
  datatype Scan = Scan(block: string, inblock: bool, calls: seq<string>)

  /** The cases of ParseInfile's switch, in its order. */
  datatype LineKind = Skip | Close | Open(keyword: string) | Plain

  /** Blank lines and "#" comments are skipped, a line with "}" closes a
   *  block, a line with "{" opens one named by the text before the "{",
   *  and any other line is plain. */
  function Classify(line: string): LineKind {
    if TrimSpace(line) == "" then Skip
    else if |line| > 0 && line[0] == '#' then Skip
    else if Contains(line, "}") then Close
    else if Contains(line, "{") then Open(line[..Index(line, "{")])
    else Plain
  }

  /** One input line: "}" hands the block over, trimmed; "{" adds the
   *  keyword to the block and opens it; inside a block a plain line goes
   *  into it with a newline; any other plain line is handed over on its
   *  own. */
  function InfileStep(sc: Scan, line: string): Scan {
    match Classify(line)
    case Skip => sc
    case Close => Scan("", false, sc.calls + [TrimSpace(sc.block)])
    case Open(keyword) => sc.(block := sc.block + keyword, inblock := true)
    case Plain => if sc.inblock then sc.(block := sc.block + line + "\n") else sc.(calls := sc.calls + [line])
  }

  function Scanned(lines: seq<string>): Scan
    decreases |lines|
  {
    if lines == [] then Scan("", false, [])
    else InfileStep(Scanned(lines[..|lines| - 1]), lines[|lines| - 1])
  }

  /** ProcessInput on each call in order; None if one panics. */
  function AssignAll(c: ConfigState, calls: seq<string>, parseFloat: string -> Option<real>): Option<ConfigState>
    decreases |calls|
  {
    if calls == [] then Some(c)
    else
      match AssignAll(c, calls[..|calls| - 1], parseFloat)
      case None => None
      case Some(c') => Assign(c', calls[|calls| - 1], parseFloat)
  }

  /** WhichProgram: the program kind, the new state, or None for its
   *  panic on an unknown program. */
  function Program(c: ConfigState): Option<(ProgramKind, ConfigState)> {
    if c.program == "cccr" then Some((Cccr, c.(energyLine := CccrEnergyLine)))
    else if c.program == "cart" || c.program == "gocart" then Some((Cart, c))
    else if c.program == "grad" then Some((Grad, c))
    else if c.program == "molpro" || c.program == "" || c.program == "sic" then Some((Sic, c))
    else None
  }

  /** After the lines: ProcessGeom, a nil Deltas parsed from "", and
   *  WhichProgram. */
  function Finished(c: ConfigState, parseFloat: string -> Option<real>): Option<(ProgramKind, ConfigState)> {
    match GeomCount(c.geometry, c.geomType)
    case None => None
    case Some(g) =>
      var c1 := c.(ncoords := g.0);
      var c2 := if c1.deltas.None? then c1.(deltas := Some(Grow([], c1.ncoords, c1.delta))) else c1;
      Program(c2)
  }

  /** ParseInfile from the state c: the calls, then Finish. */
  function Infile(c: ConfigState, lines: seq<string>, parseFloat: string -> Option<real>): Option<(ProgramKind, ConfigState)> {
    match AssignAll(c, Scanned(lines).calls, parseFloat)
    case None => None
    case Some(c') => Finished(c', parseFloat)
  }

  /** Blank and comment lines change nothing. */
  lemma SkippedLines(sc: Scan, line: string)
    requires TrimSpace(line) == "" || (|line| > 0 && line[0] == '#')
    ensures Classify(line) == Skip && InfileStep(sc, line) == sc
  {
  }

  /** A block: the "{" line's keyword, then each inner line and a newline,
   *  handed over as one trimmed call when "}" comes; outside a block each
   *  line is its own call. */
  lemma {:induction false} BlockLines(sc: Scan, inner: seq<string>)
    requires sc.inblock && AllInBlock(inner)
    ensures Fold(sc, inner) == sc.(block := sc.block + Lines(inner))
    decreases |inner|
  {
    if inner == [] {
      assert sc.block + Lines(inner) == sc.block;
    } else {
      var init, last := inner[..|inner| - 1], inner[|inner| - 1];
      BlockLines(sc, init);
      BlockLast(sc, init, last);
      assert init + [last] == inner;
    }
  }

  /** The block step on one more plain line. */
  lemma BlockLast(sc: Scan, init: seq<string>, last: string)
    requires sc.inblock && InBlock(last) && Fold(sc, init) == sc.(block := sc.block + Lines(init))
    ensures Fold(sc, init + [last]) == sc.(block := sc.block + Lines(init + [last]))
  {
    var sc1 := Fold(sc, init);
    FoldSnoc(sc, init, last);
    BlockStep(sc1, last);
    LinesSnoc(init, last);
    Assoc(sc.block, Lines(init), last + "\n");
  }

  lemma FoldSnoc(sc: Scan, init: seq<string>, last: string)
    ensures Fold(sc, init + [last]) == InfileStep(Fold(sc, init), last)
  {
    assert (init + [last])[..|init|] == init;
  }

  lemma LinesSnoc(init: seq<string>, last: string)
    ensures Lines(init + [last]) == Lines(init) + (last + "\n")
  {
    assert (init + [last])[..|init|] == init;
    Assoc(Lines(init), last, "\n");
  }

  /** Inside a block a plain line only goes into the block. */
  lemma BlockStep(sc: Scan, line: string)
    requires sc.inblock && InBlock(line)
    ensures InfileStep(sc, line) == sc.(block := sc.block + (line + "\n"))
  {
    assert sc.block + line + "\n" == sc.block + (line + "\n");
  }

  /** Every line goes into an open block. */
  predicate AllInBlock(ls: seq<string>)
    decreases |ls|
  {
    ls == [] || (AllInBlock(ls[..|ls| - 1]) && InBlock(ls[|ls| - 1]))
  }

  lemma {:induction false} AllInBlockOf(ls: seq<string>)
    requires forall k :: 0 <= k < |ls| ==> InBlock(ls[k])
    ensures AllInBlock(ls)
    decreases |ls|
  {
    if ls != [] {
      var init := ls[..|ls| - 1];
      assert forall k :: 0 <= k < |init| ==> init[k] == ls[k];
      AllInBlockOf(init);
    }
  }

  /** A line that goes into an open block. */
  predicate InBlock(line: string) {
    Classify(line) == Plain
  }

  /** The steps from sc over lines. */
  function Fold(sc: Scan, lines: seq<string>): Scan
    decreases |lines|
  {
    if lines == [] then sc
    else InfileStep(Fold(sc, lines[..|lines| - 1]), lines[|lines| - 1])
  }

  lemma {:induction false} FoldAppend(sc: Scan, a: seq<string>, b: seq<string>)
    ensures Fold(sc, a + b) == Fold(Fold(sc, a), b)
    decreases |b|
  {
    if b == [] {
      assert a + b == a;
    } else {
      FoldAppend(sc, a, b[..|b| - 1]);
      assert (a + b)[..|a + b| - 1] == a + b[..|b| - 1];
    }
  }

  lemma {:induction false} ScannedFold(lines: seq<string>)
    ensures Scanned(lines) == Fold(Scan("", false, []), lines)
    decreases |lines|
  {
    if lines != [] {
      ScannedFold(lines[..|lines| - 1]);
    }
  }

  /** A whole block from a closed state: "key{" then plain lines then "}"
   *  hands over key + the lines, trimmed. */
  lemma WholeBlock(sc: Scan, open: string, inner: seq<string>, close: string)
    requires !sc.inblock && sc.block == ""
    requires Classify(open).Open? && Classify(close) == Close
    requires forall k :: 0 <= k < |inner| ==> InBlock(inner[k])
    ensures Fold(sc, [open] + inner + [close]) ==
      Scan("", false, sc.calls + [TrimSpace(Classify(open).keyword + Lines(inner))])
  {
    var key := Classify(open).keyword;
    var sc1 := InfileStep(sc, open);
    assert sc1 == sc.(block := key, inblock := true);
    assert Fold(sc, [open]) == sc1 by {
      assert [open][..0] == [];
    }
    AllInBlockOf(inner);
    BlockLines(sc1, inner);
    FoldAppend(sc, [open], inner);
    FoldAppend(sc, [open] + inner, [close]);
    var sc2 := Fold(sc, [open] + inner);
    assert Fold(sc2, [close]) == InfileStep(sc2, close) by {
      assert [close][..0] == [];
    }
  }

  /** Finish always leaves Deltas set. */
  lemma FinishedDeltas(c: ConfigState, parseFloat: string -> Option<real>)
    requires Finished(c, parseFloat).Some?
    ensures var r := Finished(c, parseFloat).value.1;
      r.deltas.Some? && r.ncoords == GeomCount(c.geometry, c.geomType).value.0
    ensures c.deltas.None? ==> var r := Finished(c, parseFloat).value.1;
      |r.deltas.value| == (if r.ncoords < 0 then 0 else r.ncoords) &&
      forall k :: 0 <= k < |r.deltas.value| ==> r.deltas.value[k] == c.delta
    ensures c.deltas.Some? ==> Finished(c, parseFloat).value.1.deltas == c.deltas
  {
  }

  // ---------------------------------------------------------------------
  // The Config object

  /** A Config variable (the global Conf, or what a *Config points to): the
   *  struct value its pointer-receiver methods rewrite field by field. */
  class Config {
    var state: ConfigState

    /** NewConfig: every field at its default. */
    constructor NewConfig(pbsMaple: string)
      ensures state == Defaults(pbsMaple)
    {
      state := ConfigState(
        "maple", "molpro", "sic", "",
        0.005, None,
        "", "zmat", "",
        4, 1024, 8, 100, 60,
        1, 8,
        "", "", 0,
        DefaultEnergyLine, pbsMaple,
        "pbs", "molpro.in", "anpass.in", "intder.in");
    }

    /** ProcessGeom: sets Ncoords from the geometry and returns whether it
     *  is Cartesian; ok is false for its panics. */
    method ProcessGeom() returns (ok: bool, cart: bool)
      modifies this
      ensures var g := GeomCount(old(state).geometry, old(state).geomType);
        ok == g.Some? && (ok ==> cart == g.value.1 && state == old(state).(ncoords := g.value.0))
    {
      cart := false;
      if state.geometry == "" {
        return false, cart;
      }
      var lines := Split(state.geometry, "\n");
      var start, incr := 0, 0;
      if state.geomType == "xyz" || state.geomType == "cart" {
        start, cart, incr := 2, true, 3;
      } else if state.geomType == "zmat" {
        incr := 1;
      } else {
        return false, cart;
      }
      if start > |lines| {
        return false, cart;
      }
      var n := CountLines(lines[start..], incr);
      state := state.(ncoords := n);
      ok := true;
    }

    /** The loop of ProcessGeom: incr for every line without "=". */
    static method CountLines(ls: seq<string>, incr: int) returns (n: int)
      ensures n == incr * CountPlain(ls)
    {
      n := 0;
      var i := 0;
      while i < |ls|
        invariant i <= |ls| && n == incr * CountPlain(ls[..i])
      {
        assert ls[..i + 1][..i] == ls[..i];
        if !Contains(ls[i], "=") {
          n := n + incr;
        }
        i := i + 1;
      }
      assert ls[..i] == ls;
    }

    /** ParseDeltas: the steps for the text s, from Delta and Ncoords;
     *  None for its panic. Config is not changed. */
    method ParseDeltas(s: string, parseFloat: string -> Option<real>) returns (r: Option<seq<real>>)
      ensures r == DeltasOf(s, state.delta, state.ncoords, parseFloat)
    {
      var ret: seq<real> := [];
      if s != "" {
        var placed := ApplyPairs(Split(s, ","), state.delta, parseFloat);
        if placed.None? {
          return None;
        }
        ret := placed.value;
      }
      ret := GrowTo(ret, state.ncoords, state.delta);
      r := Some(ret);
    }

    /** ProcessInput on one line; ok is false for its panics. */
    method ProcessInput(line: string, parseFloat: string -> Option<real>) returns (ok: bool)
      modifies this
      ensures var a := Assign(old(state), line, parseFloat); ok == a.Some? && (ok ==> state == a.value)
    {
      var split := SplitTwo(line, "=");
      if |split| < 2 {
        return false;
      }
      var key, val := ToLower(split[0]), split[1];
      var f := FieldOf(key);
      if f.None? {
        return true;
      }
      ok := SetField(f.value, val, parseFloat);
    }

    /** The field f set from the text val; ok is false for a panic. */
    method SetField(f: Field, val: string, parseFloat: string -> Option<real>) returns (ok: bool)
      modifies this
      ensures var a := StoreField(old(state), f, val, parseFloat); ok == a.Some? && (ok ==> state == a.value)
    {
      if Textual(f) {
        state := WithText(state, f, val);
      } else if Integral(f) {
        var v := Atoi(val);
        if v.None? {
          return false;
        }
        state := WithInt(state, f, v.value);
      } else if f == DeltaField {
        var v := parseFloat(val);
        if v.None? {
          return false;
        }
        state := state.(delta := v.value);
      } else if f == DeltasField {
        var d := ParseDeltas(val, parseFloat);
        if d.None? {
          return false;
        }
        state := state.(deltas := d);
      } else {
        return false;
      }
      ok := true;
    }

    /** WhichProgram: the program kind; ok is false for its panic. */
    method WhichProgram() returns (ok: bool, kind: ProgramKind)
      modifies this
      ensures var p := Program(old(state)); ok == p.Some? && (ok ==> kind == p.value.0 && state == p.value.1)
    {
      kind := Sic;
      var program := state.program;
      if program == "cccr" {
        state := state.(energyLine := CccrEnergyLine);
        kind := Cccr;
      } else if program == "cart" || program == "gocart" {
        kind := Cart;
      } else if program == "grad" {
        kind := Grad;
      } else if !(program == "molpro" || program == "" || program == "sic") {
        return false, kind;
      }
      ok := true;
    }

    /** ParseInfile: the scanner loop handing lines to ProcessInput, then
     *  ProcessGeom, the default Deltas and WhichProgram; ok is false for a
     *  panic, after which the fields are not specified. */
    method ParseInfile(lines: seq<string>, parseFloat: string -> Option<real>) returns (ok: bool, kind: ProgramKind)
      modifies this
      ensures var r := Infile(old(state), lines, parseFloat);
        ok == r.Some? && (ok ==> kind == r.value.0 && state == r.value.1)
    {
      kind := Sic;
      ghost var start := state;
      var block, inblock := "", false;
      var i := 0;
      while i < |lines|
        invariant i <= |lines|
        invariant Scanned(lines[..i]).block == block && Scanned(lines[..i]).inblock == inblock
        invariant AssignAll(start, Scanned(lines[..i]).calls, parseFloat) == Some(state)
      {
        ScannedNext(lines, i);
        ok, block, inblock := ScanLine(start, Scanned(lines[..i]), lines[i], block, inblock, parseFloat);
        if !ok {
          Stuck(start, Scanned(lines[..i + 1]).calls, lines, i + 1, parseFloat);
          return;
        }
        i := i + 1;
      }
      assert lines[..i] == lines;
      InfileThen(start, lines, state, parseFloat);
      ok, kind := Finish(parseFloat);
    }

    /** One scanner line: skipped, handed to ProcessInput (alone, or as the
     *  trimmed block at "}"), or added to the block. */
    method ScanLine(ghost start: ConfigState, ghost sc: Scan, line: string, block: string, inblock: bool,
                    parseFloat: string -> Option<real>)
      returns (ok: bool, block': string, inblock': bool)
      requires sc.block == block && sc.inblock == inblock && AssignAll(start, sc.calls, parseFloat) == Some(state)
      modifies this
      ensures var next := InfileStep(sc, line);
        if ok then next.block == block' && next.inblock == inblock' && AssignAll(start, next.calls, parseFloat) == Some(state)
        else AssignAll(start, next.calls, parseFloat) == None
    {
      ok, block', inblock' := true, block, inblock;
      match Classify(line) {
        case Skip =>
        case Close =>
          inblock' := false;
          ok := HandOver(start, sc.calls, TrimSpace(block), parseFloat);
          block' := "";
        case Open(keyword) =>
          block' := block + keyword;
          inblock' := true;
        case Plain =>
          if inblock {
            block' := block + line + "\n";
          } else {
            ok := HandOver(start, sc.calls, line, parseFloat);
          }
      }
    }

    /** ProcessInput on the next call. */
    method HandOver(ghost start: ConfigState, ghost calls: seq<string>, call: string, parseFloat: string -> Option<real>)
      returns (ok: bool)
      requires AssignAll(start, calls, parseFloat) == Some(state)
      modifies this
      ensures if ok then AssignAll(start, calls + [call], parseFloat) == Some(state)
        else AssignAll(start, calls + [call], parseFloat) == None
    {
      ok := ProcessInput(call, parseFloat);
      assert (calls + [call])[..|calls|] == calls;
    }

    /** The end of ParseInfile: ProcessGeom, Deltas parsed from "" when
     *  nil, and WhichProgram. */
    method Finish(parseFloat: string -> Option<real>) returns (ok: bool, kind: ProgramKind)
      modifies this
      ensures var r := Finished(old(state), parseFloat); ok == r.Some? && (ok ==> kind == r.value.0 && state == r.value.1)
    {
      kind := Sic;
      var cart;
      ok, cart := ProcessGeom();
      if !ok {
        return;
      }
      if state.deltas.None? {
        var d := ParseDeltas("", parseFloat);
        state := state.(deltas := d);
      }
      ok, kind := WhichProgram();
    }
  }

  lemma ScannedNext(lines: seq<string>, i: nat)
    requires i < |lines|
    ensures Scanned(lines[..i + 1]) == InfileStep(Scanned(lines[..i]), lines[i])
  {
    assert lines[..i + 1][..i] == lines[..i];
  }

  /** Once every call went through, ParseInfile is Finished on the result. */
  lemma InfileThen(start: ConfigState, lines: seq<string>, c: ConfigState, parseFloat: string -> Option<real>)
    requires AssignAll(start, Scanned(lines).calls, parseFloat) == Some(c)
    ensures Infile(start, lines, parseFloat) == Finished(c, parseFloat)
  {
  }

  /** Once a call panics, ParseInfile panics whatever lines follow. */
  lemma {:induction false} Stuck(c: ConfigState, calls: seq<string>, lines: seq<string>, i: nat, parseFloat: string -> Option<real>)
    requires i <= |lines| && calls == Scanned(lines[..i]).calls && AssignAll(c, calls, parseFloat) == None
    ensures Infile(c, lines, parseFloat) == None
    decreases |lines| - i
  {
    if i < |lines| {
      assert lines[..i + 1][..i] == lines[..i];
      var next := Scanned(lines[..i + 1]).calls;
      CallsGrow(Scanned(lines[..i]), lines[i]);
      if next != calls {
        AssignAllNone(c, calls, next[|next| - 1], parseFloat);
      }
      Stuck(c, next, lines, i + 1, parseFloat);
    } else {
      assert lines[..i] == lines;
    }
  }

  /** A step hands over at most one call. */
  lemma CallsGrow(sc: Scan, line: string)
    ensures var n := InfileStep(sc, line).calls; n == sc.calls || n == sc.calls + [n[|n| - 1]]
  {
  }

  /** A panic stays a panic whatever calls follow. */
  lemma AssignAllNone(c: ConfigState, calls: seq<string>, x: string, parseFloat: string -> Option<real>)
    requires AssignAll(c, calls, parseFloat) == None
    ensures AssignAll(c, calls + [x], parseFloat) == None
  {
    assert (calls + [x])[..|calls|] == calls;
  }
}
