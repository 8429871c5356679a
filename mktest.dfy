/** scripts/mktest.py: reads Molpro output files, takes from each the
 *  geometry block and the last energy, and prints a JSON object mapping each
 *  JSON-encoded geometry to {"Energy": e, "Gradient": null}: the fixture the
 *  fake Molpro executables load. The file listing (glob "job*.out") is a
 *  parameter; each file is its sequence of lines, each keeping its "\n". */
module Mktest {
  import opened Text
  import opened GeomBlock
  import opened Json

  /** The script's `energy`: the int 0 it starts as, or a parsed float. */
  datatype Energy = IntZero | Float(x: real)

  /** The loop variables of `parse`. */
  datatype ParseState = ParseState(ingeom: bool, buf: string, energy: Energy)

  datatype Parsed = Parsed(geometry: string, energy: Energy)

  const Start := ParseState(false, "", IntZero)

  /** The last whitespace field of an "energy= " line, which float() reads. */
  function EnergyToken(line: string): string
    requires Contains(line, "energy= ")
  {
    ContainsFields(line, "energy= ", 0);
    var f := Fields(line);
    f[|f| - 1]
  }

  /** One pass of the loop in `parse`. Err(line) is the ValueError that
   *  float() raises on a token it cannot read. */
  function Step(st: ParseState, line: string, toFloat: string -> Option<real>): Result<ParseState, string> {
    if Opens(line) then Ok(st.(ingeom := true))
    else if st.ingeom && Contains(line, "}") then Ok(st.(ingeom := false))
    else if st.ingeom then Ok(st.(buf := st.buf + LStrip(line)))
    else if Contains(line, "energy= ") then
      match toFloat(EnergyToken(line))
      case Some(x) => Ok(st.(energy := Float(x)))
      case None => Err(line)
    else Ok(st)
  }

  /** The loop of `parse` over the lines ls; it stops at the first error. */
  function Scan(ls: seq<string>, toFloat: string -> Option<real>): Result<ParseState, string>
    decreases |ls|
  {
    if ls == [] then Ok(Start)
    else
      match Scan(ls[..|ls| - 1], toFloat)
      case Err(e) => Err(e)
      case Ok(st) => Step(st, ls[|ls| - 1], toFloat)
  }

  function ParseResult(ls: seq<string>, toFloat: string -> Option<real>): Result<Parsed, string> {
    match Scan(ls, toFloat)
    case Ok(st) => Ok(Parsed(st.buf, st.energy))
    case Err(e) => Err(e)
  }

  lemma {:induction false} ScanErrSticky(ls: seq<string>, i: nat, toFloat: string -> Option<real>)
    requires i <= |ls| && Scan(ls[..i], toFloat).Err?
    ensures Scan(ls, toFloat) == Scan(ls[..i], toFloat)
    decreases |ls| - i
  {
    if i < |ls| {
      assert ls[..i + 1][..i] == ls[..i];
      ScanErrSticky(ls, i + 1, toFloat);
    } else {
      assert ls[..i] == ls;
    }
  }

  /** `parse(filename)`, over the file's lines. */
  method Parse(lines: seq<string>, toFloat: string -> Option<real>) returns (r: Result<Parsed, string>)
    ensures r == ParseResult(lines, toFloat)
  {
    var ingeom := false;
    var buf := "";
    var energy := IntZero;
    var i := 0;
    while i < |lines|
      invariant 0 <= i <= |lines|
      invariant Scan(lines[..i], toFloat) == Ok(ParseState(ingeom, buf, energy))
    {
      var line := lines[i];
      assert lines[..i + 1][..i] == lines[..i];
      if Contains(line, "geometry={") {
        ingeom := true;
      } else if ingeom && Contains(line, "}") {
        ingeom := false;
      } else if ingeom {
        buf := buf + LStrip(line);
      } else if Contains(line, "energy= ") {
        match toFloat(EnergyToken(line))
        case Some(x) =>
          energy := Float(x);
        case None =>
          ScanErrSticky(lines, i + 1, toFloat);
          return Err(line);
      }
      i := i + 1;
    }
    assert lines[..i] == lines;
    return Ok(Parsed(buf, energy));
  }

  // ---------------------------------------------------------------------
  // What `parse` computes, stated line by line

  /** Line k is read as an energy: outside any block, not an opener, and
   *  holding "energy= ". */
  predicate EnergyLine(ls: seq<string>, k: int)
    requires 0 <= k < |ls|
  {
    !OpenBefore(ls, k) && !Opens(ls[k]) && Contains(ls[k], "energy= ")
  }

  predicate BadEnergy(ls: seq<string>, k: int, toFloat: string -> Option<real>)
    requires 0 <= k < |ls|
  {
    EnergyLine(ls, k) && toFloat(EnergyToken(ls[k])).None?
  }

  /** The left-stripped body lines among the first n lines, in order. */
  function BodyText(ls: seq<string>, n: nat): string
    requires n <= |ls|
  {
    if n == 0 then ""
    else BodyText(ls, n - 1) + (if Body(ls, n - 1) then LStrip(ls[n - 1]) else "")
  }

  /** The value of the last energy line among the first n lines, searching
   *  backwards; IntZero when there is none. */
  function LastEnergy(ls: seq<string>, n: nat, toFloat: string -> Option<real>): Energy
    requires n <= |ls|
  {
    if n == 0 then IntZero
    else if EnergyLine(ls, n - 1) then
      match toFloat(EnergyToken(ls[n - 1]))
      case Some(x) => Float(x)
      case None => IntZero
    else LastEnergy(ls, n - 1, toFloat)
  }

  /** No energy line among the first n lines has an unreadable token. */
  predicate NoBad(ls: seq<string>, n: nat, toFloat: string -> Option<real>)
    requires n <= |ls|
  {
    forall k :: 0 <= k < n ==> !BadEnergy(ls, k, toFloat)
  }

  /** e is the first unreadable energy line among the first n lines. */
  predicate FirstBad(ls: seq<string>, n: nat, e: string, toFloat: string -> Option<real>)
    requires n <= |ls|
  {
    exists k :: 0 <= k < n && BadEnergy(ls, k, toFloat) && e == ls[k] && NoBad(ls, k, toFloat)
  }

  /** The loop state after n lines, stated line by line. */
  predicate Tracks(ls: seq<string>, n: nat, r: Result<ParseState, string>, toFloat: string -> Option<real>)
    requires n <= |ls|
  {
    && (r.Ok? ==>
      && NoBad(ls, n, toFloat)
      && r.value.ingeom == OpenBefore(ls, n)
      && r.value.buf == BodyText(ls, n)
      && r.value.energy == LastEnergy(ls, n, toFloat))
    && (r.Err? ==> FirstBad(ls, n, r.error, toFloat))
  }

  lemma {:induction false} ScanPrefix(ls: seq<string>, n: nat, toFloat: string -> Option<real>)
    requires n <= |ls|
    ensures Tracks(ls, n, Scan(ls[..n], toFloat), toFloat)
    decreases n
  {
    if n > 0 {
      ScanPrefix(ls, n - 1, toFloat);
      ScanStep(ls, n, toFloat);
    }
  }

  lemma ScanStep(ls: seq<string>, n: nat, toFloat: string -> Option<real>)
    requires 0 < n <= |ls| && Tracks(ls, n - 1, Scan(ls[..n - 1], toFloat), toFloat)
    ensures Tracks(ls, n, Scan(ls[..n], toFloat), toFloat)
  {
    assert ls[..n][..n - 1] == ls[..n - 1];
    OpenBeforeStep(ls, n - 1);
    var prev := Scan(ls[..n - 1], toFloat);
    if prev.Err? {
      var k :| 0 <= k < n - 1 && BadEnergy(ls, k, toFloat) && prev.error == ls[k] && NoBad(ls, k, toFloat);
      assert FirstBad(ls, n, prev.error, toFloat);
    } else if Scan(ls[..n], toFloat).Err? {
      assert BadEnergy(ls, n - 1, toFloat);
      assert FirstBad(ls, n, ls[n - 1], toFloat);
    }
  }

  /** What `parse` returns, for every file: the first unreadable energy
   *  token is an error; otherwise the geometry is the left-stripped body
   *  lines in order and the energy that of the last energy line. */
  lemma ParseSpec(ls: seq<string>, toFloat: string -> Option<real>)
    ensures ParseResult(ls, toFloat).Err? <==> exists k :: 0 <= k < |ls| && BadEnergy(ls, k, toFloat)
    ensures ParseResult(ls, toFloat).Ok? ==>
      ParseResult(ls, toFloat).value == Parsed(BodyText(ls, |ls|), LastEnergy(ls, |ls|, toFloat))
  {
    ScanPrefix(ls, |ls|, toFloat);
    assert ls[..|ls|] == ls;
  }

  /** A file without a "geometry={" line gives the empty geometry. */
  lemma {:induction false} NoOpenerNoGeometry(ls: seq<string>, n: nat)
    requires n <= |ls|
    requires forall k :: 0 <= k < |ls| ==> !Opens(ls[k])
    ensures BodyText(ls, n) == ""
    decreases n
  {
    if n > 0 {
      NoOpenerNoGeometry(ls, n - 1);
    }
  }

  /** With no energy line, energy stays 0. */
  lemma {:induction false} NoEnergyLine(ls: seq<string>, n: nat, toFloat: string -> Option<real>)
    requires n <= |ls|
    requires forall k :: 0 <= k < n ==> !EnergyLine(ls, k)
    ensures LastEnergy(ls, n, toFloat) == IntZero
    decreases n
  {
    if n > 0 {
      NoEnergyLine(ls, n - 1, toFloat);
    }
  }

  /** The last energy line wins. */
  lemma {:induction false} LastEnergyWins(ls: seq<string>, n: nat, k: nat, toFloat: string -> Option<real>)
    requires k < n <= |ls|
    requires EnergyLine(ls, k) && toFloat(EnergyToken(ls[k])).Some?
    requires forall m :: k < m < n ==> !EnergyLine(ls, m)
    ensures LastEnergy(ls, n, toFloat) == Float(toFloat(EnergyToken(ls[k])).value)
    decreases n
  {
    if k < n - 1 {
      LastEnergyWins(ls, n - 1, k, toFloat);
    }
  }

  // ---------------------------------------------------------------------
  // The dictionary of `__main__`

  /** An item of the insertion-ordered dict: JSON-encoded geometry and energy. */
  datatype Entry = Entry(key: string, energy: Energy)

  function Position(d: seq<Entry>, k: string): (p: int)
    ensures -1 <= p < |d|
    ensures p >= 0 ==> d[p].key == k && forall q :: 0 <= q < p ==> d[q].key != k
    ensures p == -1 ==> forall q :: 0 <= q < |d| ==> d[q].key != k
    decreases |d|
  {
    if d == [] then -1
    else if d[|d| - 1].key == k && Position(d[..|d| - 1], k) == -1 then |d| - 1
    else Position(d[..|d| - 1], k)
  }

  /** d[k] = e: an existing key keeps its place, a new one goes last. */
  function Put(d: seq<Entry>, k: string, e: Energy): seq<Entry> {
    var p := Position(d, k);
    if p >= 0 then d[p := Entry(k, e)] else d + [Entry(k, e)]
  }

  /** The dict after assigning each item in turn. */
  function Table(items: seq<Entry>): seq<Entry>
    decreases |items|
  {
    if items == [] then []
    else Put(Table(items[..|items| - 1]), items[|items| - 1].key, items[|items| - 1].energy)
  }

  /** i is the last item with key k. */
  predicate LastWith(items: seq<Entry>, i: int, k: string) {
    0 <= i < |items| && items[i].key == k && forall j :: i < j < |items| ==> items[j].key != k
  }

  /** The assignment `d[json.dumps(g)] = e` the script makes for a parsed file. */
  function ItemOf(p: Parsed): Entry {
    Entry(Quote(p.geometry), p.energy)
  }

  function Items(ps: seq<Parsed>): (r: seq<Entry>)
    ensures |r| == |ps| && forall i :: 0 <= i < |ps| ==> r[i] == ItemOf(ps[i])
  {
    Map(ItemOf, ps)
  }

  /** Whether a key is present depends only on the keys, not the energies. */
  lemma PositionKeys(a: seq<Entry>, b: seq<Entry>, k: string)
    requires |a| == |b| && forall i :: 0 <= i < |a| ==> a[i].key == b[i].key
    ensures Position(a, k) == Position(b, k)
  {
  }

  lemma PositionSnoc(d: seq<Entry>, x: Entry, k: string)
    ensures Position(d + [x], k) ==
      if Position(d, k) >= 0 then Position(d, k) else if x.key == k then |d| else -1
  {
    assert (d + [x])[..|d|] == d;
  }

  /** Looking a key up after d[k] = e: k holds e, at its old place or last;
   *  every other key keeps its place and its energy. */
  lemma PutPosition(t: seq<Entry>, k: string, e: Energy, k2: string)
    ensures var T := Put(t, k, e);
      && Position(T, k) == (if Position(t, k) >= 0 then Position(t, k) else |t|)
      && T[Position(T, k)] == Entry(k, e)
      && (k2 != k ==> Position(T, k2) == Position(t, k2))
      && (k2 != k && Position(t, k2) >= 0 ==> T[Position(T, k2)] == t[Position(t, k2)])
  {
    var p := Position(t, k);
    if p >= 0 {
      PositionKeys(t, t[p := Entry(k, e)], k);
      PositionKeys(t, t[p := Entry(k, e)], k2);
    } else {
      PositionSnoc(t, Entry(k, e), k);
      PositionSnoc(t, Entry(k, e), k2);
    }
  }

  /** No key appears twice in the dict. */
  lemma {:induction false} TableDistinct(items: seq<Entry>)
    ensures forall p, q :: 0 <= p < q < |Table(items)| ==> Table(items)[p].key != Table(items)[q].key
    decreases |items|
  {
    if items != [] {
      var init := items[..|items| - 1];
      TableDistinct(init);
      PutPosition(Table(init), items[|items| - 1].key, items[|items| - 1].energy, "");
    }
  }

  /** A key is in the dict exactly when some file has it. */
  lemma {:induction false} TableKeys(items: seq<Entry>, k: string)
    ensures Position(Table(items), k) >= 0 <==> Position(items, k) >= 0
    decreases |items|
  {
    if items != [] {
      var n := |items|;
      var init, last := items[..n - 1], items[n - 1];
      assert items == init + [last];
      assert Table(items) == Put(Table(init), last.key, last.energy);
      TableKeys(init, k);
      PutPosition(Table(init), last.key, last.energy, k);
      PositionSnoc(init, last, k);
    }
  }

  /** Each key holds the energy of the last file with that key. */
  lemma {:induction false} TableLastWins(items: seq<Entry>, k: string, i: int)
    requires LastWith(items, i, k)
    ensures Position(Table(items), k) >= 0 && Table(items)[Position(Table(items), k)].energy == items[i].energy
    decreases |items|
  {
    var n := |items|;
    var init := items[..n - 1];
    var t := Table(init);
    assert Table(items) == Put(t, items[n - 1].key, items[n - 1].energy);
    PutPosition(t, items[n - 1].key, items[n - 1].energy, k);
    if i < n - 1 {
      LastWithInit(items, i, k);
      TableLastWins(init, k, i);
    }
  }

  lemma LastWithInit(items: seq<Entry>, i: int, k: string)
    requires LastWith(items, i, k) && i < |items| - 1
    ensures items[|items| - 1].key != k && LastWith(items[..|items| - 1], i, k)
  {
  }

  /** Keys sit in the order of their first files. */
  lemma {:induction false} TableFirstOrder(items: seq<Entry>, k1: string, k2: string)
    requires Position(items, k1) >= 0 && Position(items, k2) >= 0
    ensures Position(Table(items), k1) < Position(Table(items), k2) <==> Position(items, k1) < Position(items, k2)
    decreases |items|
  {
    var n := |items|;
    var init := items[..n - 1];
    var k := items[n - 1].key;
    assert init + [items[n - 1]] == items;
    PositionSnoc(init, items[n - 1], k1);
    PositionSnoc(init, items[n - 1], k2);
    PutPosition(Table(init), k, items[n - 1].energy, k1);
    PutPosition(Table(init), k, items[n - 1].energy, k2);
    TableKeys(init, k1);
    TableKeys(init, k2);
    TableKeys(init, k);
    if Position(init, k1) >= 0 && Position(init, k2) >= 0 {
      TableFirstOrder(init, k1, k2);
    }
  }

  function ParseAll(files: seq<seq<string>>, toFloat: string -> Option<real>): Result<seq<Parsed>, string>
    decreases |files|
  {
    if files == [] then Ok([])
    else
      match ParseAll(files[..|files| - 1], toFloat)
      case Err(e) => Err(e)
      case Ok(ps) =>
        match ParseResult(files[|files| - 1], toFloat)
        case Err(e) => Err(e)
        case Ok(p) => Ok(ps + [p])
  }

  lemma {:induction false} ParseAllErrSticky(files: seq<seq<string>>, i: nat, toFloat: string -> Option<real>)
    requires i <= |files| && ParseAll(files[..i], toFloat).Err?
    ensures ParseAll(files, toFloat) == ParseAll(files[..i], toFloat)
    decreases |files| - i
  {
    if i < |files| {
      assert files[..i + 1][..i] == files[..i];
      ParseAllErrSticky(files, i + 1, toFloat);
    } else {
      assert files[..i] == files;
    }
  }

  /** ParseAll of one more file. */
  lemma ParseAllSnoc(files: seq<seq<string>>, i: int, toFloat: string -> Option<real>)
    requires 0 <= i < |files|
    ensures ParseAll(files[..i + 1], toFloat) ==
      match ParseAll(files[..i], toFloat)
      case Err(e) => Err(e)
      case Ok(ps) =>
        match ParseResult(files[i], toFloat)
        case Err(e) => Err(e)
        case Ok(p) => Ok(ps + [p])
  {
    assert files[..i + 1][..i] == files[..i];
  }

  /** The dict after one more parsed file. */
  lemma TableSnoc(ps: seq<Parsed>, p: Parsed)
    ensures Table(Items(ps + [p])) == Put(Table(Items(ps)), Quote(p.geometry), p.energy)
  {
    MapSnoc(ItemOf, ps + [p], |ps|);
    assert (ps + [p])[..|ps|] == ps && (ps + [p])[..|ps| + 1] == ps + [p];
    assert Items(ps + [p]) == Items(ps) + [ItemOf(p)];
    assert (Items(ps) + [ItemOf(p)])[..|ps|] == Items(ps);
  }

  /** The loop of `__main__` over the job files, filling the dict. */
  method Collect(files: seq<seq<string>>, toFloat: string -> Option<real>) returns (r: Result<seq<Entry>, string>)
    ensures ParseAll(files, toFloat).Err? ==> r == Err(ParseAll(files, toFloat).error)
    ensures ParseAll(files, toFloat).Ok? ==> r == Ok(Table(Items(ParseAll(files, toFloat).value)))
  {
    var d: seq<Entry> := [];
    ghost var ps: seq<Parsed> := [];
    var i := 0;
    while i < |files|
      invariant 0 <= i <= |files|
      invariant ParseAll(files[..i], toFloat) == Ok(ps)
      invariant d == Table(Items(ps))
    {
      var g := Parse(files[i], toFloat);
      ParseAllSnoc(files, i, toFloat);
      match g
      case Err(e) =>
        ParseAllErrSticky(files, i + 1, toFloat);
        return Err(e);
      case Ok(p) =>
        TableSnoc(ps, p);
        d := Put(d, Quote(p.geometry), p.energy);
        ps := ps + [p];
      i := i + 1;
    }
    assert files[..i] == files;
    return Ok(d);
  }

  // ---------------------------------------------------------------------
  // Printing the dict

  /** str() of the energy: "0" for the initial int, else the float's repr. */
  function EnergyText(e: Energy, repr: real -> string): string {
    match e
    case IntZero => "0"
    case Float(x) => repr(x)
  }

  function EntryText(en: Entry, repr: real -> string): string {
    en.key + ": {\n\"Energy\": " + EnergyText(en.energy, repr) + ",\n\"Gradient\": null\n}"
  }

  function EntryTexts(d: seq<Entry>, repr: real -> string): (r: seq<string>)
    ensures |r| == |d| && forall p :: 0 <= p < |d| ==> r[p] == EntryText(d[p], repr)
  {
    seq(|d|, p requires 0 <= p < |d| => EntryText(d[p], repr))
  }

  /** Everything the script prints for the dict d. */
  function Output(d: seq<Entry>, repr: real -> string): string {
    "{\n" + Join(EntryTexts(d, repr), ",\n") + "\n}\n"
  }

  /** What the printing loop has written after its first i passes: the
   *  opening "{", then each entry, and "," with its newline after all but
   *  the last. */
  function Printed(texts: seq<string>, i: nat): string
    requires i <= |texts|
  {
    if i == 0 then "{\n"
    else Printed(texts, i - 1) + texts[i - 1] + (if i < |texts| then ",\n" else "")
  }

  /** The loop prints the entries joined by ",\n". */
  lemma {:induction false} PrintedJoin(texts: seq<string>, i: nat)
    requires 0 < i <= |texts|
    ensures Printed(texts, i) == "{\n" + Join(texts[..i], ",\n") + (if i < |texts| then ",\n" else "")
    decreases i
  {
    var sep := if i < |texts| then ",\n" else "";
    if i > 1 {
      PrintedJoin(texts, i - 1);
      assert texts[..i] == texts[..i - 1] + [texts[i - 1]];
      JoinSnoc(texts[..i - 1], texts[i - 1], ",\n");
      var h, j, c, t := "{\n", Join(texts[..i - 1], ",\n"), ",\n", texts[i - 1];
      Assoc(h, j + c, t);
      Assoc(h, j, c);
    } else {
      assert texts[..1] == [texts[0]];
    }
  }

  /** The printing loop: "{", the entries with "," after all but the last,
   *  then "}"; each print adds its newline. */
  method Render(d: seq<Entry>, repr: real -> string) returns (out: string)
    ensures out == Output(d, repr)
  {
    ghost var texts := EntryTexts(d, repr);
    out := "{\n";
    var i := 0;
    while i < |d|
      invariant 0 <= i <= |d|
      invariant out == Printed(texts, i)
    {
      out := out + EntryText(d[i], repr);
      if i < |d| - 1 {
        out := out + ",\n";
      }
      i := i + 1;
    }
    if i > 0 {
      PrintedJoin(texts, i);
      assert texts[..i] == texts;
    }
    out := out + "\n}\n";
  }

  /** The whole script over the listed job files. */
  method Script(files: seq<seq<string>>, toFloat: string -> Option<real>, repr: real -> string)
    returns (r: Result<string, string>)
    ensures ParseAll(files, toFloat).Err? ==> r == Err(ParseAll(files, toFloat).error)
    ensures ParseAll(files, toFloat).Ok? ==> r == Ok(Output(Table(Items(ParseAll(files, toFloat).value)), repr))
  {
    var d := Collect(files, toFloat);
    match d
    case Err(e) => return Err(e);
    case Ok(t) =>
      var out := Render(t, repr);
      return Ok(out);
  }

  // ---------------------------------------------------------------------
  // The printed text is a JSON object holding the dict

  /** The decoded value of one entry. */
  function Inner(num: string): Value {
    Object([Member("Energy", Number(num)), Member("Gradient", Null)])
  }

  lemma {:induction false} DigitsChars(s: string, n: nat)
    requires n <= |s| && forall k :: 0 <= k < n ==> IsDigit(s[k])
    ensures forall k :: 0 <= k < n ==> NumberChar(s[k])
  {
  }

  lemma ExpChars(s: string)
    requires ExpPart(s)
    ensures forall k :: 0 <= k < |s| ==> NumberChar(s[k])
  {
    if s != [] {
      forall k | 1 <= k < |s| ensures NumberChar(s[k]) {
        if AllDigits(s[1..]) {
          assert s[k] == s[1..][k - 1];
        } else if k >= 2 {
          assert s[k] == s[2..][k - 2];
        }
      }
    }
  }

  lemma FracExpChars(s: string)
    requires FracExp(s)
    ensures forall k :: 0 <= k < |s| ==> NumberChar(s[k])
  {
    if s != [] && s[0] == '.' {
      var m := DigitRun(s[1..]);
      ExpChars(s[1 + m..]);
      forall k | 1 <= k < |s| ensures NumberChar(s[k]) {
        if k < 1 + m {
          assert s[k] == s[1..][k - 1];
        } else {
          assert s[k] == s[1 + m..][k - 1 - m];
        }
      }
    } else {
      ExpChars(s);
    }
  }

  /** A number starts with "-" or a digit and holds only number characters. */
  lemma NumberShape(num: string)
    requires IsNumber(num)
    ensures num != [] && (num[0] == '-' || IsDigit(num[0]))
    ensures forall k :: 0 <= k < |num| ==> NumberChar(num[k])
  {
    var neg := num != [] && num[0] == '-';
    var u := if neg then num[1..] else num;
    var i := DigitRun(u);
    FracExpChars(u[i..]);
    forall k | 0 <= k < |u| ensures NumberChar(u[k]) {
      if k >= i {
        assert u[k] == u[i..][k - i];
      }
    }
    if neg {
      forall k | 1 <= k < |num| ensures NumberChar(num[k]) {
        assert num[k] == u[k - 1];
      }
    }
  }

  lemma ParseValueNumber(s: string)
    requires s != [] && (s[0] == '-' || IsDigit(s[0]))
    ensures ParseValue(s) == ParseNumber(s)
  {
    var t := SkipWs(s);
    assert !IsWs(s[0]);
    assert t == s;
    assert t[0] != '{' && t[0] != '[' && t[0] != '"' && !NullAt(t);
  }

  lemma {:induction false} NumberLenBefore(num: string, after: string)
    requires forall k :: 0 <= k < |num| ==> NumberChar(num[k])
    requires after != [] && !NumberChar(after[0])
    ensures NumberLen(num + after) == |num|
    decreases |num|
  {
    if num != [] {
      assert (num + after)[1..] == num[1..] + after;
      NumberLenBefore(num[1..], after);
    } else {
      assert num + after == after;
    }
  }

  lemma ParseNumberBefore(num: string, after: string)
    requires IsNumber(num) && after != [] && !NumberChar(after[0])
    ensures ParseValue(num + after) == Some((Number(num), after))
  {
    NumberShape(num);
    var s := num + after;
    ParseValueNumber(s);
    NumberLenBefore(num, after);
    assert s[..|num|] == num && s[|num|..] == after;
  }

  lemma SkipWsOver(w: string, s: string)
    requires forall k :: 0 <= k < |w| ==> IsWs(w[k])
    requires s != [] && !IsWs(s[0])
    ensures SkipWs(w + s) == s
    decreases |w|
  {
    if w != [] {
      assert (w + s)[1..] == w[1..] + s;
      SkipWsOver(w[1..], s);
    } else {
      assert w + s == s;
    }
  }

  /** Leading whitespace does not change what a value parses to. */
  lemma ParseValueWs(c: char, s: string)
    requires IsWs(c)
    ensures ParseValue([c] + s) == ParseValue(s)
  {
    assert ([c] + s)[1..] == s;
  }

  lemma QuoteThen(name: string, rest: string)
    ensures (Quote(name) + rest)[0] == '"'
    ensures StringBody((Quote(name) + rest)[1..]) == Some((name, rest))
  {
    assert (Quote(name) + rest)[1..] == Escaped(name) + "\"" + rest;
    StringBodyEscaped(name, rest);
  }

  /** A member `"name": value` at the head of the members of an object. */
  lemma MemberHead(name: string, rest: string)
    ensures ParseMembers("\n" + (Quote(name) + (": " + rest))) ==
      match ParseValue(rest)
      case None => None
      case Some((v, c)) => MoreMembers(Member(name, v), c)
  {
    var y := ": " + rest;
    QuoteThen(name, y);
    SkipWsOver("\n", Quote(name) + y);
    assert SkipWs(y) == y;
    assert y[1..] == [' '] + rest;
    ParseValueWs(' ', rest);
  }

  /** The last member: its value is followed by whitespace and "}". */
  lemma MemberLast(m: Member, w: string, after: string)
    requires forall k :: 0 <= k < |w| ==> IsWs(w[k])
    ensures MoreMembers(m, w + ("}" + after)) == Some(([m], after))
  {
    SkipWsOver(w, "}" + after);
    assert ("}" + after)[1..] == after;
  }

  /** A member followed by "," and more members. */
  lemma MemberNext(m: Member, more: string)
    ensures MoreMembers(m, "," + more) ==
      match ParseMembers(more)
      case None => None
      case Some((ms, e)) => Some(([m] + ms, e))
  {
    assert SkipWs("," + more) == "," + more;
    assert ("," + more)[1..] == more;
  }

  /** "{", then members. */
  lemma ObjectOpen(m: string, ms: seq<Member>, after: string)
    requires ParseMembers(m) == Some((ms, after))
    requires SkipWs(m) != [] && SkipWs(m)[0] == '"'
    ensures ParseValue("{" + m) == Some((Object(ms), after))
  {
    var t := "{" + m;
    assert t[1..] == m;
    ValueAtBrace(t);
    ObjectMembers(t, ms, after);
  }

  lemma ValueAtBrace(t: string)
    requires t != [] && t[0] == '{'
    ensures ParseValue(t) == ParseObject(t)
  {
    assert !IsWs(t[0]);
    assert SkipWs(t) == t;
  }

  lemma ObjectMembers(t: string, ms: seq<Member>, after: string)
    requires t != [] && t[0] == '{' && ParseMembers(t[1..]) == Some((ms, after))
    requires SkipWs(t[1..]) != [] && SkipWs(t[1..])[0] == '"'
    ensures ParseObject(t) == Some((Object(ms), after))
  {
  }

  lemma QuotePlain(s: string)
    requires forall k :: 0 <= k < |s| ==> Plain(s[k])
    ensures Quote(s) == "\"" + s + "\""
  {
    EscapedPlain(s);
    QuoteOf(s, s);
  }

  lemma QuoteOf(s: string, e: string)
    requires Escaped(s) == e
    ensures Quote(s) == "\"" + e + "\""
  {
  }

  /** The text of one entry's value, "{" and its two members, grouped the
   *  way the parser reads it. */
  function InnerText(num: string, after: string): string {
    "{" + InnerMembersText(num, after)
  }

  function InnerMembersText(num: string, after: string): string {
    "\n" + (Quote("Energy") + (": " + (num + ("," + GradientText(after)))))
  }

  function GradientText(after: string): string {
    "\n" + (Quote("Gradient") + (": " + ("null" + ("\n" + ("}" + after)))))
  }

  lemma NullValue(rest: string)
    ensures ParseValue("null" + rest) == Some((Null, rest))
  {
    var r := "null" + rest;
    assert r[0] == 'n' && r[1] == 'u' && r[2] == 'l' && r[3] == 'l';
    assert r[4..] == rest;
    ParseValueNull(r);
  }

  lemma ParseValueNull(t: string)
    requires NullAt(t)
    ensures ParseValue(t) == Some((Null, t[4..]))
  {
    assert !IsWs(t[0]);
    assert SkipWs(t) == t;
  }

  /** A last member whose value is null. */
  lemma NullMemberLast(name: string, after: string)
    ensures ParseMembers("\n" + (Quote(name) + (": " + ("null" + ("\n" + ("}" + after)))))) ==
      Some(([Member(name, Null)], after))
  {
    MemberHead(name, "null" + ("\n" + ("}" + after)));
    NullValue("\n" + ("}" + after));
    MemberLast(Member(name, Null), "\n", after);
  }

  /** A member whose value is a number, followed by more members. */
  lemma NumberMemberNext(name: string, num: string, g: string, ms: seq<Member>, after: string)
    requires IsNumber(num) && ParseMembers(g) == Some((ms, after))
    ensures ParseMembers("\n" + (Quote(name) + (": " + (num + ("," + g))))) ==
      Some(([Member(name, Number(num))] + ms, after))
  {
    ParseNumberBefore(num, "," + g);
    MemberHead(name, num + ("," + g));
    MemberNext(Member(name, Number(num)), g);
  }

  lemma PairSeq(a: Member, b: Member)
    ensures [a] + [b] == [a, b]
  {
  }

  lemma NumberThenNull(n1: string, num: string, n2: string, after: string)
    requires IsNumber(num)
    ensures var m := "\n" + (Quote(n1) + (": " + (num + ("," +
              ("\n" + (Quote(n2) + (": " + ("null" + ("\n" + ("}" + after))))))))));
      && ParseMembers(m) == Some(([Member(n1, Number(num)), Member(n2, Null)], after))
      && SkipWs(m) != [] && SkipWs(m)[0] == '"'
  {
    var g := "\n" + (Quote(n2) + (": " + ("null" + ("\n" + ("}" + after)))));
    NullMemberLast(n2, after);
    NumberMemberNext(n1, num, g, [Member(n2, Null)], after);
    PairSeq(Member(n1, Number(num)), Member(n2, Null));
    LeadingQuote(n1, ": " + (num + ("," + g)));
  }

  /** Members opening with a newline and a quoted name start at the quote. */
  lemma LeadingQuote(name: string, x: string)
    ensures SkipWs("\n" + (Quote(name) + x)) != [] && SkipWs("\n" + (Quote(name) + x))[0] == '"'
  {
    QuoteThen(name, x);
    SkipWsOver("\n", Quote(name) + x);
  }

  /** One entry's value decodes to {"Energy": num, "Gradient": null}. */
  lemma InnerParse(num: string, after: string)
    requires IsNumber(num)
    ensures ParseValue(InnerText(num, after)) == Some((Inner(num), after))
  {
    NumberThenNull("Energy", num, "Gradient", after);
    ObjectOpen(InnerMembersText(num, after), Inner(num).members, after);
  }

  /** The literal text around the energy, regrouped. */
  lemma QuoteEnergy()
    ensures Quote("Energy") == "\"Energy\""
  {
    QuotePlain("Energy");
    EnergyLiteral();
  }

  lemma EnergyLiteral()
    ensures "\"" + "Energy" + "\"" == "\"Energy\""
  {
  }

  lemma HeadLiteral(y: string)
    ensures ": {\n\"Energy\": " + y == ": " + ("{" + ("\n" + ("\"Energy\"" + (": " + y))))
  {
  }

  lemma HeadText(y: string)
    ensures ": {\n\"Energy\": " + y == ": " + ("{" + ("\n" + (Quote("Energy") + (": " + y))))
  {
    QuoteEnergy();
    HeadLiteral(y);
  }

  lemma TailLiteral(after: string)
    ensures ",\n\"Gradient\": null\n}" + after ==
      "," + ("\n" + ("\"Gradient\"" + (": " + ("null" + ("\n" + ("}" + after))))))
  {
  }

  lemma QuoteGradient()
    ensures Quote("Gradient") == "\"Gradient\""
  {
    QuotePlain("Gradient");
    GradientLiteral();
  }

  lemma GradientLiteral()
    ensures "\"" + "Gradient" + "\"" == "\"Gradient\""
  {
  }

  lemma TailText(after: string)
    ensures ",\n\"Gradient\": null\n}" + after == "," + GradientText(after)
  {
    QuoteGradient();
    TailLiteral(after);
  }

  /** The printed entry, followed by y, in the grouping of the parser. */
  lemma EntryTextParts(en: Entry, repr: real -> string, y: string)
    ensures EntryText(en, repr) + y ==
      en.key + (": " + InnerText(EnergyText(en.energy, repr), y))
  {
    var num := EnergyText(en.energy, repr);
    var l1, l2 := ": {\n\"Energy\": ", ",\n\"Gradient\": null\n}";
    TailText(y);
    HeadText(num + ("," + GradientText(y)));
    Assoc(en.key + l1 + num, l2, y);
    Assoc(en.key + l1, num, l2 + y);
    Assoc(en.key, l1, num + (l2 + y));
  }

  /** One printed entry at the head of the members. */
  lemma EntryMember(g: string, en: Entry, repr: real -> string, y: string)
    requires en.key == Quote(g) && IsNumber(EnergyText(en.energy, repr))
    ensures ParseMembers("\n" + (EntryText(en, repr) + y)) ==
      MoreMembers(Member(g, Inner(EnergyText(en.energy, repr))), y)
  {
    var num := EnergyText(en.energy, repr);
    EntryTextParts(en, repr, y);
    MemberHead(g, InnerText(num, y));
    InnerParse(num, y);
  }

  function Members(d: seq<Entry>, names: seq<string>, repr: real -> string): (r: seq<Member>)
    requires |names| == |d|
    ensures |r| == |d|
  {
    seq(|d|, p requires 0 <= p < |d| => Member(names[p], Inner(EnergyText(d[p].energy, repr))))
  }

  lemma MembersCons(d: seq<Entry>, names: seq<string>, repr: real -> string)
    requires d != [] && |names| == |d|
    ensures Members(d, names, repr) ==
      [Member(names[0], Inner(EnergyText(d[0].energy, repr)))] + Members(d[1..], names[1..], repr)
  {
  }

  /** The joined entries, split after the first one. */
  lemma JoinHead(d: seq<Entry>, repr: real -> string, tail: string)
    requires |d| > 1
    ensures "\n" + (Join(EntryTexts(d, repr), ",\n") + tail) ==
      "\n" + (EntryText(d[0], repr) + ("," + ("\n" + (Join(EntryTexts(d[1..], repr), ",\n") + tail))))
  {
    var texts := EntryTexts(d, repr);
    var rest := Join(EntryTexts(d[1..], repr), ",\n");
    assert texts[1..] == EntryTexts(d[1..], repr);
    assert [texts[0]] + texts[1..] == texts;
    JoinCons(texts[0], texts[1..], ",\n");
    JoinHeadText(EntryText(d[0], repr), rest, tail);
  }

  lemma JoinHeadText(a: string, rest: string, tail: string)
    ensures "\n" + (a + ",\n" + rest + tail) == "\n" + (a + ("," + ("\n" + (rest + tail))))
  {
    Assoc(a + ",\n", rest, tail);
    Assoc(a, ",\n", rest + tail);
    Assoc(",", "\n", rest + tail);
  }

  lemma CloseSplit(after: string)
    ensures "\n}" + after == "\n" + ("}" + after)
  {
  }

  /** The last printed entry, then the closing "}". */
  lemma EntryLast(g: string, en: Entry, repr: real -> string, after: string)
    requires en.key == Quote(g) && IsNumber(EnergyText(en.energy, repr))
    ensures ParseMembers("\n" + (EntryText(en, repr) + ("\n}" + after))) ==
      Some(([Member(g, Inner(EnergyText(en.energy, repr)))], after))
  {
    EntryMember(g, en, repr, "\n}" + after);
    CloseSplit(after);
    MemberLast(Member(g, Inner(EnergyText(en.energy, repr))), "\n", after);
  }

  /** A printed entry followed by "," and more entries. */
  lemma EntryNext(g: string, en: Entry, repr: real -> string, more: string, ms: seq<Member>, after: string)
    requires en.key == Quote(g) && IsNumber(EnergyText(en.energy, repr))
    requires ParseMembers(more) == Some((ms, after))
    ensures ParseMembers("\n" + (EntryText(en, repr) + ("," + more))) ==
      Some(([Member(g, Inner(EnergyText(en.energy, repr)))] + ms, after))
  {
    EntryMember(g, en, repr, "," + more);
    MemberNext(Member(g, Inner(EnergyText(en.energy, repr))), more);
  }

  lemma {:induction false} EntriesParse(d: seq<Entry>, names: seq<string>, repr: real -> string, after: string)
    requires d != [] && |names| == |d|
    requires forall p :: 0 <= p < |d| ==> d[p].key == Quote(names[p]) && IsNumber(EnergyText(d[p].energy, repr))
    ensures ParseMembers("\n" + (Join(EntryTexts(d, repr), ",\n") + ("\n}" + after))) ==
      Some((Members(d, names, repr), after))
    decreases |d|
  {
    MembersCons(d, names, repr);
    if |d| == 1 {
      var s1 := "\n" + (Join(EntryTexts(d, repr), ",\n") + ("\n}" + after));
      var s2 := "\n" + (EntryText(d[0], repr) + ("\n}" + after));
      assert EntryTexts(d, repr) == [EntryText(d[0], repr)];
      assert s1 == s2;
      var ms := [Member(names[0], Inner(EnergyText(d[0].energy, repr)))];
      assert Members(d, names, repr) == ms;
      EntryLast(names[0], d[0], repr, after);
    } else {
      var more := "\n" + (Join(EntryTexts(d[1..], repr), ",\n") + ("\n}" + after));
      EntriesParse(d[1..], names[1..], repr, after);
      JoinHead(d, repr, "\n}" + after);
      EntryNext(names[0], d[0], repr, more, Members(d[1..], names[1..], repr), after);
      assert ParseMembers("\n" + (Join(EntryTexts(d, repr), ",\n") + ("\n}" + after))) ==
        Some((Members(d, names, repr), after));
    }
  }

  lemma EmptyOutputParse(repr: real -> string)
    ensures ParseValue(Output([], repr)) == Some((Object([]), "\n"))
  {
    EmptyOutputText(repr);
    EmptyObjectAt("\n\n", "\n");
  }

  lemma EmptyOutputText(repr: real -> string)
    ensures Output([], repr) == "{" + ("\n\n" + ("}" + "\n"))
  {
    assert EntryTexts([], repr) == [];
  }

  /** "{", whitespace and "}" is the empty object. */
  lemma EmptyObjectAt(w: string, after: string)
    requires forall k :: 0 <= k < |w| ==> IsWs(w[k])
    ensures ParseValue("{" + (w + ("}" + after))) == Some((Object([]), after))
  {
    var t := "{" + (w + ("}" + after));
    assert t[1..] == w + ("}" + after);
    ValueAtBrace(t);
    SkipWsOver(w, "}" + after);
    assert ("}" + after)[1..] == after;
  }

  /** The printed entries start with the first key. */
  lemma JoinedFirst(d: seq<Entry>, repr: real -> string)
    requires d != [] && d[0].key != []
    ensures Join(EntryTexts(d, repr), ",\n") != [] && Join(EntryTexts(d, repr), ",\n")[0] == d[0].key[0]
  {
    assert EntryTexts(d, repr)[0] == EntryText(d[0], repr);
    JoinFirst(EntryTexts(d, repr), ",\n");
  }

  lemma OutputSplit(j: string)
    ensures "{\n" + j + "\n}\n" == "{" + ("\n" + (j + ("\n}" + "\n")))
  {
    assert "\n}" + "\n" == "\n}\n";
    assert "{" + "\n" == "{\n";
    Assoc("{", "\n", j + "\n}\n");
    Assoc("{\n", j, "\n}\n");
  }

  /** The printed dict parses as one object value, leaving the final newline. */
  lemma OutputParse(d: seq<Entry>, names: seq<string>, repr: real -> string)
    requires |names| == |d|
    requires forall p :: 0 <= p < |d| ==> d[p].key == Quote(names[p]) && IsNumber(EnergyText(d[p].energy, repr))
    ensures ParseValue(Output(d, repr)) == Some((Object(Members(d, names, repr)), "\n"))
  {
    if d == [] {
      EmptyOutputParse(repr);
      assert Members(d, names, repr) == [];
    } else {
      var j := Join(EntryTexts(d, repr), ",\n");
      OutputSplit(j);
      assert Output(d, repr) == "{" + ("\n" + (j + ("\n}" + "\n")));
      EntriesObject(d, names, repr, j);
    }
  }

  lemma EntriesObject(d: seq<Entry>, names: seq<string>, repr: real -> string, j: string)
    requires d != [] && |names| == |d| && j == Join(EntryTexts(d, repr), ",\n")
    requires forall p :: 0 <= p < |d| ==> d[p].key == Quote(names[p]) && IsNumber(EnergyText(d[p].energy, repr))
    ensures ParseValue("{" + ("\n" + (j + ("\n}" + "\n")))) == Some((Object(Members(d, names, repr)), "\n"))
  {
    EntriesParse(d, names, repr, "\n");
    JoinedFirst(d, repr);
    assert d[0].key == Quote(names[0]);
    ObjectFromMembers(j, Members(d, names, repr), "\n");
  }

  lemma ObjectFromMembers(j: string, ms: seq<Member>, after: string)
    requires j != [] && j[0] == '"'
    requires ParseMembers("\n" + (j + ("\n}" + after))) == Some((ms, after))
    ensures ParseValue("{" + ("\n" + (j + ("\n}" + after)))) == Some((Object(ms), after))
  {
    var rest := j + ("\n}" + after);
    assert rest[0] == '"';
    SkipNewline(rest);
    ObjectOpen("\n" + rest, ms, after);
  }

  lemma SkipNewline(rest: string)
    requires rest != [] && !IsWs(rest[0])
    ensures SkipWs("\n" + rest) == rest
  {
    assert ("\n" + rest)[1..] == rest;
  }

  /** The printed dict is a JSON text (RFC 8259) whose value is an object
   *  with one member per dict entry, in order: the entry's geometry as the
   *  name and {"Energy": e, "Gradient": null} as the value. An empty dict
   *  prints "{", a blank line and "}", which is still an empty object. */
  lemma OutputDecodes(d: seq<Entry>, names: seq<string>, repr: real -> string)
    requires |names| == |d|
    requires forall p :: 0 <= p < |d| ==> d[p].key == Quote(names[p]) && IsNumber(EnergyText(d[p].energy, repr))
    ensures Decode(Output(d, repr)) == Some(Object(Members(d, names, repr)))
  {
    OutputParse(d, names, repr);
    assert SkipWs("\n") == [];
  }
}
