/** spectro.go: the spectro input (LoadSpectro, WriteInput), the resonance
 *  lines read back from a spectro output (ParseCoriol, ParseFermi1,
 *  ParseFermi2, ReadOutput) and the Fermi polyad check (EqnSeparate,
 *  MakeKey, ResinLine, CheckPolyad). `%5d` is `Int5`, `%5s` is
 *  `PadLeft(_, 5)`. */
module SpectroFile {
  import opened Text

  // ---------------------------------------------------------------------
  // ResinLine

  function Repeat(s: string, n: nat): string {
    if n == 0 then "" else Repeat(s, n - 1) + s
  }

  /** The cell of frequency j: fill once for every time j is listed, 0
   *  when it is not listed. */
  function Cell(j: int, fill: int, freqs: seq<int>): string {
    var n := Occurrences(freqs, j);
    if n == 0 then Int5(0) else Repeat(Int5(fill), n)
  }

  /** How many times j is listed. */
  function Occurrences(xs: seq<int>, j: int): nat
    decreases |xs|
  {
    if xs == [] then 0 else Occurrences(xs[..|xs| - 1], j) + (if xs[|xs| - 1] == j then 1 else 0)
  }

  /** j is listed exactly when it occurs at least once. */
  lemma {:induction false} OccursIff(xs: seq<int>, j: int)
    ensures Occurrences(xs, j) > 0 <==> j in xs
    decreases |xs|
  {
    if xs != [] {
      var init := xs[..|xs| - 1];
      OccursIff(init, j);
      assert xs == init + [xs[|xs| - 1]];
      assert j in xs <==> j in init || xs[|xs| - 1] == j;
    }
  }

  /** The cells of frequencies 1 to n. */
  function Cells(n: int, fill: int, freqs: seq<int>): string
    decreases n
  {
    if n <= 0 then "" else Cells(n - 1, fill, freqs) + Cell(n, fill, freqs)
  }

  /** ResinLine's text. */
  function Resin(nfreqs: int, fill: int, freqs: seq<int>): string {
    Cells(nfreqs, fill, freqs) + "\n"
  }

  /** What a RESIN line says of frequencies 1 to n: fill for a listed
   *  frequency, 0 for the others. */
  function Marks(n: nat, fill: int, freqs: seq<int>): (r: seq<string>)
    ensures |r| == n
    ensures forall j :: 1 <= j <= n ==> r[j - 1] == IntToString(if j in freqs then fill else 0)
  {
    if n == 0 then [] else Marks(n - 1, fill, freqs) + [IntToString(if n in freqs then fill else 0)]
  }

  /** With no frequency listed twice, the RESIN line is the marks of
   *  frequencies 1 to n, each right-aligned in five columns. */
  lemma {:induction false} CellsPadded(n: nat, fill: int, freqs: seq<int>)
    requires forall j :: 1 <= j <= n ==> Occurrences(freqs, j) <= 1
    ensures Cells(n, fill, freqs) == Padded(Marks(n, fill, freqs), 5)
  {
    if n > 0 {
      CellsPadded(n - 1, fill, freqs);
      var v := if n in freqs then fill else 0;
      PaddedSnoc(Marks(n - 1, fill, freqs), IntToString(v), 5);
      assert Marks(n, fill, freqs) == Marks(n - 1, fill, freqs) + [IntToString(v)];
      CellMark(n, fill, freqs);
    }
  }

  /** The cell of a frequency listed at most once is its mark in five
   *  columns. */
  lemma CellMark(j: int, fill: int, freqs: seq<int>)
    requires Occurrences(freqs, j) <= 1
    ensures Cell(j, fill, freqs) == Int5(if j in freqs then fill else 0)
  {
    OccursIff(freqs, j);
    var n := Occurrences(freqs, j);
    if j in freqs {
      assert n == 1;
      calc {
        Cell(j, fill, freqs);
        Repeat(Int5(fill), 1);
        Repeat(Int5(fill), 0) + Int5(fill);
        Int5(fill);
      }
    } else {
      assert n == 0;
    }
  }

  function Pow10(k: nat): nat {
    if k == 0 then 1 else 10 * Pow10(k - 1)
  }

  /** A number below 10^k has at most k digits. */
  lemma {:induction false} DigitCount(n: nat, k: nat)
    requires 1 <= k && n < Pow10(k)
    ensures |NatToString(n)| <= k
    decreases k
  {
    if n >= 10 {
      assert k >= 2;
      DigitCount(n / 10, k - 1);
    }
  }

  /** A value from 0 to 9999 prints as a word of at most four characters. */
  lemma ShortWord(v: int)
    requires 0 <= v < 10000
    ensures Word(IntToString(v)) && |IntToString(v)| < 5
  {
    assert Pow10(4) == 10000;
    DigitCount(v, 4);
  }

  /** For a fill from 0 to 9999, the marks are words of at most four
   *  characters. */
  lemma MarksShort(n: nat, fill: int, freqs: seq<int>)
    requires 0 <= fill < 10000
    ensures var m := Marks(n, fill, freqs); forall k :: 0 <= k < |m| ==> Word(m[k]) && |m[k]| < 5
  {
    var m := Marks(n, fill, freqs);
    forall k | 0 <= k < |m|
      ensures Word(m[k]) && |m[k]| < 5
    {
      ShortWord(if k + 1 in freqs then fill else 0);
    }
  }

  /** For a fill from 0 to 9999 and no frequency listed twice, the RESIN
   *  line has five columns per frequency and its fields are the marks. */
  lemma ResinFields(n: nat, fill: int, freqs: seq<int>)
    requires 0 <= fill < 10000
    requires forall j :: 1 <= j <= n ==> Occurrences(freqs, j) <= 1
    ensures Resin(n, fill, freqs) == Padded(Marks(n, fill, freqs), 5) + "\n"
    ensures |Resin(n, fill, freqs)| == 5 * n + 1
    ensures Fields(Cells(n, fill, freqs)) == Marks(n, fill, freqs)
  {
    CellsPadded(n, fill, freqs);
    MarksShort(n, fill, freqs);
    PaddedLength(Marks(n, fill, freqs), 5);
    PaddedFields(Marks(n, fill, freqs), 5);
  }

  /** ResinLine: one cell per frequency, then a newline. */
  method ResinLine(nfreqs: int, fill: int, freqs: seq<int>) returns (r: string)
    ensures r == Resin(nfreqs, fill, freqs)
  {
    var buf := ResinCells(nfreqs, fill, freqs);
    r := buf + "\n";
  }

  /** ResinLine's loop over frequencies 1 to nfreqs. */
  method ResinCells(nfreqs: int, fill: int, freqs: seq<int>) returns (buf: string)
    ensures buf == Cells(nfreqs, fill, freqs)
  {
    buf := "";
    var done: nat := 0;
    while done < nfreqs
      invariant done == 0 || done <= nfreqs
      invariant buf == Cells(done, fill, freqs)
    {
      var c := CellOf(done + 1, fill, freqs);
      CellsNext(done, fill, freqs, buf, c);
      buf := buf + c;
      done := done + 1;
    }
    CellsEnd(done, nfreqs, fill, freqs);
  }

  lemma CellsNext(done: nat, fill: int, freqs: seq<int>, buf: string, c: string)
    requires buf == Cells(done, fill, freqs) && c == Cell(done + 1, fill, freqs)
    ensures buf + c == Cells(done + 1, fill, freqs)
  {
  }

  lemma CellsEnd(done: nat, nfreqs: int, fill: int, freqs: seq<int>)
    requires done == 0 || done == nfreqs
    requires done >= nfreqs
    ensures Cells(done, fill, freqs) == Cells(nfreqs, fill, freqs)
  {
  }

  lemma OccurrencesNext(xs: seq<int>, k: nat, j: int)
    requires k < |xs|
    ensures Occurrences(xs[..k + 1], j) == Occurrences(xs[..k], j) + (if xs[k] == j then 1 else 0)
  {
    assert xs[..k + 1][..k] == xs[..k];
  }

  /** The inner loop of ResinLine over the listed frequencies. */
  method CellOf(j: int, fill: int, freqs: seq<int>) returns (c: string)
    ensures c == Cell(j, fill, freqs)
  {
    c := "";
    var wrote := false;
    var k := 0;
    while k < |freqs|
      invariant k <= |freqs|
      invariant c == Repeat(Int5(fill), Occurrences(freqs[..k], j))
      invariant wrote <==> Occurrences(freqs[..k], j) > 0
    {
      OccurrencesNext(freqs, k, j);
      if freqs[k] == j {
        c := c + Int5(fill);
        wrote := true;
      }
      k := k + 1;
    }
    assert freqs[..k] == freqs;
    if !wrote {
      c := c + Int5(0);
    }
  }

  // ---------------------------------------------------------------------
  // MakeKey and EqnSeparate

  /** MakeKey's text: the integers in decimal, one space between them. */
  function Key(ints: seq<int>): string {
    Join(Map(IntToString, ints), " ")
  }

  /** strconv.Atoi with its error ignored. */
  function AtoiOrZero(s: string): int {
    match Atoi(s)
    case None => 0
    case Some(v) => v
  }

  /** How CheckPolyad reads a key back. */
  function ReadKey(k: string): seq<int> {
    Map(AtoiOrZero, Fields(k))
  }

  /** Words joined with single spaces split back into the words. */
  lemma {:induction false} FieldsJoin(ws: seq<string>)
    requires forall k :: 0 <= k < |ws| ==> Word(ws[k])
    ensures Fields(Join(ws, " ")) == ws
    decreases |ws|
  {
    if |ws| == 1 {
      WordFirst(ws[0], "");
      assert ws[0] + "" == ws[0];
    } else if |ws| > 1 {
      FieldsJoin(ws[1..]);
      JoinCons(ws[0], ws[1..], " ");
      assert [ws[0]] + ws[1..] == ws;
      var rest := Join(ws[1..], " ");
      assert ws[0] + " " + rest == ws[0] + (" " + rest);
      WordFirst(ws[0], " " + rest);
      FieldsAfterBlank(" ", rest);
    }
  }

  /** Integers print as words. */
  lemma IntWord(i: int)
    ensures Word(IntToString(i))
  {
    if i < 0 {
      assert IntToString(i) == "-" + NatToString(-i);
    }
  }

  /** A key reads back as the integers it was made of. */
  lemma KeyRoundTrip(ints: seq<int>)
    ensures ReadKey(Key(ints)) == ints
  {
    var ws := Map(IntToString, ints);
    forall k | 0 <= k < |ws|
      ensures Word(ws[k])
    {
      IntWord(ints[k]);
    }
    FieldsJoin(ws);
    forall k | 0 <= k < |ints|
      ensures AtoiOrZero(ws[k]) == ints[k]
    {
      AtoiIntToString(ints[k]);
    }
  }

  /** MakeKey. */
  method MakeKey(ints: seq<int>) returns (r: string)
    ensures r == Key(ints)
  {
    r := "";
    var i := 0;
    while i < |ints|
      invariant i <= |ints|
      invariant i == 0 ==> r == ""
      invariant 0 < i ==> r == Key(ints[..i]) + (if i < |ints| then " " else "")
    {
      assert ints[..i + 1] == ints[..i] + [ints[i]];
      if i > 0 {
        assert Map(IntToString, ints[..i + 1]) == Map(IntToString, ints[..i]) + [IntToString(ints[i])];
        JoinSnoc(Map(IntToString, ints[..i]), IntToString(ints[i]), " ");
      } else {
        assert Map(IntToString, ints[..1]) == [IntToString(ints[0])];
      }
      r := r + IntToString(ints[i]);
      if i < |ints| - 1 {
        r := r + " ";
      }
      i := i + 1;
    }
    assert ints[..i] == ints;
  }

  /** EqnSeparate: the integers of the line's fields (0 for a field that
   *  is not one), the last as the right-hand side and the others as the
   *  left-hand side; None for the panic of a line without fields. */
  function Separated(line: string): (r: Option<(seq<int>, int)>)
    ensures r.None? <==> Fields(line) == []
    ensures r.Some? ==> r.value.0 + [r.value.1] == Map(AtoiOrZero, Fields(line))
  {
    var f := Fields(line);
    if f == [] then None
    else
      var ints := Map(AtoiOrZero, f);
      assert ints == ints[..|f| - 1] + [ints[|f| - 1]];
      Some((ints[..|f| - 1], ints[|f| - 1]))
  }

  method EqnSeparate(line: string) returns (r: Option<(seq<int>, int)>)
    ensures r == Separated(line)
  {
    var ints := Ints(line);
    if |ints| == 0 {
      return None;
    }
    r := Some((ints[..|ints| - 1], ints[|ints| - 1]));
  }

  /** The integer values of a line's fields, 0 for one that is not an
   *  integer. */
  method Ints(line: string) returns (ints: seq<int>)
    ensures ints == Map(AtoiOrZero, Fields(line))
  {
    var fields := Fields(line);
    ints := [];
    var i := 0;
    while i < |fields|
      invariant i <= |fields|
      invariant ints == Map(AtoiOrZero, fields[..i])
    {
      MapSnoc(AtoiOrZero, fields, i);
      ints := ints + [AtoiOrZero(fields[i])];
      i := i + 1;
    }
    assert fields[..i] == fields;
  }

  // ---------------------------------------------------------------------
  // The resonance lines

  /** ParseFermi1: the third and fourth fields in five columns each; None
   *  for the panic of a line with fewer than four fields. */
  function Fermi1(line: string): Option<string> {
    var f := Fields(line);
    if |f| < 4 then None else Some(PadLeft(f[2], 5) + PadLeft(f[3], 5) + "\n")
  }

  /** ParseFermi2: the second to fourth fields in five columns each. */
  function Fermi2(line: string): Option<string> {
    var f := Fields(line);
    if |f| < 4 then None else Some(PadLeft(f[1], 5) + PadLeft(f[2], 5) + PadLeft(f[3], 5) + "\n")
  }

  lemma PaddedTwo(a: string, b: string)
    ensures Padded([a, b], 5) == PadLeft(a, 5) + PadLeft(b, 5)
  {
    assert [a, b][1..] == [b];
    assert [b][1..] == [];
    assert Padded([b], 5) == PadLeft(b, 5) + Padded([], 5) == PadLeft(b, 5);
  }

  lemma PaddedThree(a: string, b: string, c: string)
    ensures Padded([a, b, c], 5) == PadLeft(a, 5) + PadLeft(b, 5) + PadLeft(c, 5)
  {
    assert [a, b, c][1..] == [b, c];
    PaddedTwo(b, c);
  }

  /** Two words of at most four characters, in five columns each, read
   *  back as the left- and right-hand side of a resonance equation. */
  lemma TwoColumns(a: string, b: string)
    requires Word(a) && Word(b) && |a| < 5 && |b| < 5
    ensures Fields(PadLeft(a, 5) + PadLeft(b, 5)) == [a, b]
    ensures Separated(PadLeft(a, 5) + PadLeft(b, 5)) == Some(([AtoiOrZero(a)], AtoiOrZero(b)))
  {
    PaddedTwo(a, b);
    PaddedFields([a, b], 5);
    var ints := Map(AtoiOrZero, [a, b]);
    assert ints == [AtoiOrZero(a), AtoiOrZero(b)];
    assert ints[..1] == [AtoiOrZero(a)];
  }

  /** Three such words read back as two left-hand terms and a right-hand
   *  side. */
  lemma ThreeColumns(a: string, b: string, c: string)
    requires Word(a) && Word(b) && Word(c) && |a| < 5 && |b| < 5 && |c| < 5
    ensures Fields(PadLeft(a, 5) + PadLeft(b, 5) + PadLeft(c, 5)) == [a, b, c]
    ensures Separated(PadLeft(a, 5) + PadLeft(b, 5) + PadLeft(c, 5)) == Some(([AtoiOrZero(a), AtoiOrZero(b)], AtoiOrZero(c)))
  {
    PaddedThree(a, b, c);
    PaddedFields([a, b, c], 5);
    var ints := Map(AtoiOrZero, [a, b, c]);
    assert ints == [AtoiOrZero(a), AtoiOrZero(b), AtoiOrZero(c)];
    assert ints[..2] == [AtoiOrZero(a), AtoiOrZero(b)];
  }

  /** A FERMI1 entry is the line's third and fourth fields; when these are
   *  short they read back as its left- and right-hand side. */
  lemma Fermi1Fields(line: string, a: string, b: string)
    requires |Fields(line)| >= 4 && Fields(line)[2] == a && Fields(line)[3] == b
    requires |a| < 5 && |b| < 5
    ensures Fermi1(line) == Some(PadLeft(a, 5) + PadLeft(b, 5) + "\n")
    ensures Fields(PadLeft(a, 5) + PadLeft(b, 5)) == [a, b]
    ensures Separated(PadLeft(a, 5) + PadLeft(b, 5)) == Some(([AtoiOrZero(a)], AtoiOrZero(b)))
  {
    TwoColumns(a, b);
  }

  /** A FERMI2 entry is the line's second to fourth fields. */
  lemma Fermi2Fields(line: string, a: string, b: string, c: string)
    requires |Fields(line)| >= 4 && Fields(line)[1] == a && Fields(line)[2] == b && Fields(line)[3] == c
    requires |a| < 5 && |b| < 5 && |c| < 5
    ensures Fermi2(line) == Some(PadLeft(a, 5) + PadLeft(b, 5) + PadLeft(c, 5) + "\n")
    ensures Fields(PadLeft(a, 5) + PadLeft(b, 5) + PadLeft(c, 5)) == [a, b, c]
    ensures Separated(PadLeft(a, 5) + PadLeft(b, 5) + PadLeft(c, 5)) == Some(([AtoiOrZero(a), AtoiOrZero(b)], AtoiOrZero(c)))
  {
    ThreeColumns(a, b, c);
  }

  predicate Letter(c: char) {
    c == 'A' || c == 'B' || c == 'C'
  }

  /** The first A, B or C of s at or after i, -1 when there is none. */
  function LetterFrom(s: string, i: nat): (r: int)
    ensures r == -1 || (i <= r < |s| && Letter(s[r]))
    ensures forall k :: i <= k < |s| && (r == -1 || k < r) ==> !Letter(s[k])
    decreases |s| - i
  {
    if i >= |s| then -1 else if Letter(s[i]) then i else LetterFrom(s, i + 1)
  }

  /** The rotational axis as spectro writes it: 1 in its column. */
  function Axis(c: char): string {
    if c == 'A' then Int5(1) + Int5(0) + Int5(0)
    else if c == 'B' then Int5(0) + Int5(1) + Int5(0)
    else Int5(0) + Int5(0) + Int5(1)
  }

  /** ParseCoriol: the mode number before the axis letter in the second
   *  field, the third field, and the axis; None for the panics of a line
   *  with fewer than three fields or no letter. */
  function Coriol(line: string): Option<string> {
    var f := Fields(line);
    if |f| < 3 then None
    else
      var i := LetterFrom(f[1], 0);
      if i < 0 then None
      else Some(PadLeft(f[1][..i], 5) + PadLeft(f[2], 5) + Axis(f[1][i]) + "\n")
  }

  /** The axis letters A, B and C write 1 0 0, 0 1 0 and 0 0 1. */
  lemma AxisMarks(c: char)
    requires Letter(c)
    ensures Axis(c) == Padded(if c == 'A' then ["1", "0", "0"] else if c == 'B' then ["0", "1", "0"] else ["0", "0", "1"], 5)
  {
    assert IntToString(1) == "1" && IntToString(0) == "0";
    PaddedThree("1", "0", "0");
    PaddedThree("0", "1", "0");
    PaddedThree("0", "0", "1");
  }

  /** The first letter after a letter-free prefix. */
  lemma {:induction false} LetterAfter(x: string, mode: string, c: char, i: nat)
    requires |mode| < |x| && x[|mode|] == c && Letter(c) && i <= |mode|
    requires forall k :: 0 <= k < |mode| ==> x[k] == mode[k] && !Letter(mode[k])
    ensures LetterFrom(x, i) == |mode|
    decreases |mode| - i
  {
    if i < |mode| {
      assert !Letter(x[i]);
      LetterAfter(x, mode, c, i + 1);
    }
  }

  /** A Coriolis line whose second field is a mode number and an axis
   *  letter is written as the mode, the third field and the axis. */
  lemma CoriolOf(line: string, x: string, mode: string, c: char, rest: string)
    requires |Fields(line)| >= 3 && Fields(line)[1] == x && x == mode + [c] + rest
    requires Letter(c) && forall k :: 0 <= k < |mode| ==> !Letter(mode[k])
    ensures Coriol(line) == Some(PadLeft(mode, 5) + PadLeft(Fields(line)[2], 5) + Axis(c) + "\n")
  {
    assert x[..|mode|] == mode;
    LetterAfter(x, mode, c, 0);
  }

  // ---------------------------------------------------------------------
  // WriteInput

  /** A resonance section: its text, or a zero count when it is empty. */
  function Section(s: string): string {
    if s != "" then s else Int5(0) + "\n"
  }

  /** WriteInput's text: the header, then the CORIOL, FERMI1, FERMI2 and
   *  RESIN sections. */
  function Written(head: string, coriol: string, fermi1: string, fermi2: string, polyad: string): string {
    head + "# CORIOL #####\n" + Section(coriol) + "# FERMI1 ####\n" + Section(fermi1) + "# FERMI2 ####\n" + Section(fermi2) + "# RESIN ####\n" + Section(polyad)
  }

  /** A freshly loaded input, without resonances, is written with a zero
   *  count under each of the four headers. */
  lemma WrittenEmpty(head: string)
    ensures Written(head, "", "", "", "") == head + "# CORIOL #####\n" + "    0\n" + "# FERMI1 ####\n" + "    0\n" + "# FERMI2 ####\n" + "    0\n" + "# RESIN ####\n" + "    0\n"
  {
    assert IntToString(0) == "0";
    assert Spaces(4) == " " + (" " + (" " + (" " + Spaces(0))));
    assert Int5(0) == PadLeft("0", 5) == Spaces(4) + "0";
    var z := Int5(0) + "\n";
    assert z == "    0\n";
    assert Section("") == z;
  }

  // ---------------------------------------------------------------------
  // ReadOutput: the resonance tables of a spectro output

  const CoriolHeader := "CORIOLIS RESONANCES"
  const FermiHeader := "FERMI RESONANCE"

  /** What the header check makes of a line. A Fermi header names its
   *  type in its fourth field; one with fewer than four fields panics. */
  datatype Kind = Plain | CoriolHead | Fermi1Head | Fermi2Head | BadHead

  function KindOf(line: string): Kind {
    if Contains(line, CoriolHeader) then CoriolHead
    else if Contains(line, FermiHeader) then
      var f := Fields(line);
      if |f| < 4 then BadHead else if f[3] == "1" then Fermi1Head else Fermi2Head
    else Plain
  }

  /** A line as ReadOutput sees it: whether it is empty, what each of the
   *  three parsers makes of it (consulted only while its table is open)
   *  and its header kind. */
  datatype Info = Info(empty: bool, cor: Option<string>, f1: Option<string>, f2: Option<string>, kind: Kind)

  function Classify(line: string): Info {
    Info(line == "", Coriol(line), Fermi1(line), Fermi2(line), KindOf(line))
  }

  /** One resonance section being collected: whether its table is being
   *  read, the number of entries and the text so far. */
  datatype Sec = Sec(on: bool, count: nat, text: string)

  /** The state of ReadOutput's scan: the header lines still to skip and
   *  the Coriolis, type 1 Fermi and type 2 Fermi sections. */
  datatype Scan = Scan(skip: nat, cor: Sec, f1: Sec, f2: Sec)

  /** Section k of the scan: 0 Coriolis, 1 FERMI1, 2 FERMI2. */
  function Get(st: Scan, k: int): Sec {
    if k == 0 then st.cor else if k == 1 then st.f1 else st.f2
  }

  function Put(st: Scan, k: int, sec: Sec): (r: Scan)
    requires 0 <= k < 3
    ensures Get(r, k) == sec && r.skip == st.skip
    ensures forall j :: j != k && 0 <= j < 3 ==> Get(r, j) == Get(st, j)
  {
    if k == 0 then st.(cor := sec) else if k == 1 then st.(f1 := sec) else st.(f2 := sec)
  }

  /** What section k's parser makes of the line. */
  function Parse(k: int, x: Info): Option<string> {
    if k == 0 then x.cor else if k == 1 then x.f1 else x.f2
  }

  /** The header kind that opens section k. */
  function Header(k: int): Kind {
    if k == 0 then CoriolHead else if k == 1 then Fermi1Head else Fermi2Head
  }

  /** An open section ends at an empty line and otherwise takes the line
   *  as an entry; None is the panic of an entry its parser rejects. */
  function Take(sec: Sec, k: int, x: Info): Option<Sec> {
    if !sec.on then Some(sec)
    else if x.empty then Some(sec.(on := false))
    else
      match Parse(k, x)
      case None => None
      case Some(t) => Some(Sec(true, sec.count + 1, sec.text + t))
  }

  /** The header check: a header opens its section behind three lines to
   *  skip. */
  function Mark(st: Scan, kind: Kind): Option<Scan> {
    match kind
    case Plain => Some(st)
    case CoriolHead => Some(st.(skip := 3, cor := st.cor.(on := true)))
    case Fermi1Head => Some(st.(skip := 3, f1 := st.f1.(on := true)))
    case Fermi2Head => Some(st.(skip := 3, f2 := st.f2.(on := true)))
    case BadHead => None
  }

  /** One line of the output. */
  function Step(st: Scan, x: Info): Option<Scan> {
    if st.skip > 0 then Some(st.(skip := st.skip - 1))
    else
      match Take(st.cor, 0, x)
      case None => None
      case Some(c) =>
        match Take(st.f1, 1, x)
        case None => None
        case Some(a) =>
          match Take(st.f2, 2, x)
          case None => None
          case Some(b) => Mark(Scan(0, c, a, b), x.kind)
  }

  /** The scan of the remaining lines from a state. */
  function Scanned(st: Scan, xs: seq<Info>): Option<Scan>
    decreases |xs|
  {
    if xs == [] then Some(st)
    else
      match Step(st, xs[0])
      case None => None
      case Some(next) => Scanned(next, xs[1..])
  }

  /** The scan starts from the resonance text already held. */
  function Init(coriol: string, fermi1: string, fermi2: string): Scan {
    Scan(0, Sec(false, 0, coriol), Sec(false, 0, fermi1), Sec(false, 0, fermi2))
  }

  /** ReadOutput's new Coriolis, FERMI1 and FERMI2 text: each count in
   *  front of its section (the Coriolis count followed by a zero); None
   *  for a panic. */
  function ReadText(coriol: string, fermi1: string, fermi2: string, lines: seq<string>): Option<(string, string, string)> {
    match Scanned(Init(coriol, fermi1, fermi2), Map(Classify, lines))
    case None => None
    case Some(st) => Some(Texts(st))
  }

  /** The three sections with their counts in front. */
  function Texts(st: Scan): (string, string, string) {
    (Int5(st.cor.count) + "\n" + Int5(0) + "\n" + st.cor.text,
     Int5(st.f1.count) + "\n" + st.f1.text,
     Int5(st.f2.count) + "\n" + st.f2.text)
  }

  /** No table is open and no line is to be skipped. */
  predicate Idle(st: Scan) {
    st.skip == 0 && !st.cor.on && !st.f1.on && !st.f2.on
  }

  /** Only section k is open, and no line is to be skipped. */
  predicate Only(st: Scan, k: int) {
    0 <= k < 3 && st.skip == 0 && st.cor.on == (k == 0) && st.f1.on == (k == 1) && st.f2.on == (k == 2)
  }

  /** Replacing the open section with an open one keeps it the only one. */
  lemma PutOnly(st: Scan, k: int, sec: Sec)
    requires Only(st, k) && sec.on
    ensures Only(Put(st, k, sec), k)
  {
  }

  lemma PutPut(st: Scan, k: int, a: Sec, b: Sec)
    requires 0 <= k < 3
    ensures Put(Put(st, k, a), k, b) == Put(st, k, b)
  {
  }

  /** A table entry: not empty, no header, accepted by the parser. */
  predicate Entry(k: int, x: Info) {
    !x.empty && x.kind == Plain && Parse(k, x).Some?
  }

  /** The text the entries append. */
  /** Every entry is accepted by section k's parser. */
  predicate Parses(k: int, es: seq<Info>) {
    forall i :: 0 <= i < |es| ==> Parse(k, es[i]).Some?
  }

  function Parsed(k: int, es: seq<Info>): string
    requires Parses(k, es)
    decreases |es|
  {
    if es == [] then "" else Parse(k, es[0]).value + Parsed(k, es[1..])
  }

  lemma TakeIdle(sec: Sec, k: int, x: Info)
    requires !sec.on
    ensures Take(sec, k, x) == Some(sec)
  {
  }

  lemma TakeEntry(sec: Sec, k: int, x: Info)
    requires sec.on && !x.empty && Parse(k, x).Some?
    ensures Take(sec, k, x) == Some(Sec(true, sec.count + 1, sec.text + Parse(k, x).value))
  {
  }

  lemma TakeClose(sec: Sec, k: int, x: Info)
    requires sec.on && x.empty
    ensures Take(sec, k, x) == Some(sec.(on := false))
  {
  }

  /** A line read with no lines to skip goes through the three sections,
   *  then the header check. */
  lemma StepTakes(st: Scan, x: Info, c: Sec, a: Sec, b: Sec)
    requires st.skip == 0
    requires Take(st.cor, 0, x) == Some(c) && Take(st.f1, 1, x) == Some(a) && Take(st.f2, 2, x) == Some(b)
    ensures Step(st, x) == Mark(Scan(0, c, a, b), x.kind)
  {
  }

  /** A line the scan accepts is followed by the scan of the rest. */
  lemma ScannedStep(st: Scan, xs: seq<Info>, next: Scan)
    requires xs != [] && Step(st, xs[0]) == Some(next)
    ensures Scanned(st, xs) == Scanned(next, xs[1..])
  {
  }

  /** A header opens its section and sets the three lines to skip. */
  lemma OpenStep(st: Scan, k: int, h: Info)
    requires Idle(st) && 0 <= k < 3 && h.kind == Header(k)
    ensures Step(st, h) == Some(Put(st, k, Get(st, k).(on := true)).(skip := 3))
  {
    TakeIdle(st.cor, 0, h);
    TakeIdle(st.f1, 1, h);
    TakeIdle(st.f2, 2, h);
    StepTakes(st, h, st.cor, st.f1, st.f2);
    assert Scan(0, st.cor, st.f1, st.f2) == st;
  }

  /** Skipped lines change nothing but the count of lines to skip. */
  lemma {:induction false} SkipLines(st: Scan, skipped: seq<Info>, rest: seq<Info>)
    requires st.skip == |skipped|
    ensures Scanned(st, skipped + rest) == Scanned(st.(skip := 0), rest)
    decreases |skipped|
  {
    if skipped != [] {
      assert (skipped + rest)[0] == skipped[0] && (skipped + rest)[1..] == skipped[1..] + rest;
      ScannedStep(st, skipped + rest, st.(skip := st.skip - 1));
      SkipLines(st.(skip := st.skip - 1), skipped[1..], rest);
    } else {
      assert skipped + rest == rest;
    }
  }

  /** An entry of the one open section is counted and its text appended. */
  lemma EntryStep(st: Scan, k: int, e: Info)
    requires Only(st, k) && Entry(k, e)
    ensures var sec := Get(st, k);
      Step(st, e) == Some(Put(st, k, Sec(true, sec.count + 1, sec.text + Parse(k, e).value)))
  {
    var sec := Get(st, k);
    var next := Put(st, k, Sec(true, sec.count + 1, sec.text + Parse(k, e).value));
    if k == 0 {
      TakeEntry(st.cor, 0, e);
      TakeIdle(st.f1, 1, e);
      TakeIdle(st.f2, 2, e);
    } else if k == 1 {
      TakeIdle(st.cor, 0, e);
      TakeEntry(st.f1, 1, e);
      TakeIdle(st.f2, 2, e);
    } else {
      TakeIdle(st.cor, 0, e);
      TakeIdle(st.f1, 1, e);
      TakeEntry(st.f2, 2, e);
    }
    StepTakes(st, e, next.cor, next.f1, next.f2);
  }

  /** The entries of the one open section, in order. */
  lemma {:induction false} EntryLines(st: Scan, k: int, es: seq<Info>, rest: seq<Info>)
    requires Only(st, k)
    requires forall i :: 0 <= i < |es| ==> Entry(k, es[i])
    ensures Parses(k, es)
    ensures Scanned(st, es + rest) == Scanned(Put(st, k, Sec(true, Get(st, k).count + |es|, Get(st, k).text + Parsed(k, es))), rest)
    decreases |es|
  {
    if es == [] {
      assert es + rest == rest;
      assert Get(st, k).text + "" == Get(st, k).text;
      assert Put(st, k, Sec(true, Get(st, k).count, Get(st, k).text)) == st;
    } else {
      EntryCons(st, k, es, rest);
    }
  }

  /** The first entry, then the others. */
  lemma {:induction false} EntryCons(st: Scan, k: int, es: seq<Info>, rest: seq<Info>)
    requires Only(st, k) && es != []
    requires forall i :: 0 <= i < |es| ==> Entry(k, es[i])
    ensures Parses(k, es)
    ensures Scanned(st, es + rest) == Scanned(Put(st, k, Sec(true, Get(st, k).count + |es|, Get(st, k).text + Parsed(k, es))), rest)
    decreases |es|, 0
  {
    var sec := Get(st, k);
    var t := Parse(k, es[0]).value;
    var next := Put(st, k, Sec(true, sec.count + 1, sec.text + t));
    EntryStep(st, k, es[0]);
    ScannedStep(st, es + rest, next);
    PutOnly(st, k, Sec(true, sec.count + 1, sec.text + t));
    assert forall i :: 0 <= i < |es[1..]| ==> Entry(k, es[1..][i]) by {
      forall i | 0 <= i < |es[1..]| ensures Entry(k, es[1..][i]) {
        assert es[1..][i] == es[i + 1];
      }
    }
    assert (es + rest)[1..] == es[1..] + rest;
    EntryLines(next, k, es[1..], rest);
    var total := Sec(true, sec.count + |es|, sec.text + Parsed(k, es));
    Assoc(sec.text, t, Parsed(k, es[1..]));
    assert Sec(true, Get(next, k).count + |es[1..]|, Get(next, k).text + Parsed(k, es[1..])) == total;
    PutPut(st, k, Sec(true, sec.count + 1, sec.text + t), total);
  }

  /** An empty line closes the one open section. */
  lemma CloseStep(st: Scan, k: int, x: Info)
    requires Only(st, k) && x.empty && x.kind == Plain
    ensures Step(st, x) == Some(Put(st, k, Get(st, k).(on := false)))
  {
    var next := Put(st, k, Get(st, k).(on := false));
    if k == 0 {
      TakeClose(st.cor, 0, x);
      TakeIdle(st.f1, 1, x);
      TakeIdle(st.f2, 2, x);
    } else if k == 1 {
      TakeIdle(st.cor, 0, x);
      TakeClose(st.f1, 1, x);
      TakeIdle(st.f2, 2, x);
    } else {
      TakeIdle(st.cor, 0, x);
      TakeIdle(st.f1, 1, x);
      TakeClose(st.f2, 2, x);
    }
    StepTakes(st, x, next.cor, next.f1, next.f2);
  }

  /** A resonance table: its header, three lines skipped, its entries and
   *  the empty line that ends it add one count and one parsed entry per
   *  entry line to the section and leave the scan idle again. */
  lemma Table(st: Scan, k: int, h: Info, skipped: seq<Info>, es: seq<Info>, blank: Info, rest: seq<Info>)
    requires Idle(st) && 0 <= k < 3 && h.kind == Header(k) && |skipped| == 3
    requires forall i :: 0 <= i < |es| ==> Entry(k, es[i])
    requires blank.empty && blank.kind == Plain
    ensures Parses(k, es)
    ensures Scanned(st, [h] + skipped + es + [blank] + rest) ==
      Scanned(Put(st, k, Sec(false, Get(st, k).count + |es|, Get(st, k).text + Parsed(k, es))), rest)
  {
    var body := es + ([blank] + rest);
    assert [h] + skipped + es + [blank] + rest == [h] + (skipped + body);
    var reading := TableHead(st, k, h, skipped, body);
    TableBody(reading, k, es, blank, rest);
    assert Put(reading, k, Sec(false, Get(st, k).count + |es|, Get(st, k).text + Parsed(k, es)))
        == Put(st, k, Sec(false, Get(st, k).count + |es|, Get(st, k).text + Parsed(k, es)));
  }

  /** The header and the three lines after it open the section. */
  lemma TableHead(st: Scan, k: int, h: Info, skipped: seq<Info>, body: seq<Info>) returns (reading: Scan)
    requires Idle(st) && 0 <= k < 3 && h.kind == Header(k) && |skipped| == 3
    ensures reading == Put(st, k, Get(st, k).(on := true)) && Only(reading, k)
    ensures Scanned(st, [h] + (skipped + body)) == Scanned(reading, body)
  {
    var xs := [h] + (skipped + body);
    assert xs[1..] == skipped + body;
    OpenStep(st, k, h);
    var started := Put(st, k, Get(st, k).(on := true)).(skip := 3);
    ScannedStep(st, xs, started);
    SkipLines(started, skipped, body);
    reading := started.(skip := 0);
  }

  /** The entries and the empty line after them close the section. */
  lemma TableBody(reading: Scan, k: int, es: seq<Info>, blank: Info, rest: seq<Info>)
    requires Only(reading, k)
    requires forall i :: 0 <= i < |es| ==> Entry(k, es[i])
    requires blank.empty && blank.kind == Plain
    ensures Parses(k, es)
    ensures Scanned(reading, es + ([blank] + rest)) ==
      Scanned(Put(reading, k, Sec(false, Get(reading, k).count + |es|, Get(reading, k).text + Parsed(k, es))), rest)
  {
    EntryLines(reading, k, es, [blank] + rest);
    CloseEntries(reading, k, es, blank, rest);
  }

  /** The empty line after the entries closes the section they filled. */
  lemma CloseEntries(reading: Scan, k: int, es: seq<Info>, blank: Info, rest: seq<Info>)
    requires Only(reading, k) && Parses(k, es)
    requires blank.empty && blank.kind == Plain
    ensures Scanned(Put(reading, k, Sec(true, Get(reading, k).count + |es|, Get(reading, k).text + Parsed(k, es))), [blank] + rest)
         == Scanned(Put(reading, k, Sec(false, Get(reading, k).count + |es|, Get(reading, k).text + Parsed(k, es))), rest)
  {
    CloseFilled(reading, k, Get(reading, k).count + |es|, Get(reading, k).text + Parsed(k, es), blank, rest);
  }

  /** Closing a section that the entries have filled in. */
  lemma CloseFilled(reading: Scan, k: int, count: nat, text: string, blank: Info, rest: seq<Info>)
    requires Only(reading, k)
    requires blank.empty && blank.kind == Plain
    ensures Scanned(Put(reading, k, Sec(true, count, text)), [blank] + rest) == Scanned(Put(reading, k, Sec(false, count, text)), rest)
  {
    var a := Sec(true, count, text);
    PutOnly(reading, k, a);
    CloseLine(Put(reading, k, a), k, blank, rest);
    assert Get(Put(reading, k, a), k).(on := false) == Sec(false, count, text);
    PutPut(reading, k, a, Sec(false, count, text));
  }

  /** The empty line that ends a table. */
  lemma CloseLine(full: Scan, k: int, blank: Info, rest: seq<Info>)
    requires Only(full, k) && blank.empty && blank.kind == Plain
    ensures Scanned(full, [blank] + rest) == Scanned(Put(full, k, Get(full, k).(on := false)), rest)
  {
    CloseStep(full, k, blank);
    assert ([blank] + rest)[0] == blank && ([blank] + rest)[1..] == rest;
    ScannedStep(full, [blank] + rest, Put(full, k, Get(full, k).(on := false)));
  }

  /** The empty line is classified as an empty line with no header. */
  lemma BlankLine()
    ensures Classify("").empty && Classify("").kind == Plain
  {
    assert !Contains("", CoriolHeader) && !Contains("", FermiHeader);
  }

  /** A Coriolis header line opens the Coriolis table; a Fermi header
   *  with 1 as its fourth field opens FERMI1, with anything else FERMI2. */
  lemma HeaderLines(line: string)
    ensures Contains(line, CoriolHeader) ==> Classify(line).kind == Header(0)
    ensures !Contains(line, CoriolHeader) && Contains(line, FermiHeader) && |Fields(line)| >= 4 ==>
      Classify(line).kind == Header(if Fields(line)[3] == "1" then 1 else 2)
    ensures !Contains(line, CoriolHeader) && Contains(line, FermiHeader) && |Fields(line)| < 4 ==>
      Classify(line).kind == BadHead
  {
  }

  /** An output holding one resonance table: the header line, three lines
   *  skipped, the entries and an empty line. ReadOutput counts the entries
   *  and keeps their parsed text in that table's section; the other two
   *  sections get a zero count. */
  lemma OneTable(k: int, h: string, skipped: seq<string>, es: seq<string>)
    requires 0 <= k < 3 && Classify(h).kind == Header(k) && |skipped| == 3
    requires forall i :: 0 <= i < |es| ==> Entry(k, Classify(es[i]))
    ensures var xs := Map(Classify, es);
      Parses(k, xs) &&
      ReadText("", "", "", [h] + skipped + es + [""]) == Some(Texts(Put(Init("", "", ""), k, Sec(false, |es|, Parsed(k, xs)))))
  {
    var xs := Map(Classify, es);
    ClassifyTable(h, skipped, es);
    BlankLine();
    TableScan(k, Classify(h), Map(Classify, skipped), xs);
  }

  /** OneTable on the classified lines. */
  lemma TableScan(k: int, h: Info, skipped: seq<Info>, xs: seq<Info>)
    requires 0 <= k < 3 && h.kind == Header(k) && |skipped| == 3
    requires forall i :: 0 <= i < |xs| ==> Entry(k, xs[i])
    requires Classify("").empty && Classify("").kind == Plain
    ensures Parses(k, xs)
    ensures Scanned(Init("", "", ""), [h] + skipped + xs + [Classify("")] + []) ==
      Some(Put(Init("", "", ""), k, Sec(false, |xs|, Parsed(k, xs))))
  {
    var st := Init("", "", "");
    Table(st, k, h, skipped, xs, Classify(""), []);
    assert Get(st, k) == Sec(false, 0, "");
    assert "" + Parsed(k, xs) == Parsed(k, xs);
  }

  /** The lines of a table, classified one by one. */
  lemma ClassifyTable(h: string, skipped: seq<string>, es: seq<string>)
    ensures Map(Classify, [h] + skipped + es + [""]) == [Classify(h)] + Map(Classify, skipped) + Map(Classify, es) + [Classify("")] + []
  {
    MapAppend(Classify, [h] + skipped + es, [""]);
    MapAppend(Classify, [h] + skipped, es);
    MapAppend(Classify, [h], skipped);
    assert Map(Classify, [h]) == [Classify(h)];
    assert Map(Classify, [""]) == [Classify("")];
  }

  // ---------------------------------------------------------------------
  // CheckPolyad

  /** A resonance equation: the left-hand modes and the right-hand mode. */
  type Eq = (seq<int>, int)

  /** The entry lines of a resonance section: those between its count line
   *  and the empty piece after the last newline; None for the panic of a
   *  text without a newline. */
  function FermiLines(text: string): Option<seq<string>> {
    var sp := Split(text, "\n");
    if |sp| < 2 then None else Some(sp[1..|sp| - 1])
  }

  /** EqnSeparate over the lines; None when one of them panics. */
  function Eqs(lines: seq<string>): Option<seq<Eq>>
    decreases |lines|
  {
    if lines == [] then Some([])
    else
      match Eqs(lines[..|lines| - 1])
      case None => None
      case Some(es) =>
        match Separated(lines[|lines| - 1])
        case None => None
        case Some(e) => Some(es + [e])
  }

  function Equations(text: string): Option<seq<Eq>> {
    match FermiLines(text)
    case None => None
    case Some(lines) => Eqs(lines)
  }

  /** The right-hand modes. */
  function RhSet(es: seq<Eq>): set<int> {
    set i | 0 <= i < |es| :: es[i].1
  }

  /** The left-hand sides, as keys. */
  function LhSet(es: seq<Eq>): set<string> {
    set i | 0 <= i < |es| :: Key(es[i].0)
  }

  /** Some equation has a right-hand mode in seen or on the right of an
   *  earlier equation. */
  predicate Seen(seen: set<int>, es: seq<Eq>) {
    exists j :: 0 <= j < |es| && es[j].1 in seen + RhSet(es[..j])
  }

  /** A polyad: some type 2 resonance has a right-hand mode already seen
   *  on the right of a type 1 resonance or an earlier type 2 one. */
  predicate Poly(e1: seq<Eq>, e2: seq<Eq>) {
    Seen(RhSet(e1), e2)
  }

  /** xs lists the elements of s, each once. */
  ghost predicate Enumerates<T(!new)>(xs: seq<T>, s: set<T>) {
    (forall i, j :: 0 <= i < j < |xs| ==> xs[i] != xs[j]) && (forall x :: x in s <==> x in xs)
  }

  /** The fill of a left-hand side: 2 for a single mode (an overtone), 1
   *  for a combination. */
  function FillOf(k: string): int {
    if |ReadKey(k)| == 1 then 2 else 1
  }

  /** The RESIN lines of the right-hand modes, in the order listed. */
  function RhResin(n: int, rs: seq<int>): string
    decreases |rs|
  {
    if rs == [] then "" else RhResin(n, rs[..|rs| - 1]) + Resin(n, 1, [rs[|rs| - 1]])
  }

  /** The RESIN lines of the left-hand sides, in the order listed. */
  function KeyResin(n: int, ks: seq<string>): string
    decreases |ks|
  {
    if ks == [] then ""
    else
      var k := ks[|ks| - 1];
      KeyResin(n, ks[..|ks| - 1]) + Resin(n, FillOf(k), ReadKey(k))
  }

  /** The RESIN section: 1, the number of lines, then the lines. */
  function PolyadText(n: int, rs: seq<int>, ks: seq<string>): string {
    Int5(1) + "\n" + Int5(|rs| + |ks|) + "\n" + RhResin(n, rs) + KeyResin(n, ks)
  }

  /** CheckPolyad does not panic. */
  predicate CheckOk(fermi1: string, fermi2: string) {
    Equations(fermi1).Some? && Equations(fermi2).Some?
  }

  /** What CheckPolyad leaves as the RESIN section: unchanged without a
   *  polyad; otherwise the RESIN lines of every distinct right-hand mode
   *  and every distinct left-hand side, in some order (the source walks
   *  two hash maps); rs and ks are the order in which they come out. */
  ghost predicate Checked(fermi1: string, fermi2: string, n: int, before: string, after: string, rs: seq<int>, ks: seq<string>)
    requires CheckOk(fermi1, fermi2)
  {
    var e1 := Equations(fermi1).value;
    var e2 := Equations(fermi2).value;
    if !Poly(e1, e2) then after == before
    else Enumerates(rs, RhSet(e1 + e2)) && Enumerates(ks, LhSet(e1 + e2)) && after == PolyadText(n, rs, ks)
  }

  /** A list of distinct elements has as many elements as its set. */
  lemma {:induction false} EnumeratesCard<T(!new)>(xs: seq<T>, s: set<T>)
    requires Enumerates(xs, s)
    ensures |xs| == |s|
    decreases |xs|
  {
    if xs != [] {
      var x := xs[|xs| - 1];
      var init := xs[..|xs| - 1];
      assert x in s;
      forall y ensures y in s - {x} <==> y in init {
        if y in init {
          var i :| 0 <= i < |init| && init[i] == y;
          assert xs[i] != xs[|xs| - 1];
        }
        if y in s - {x} {
          assert y in xs;
          var i :| 0 <= i < |xs| && xs[i] == y;
          assert i < |xs| - 1;
          assert init[i] == y;
        }
      }
      EnumeratesCard(init, s - {x});
    }
  }

  /** The RESIN count line counts the distinct right-hand modes and the
   *  distinct left-hand sides. */
  lemma PolyadCount(n: int, rs: seq<int>, ks: seq<string>, rh: set<int>, lh: set<string>)
    requires Enumerates(rs, rh) && Enumerates(ks, lh)
    ensures PolyadText(n, rs, ks) == Int5(1) + "\n" + Int5(|rh| + |lh|) + "\n" + RhResin(n, rs) + KeyResin(n, ks)
  {
    EnumeratesCard(rs, rh);
    EnumeratesCard(ks, lh);
  }

  /** The line of a left-hand side is the one of its modes: the key reads
   *  back as the modes, with fill 2 for an overtone. */
  lemma KeyLine(n: int, lhs: seq<int>)
    ensures Resin(n, FillOf(Key(lhs)), ReadKey(Key(lhs))) == Resin(n, if |lhs| == 1 then 2 else 1, lhs)
  {
    KeyRoundTrip(lhs);
  }

  lemma RhSetSnoc(es: seq<Eq>, e: Eq)
    ensures RhSet(es + [e]) == RhSet(es) + {e.1}
  {
    var xs := es + [e];
    forall r ensures r in RhSet(xs) <==> r in RhSet(es) + {e.1} {
      if r in RhSet(xs) {
        var i :| 0 <= i < |xs| && xs[i].1 == r;
        if i < |es| { assert es[i] == xs[i]; }
      }
      if r in RhSet(es) {
        var i :| 0 <= i < |es| && es[i].1 == r;
        assert xs[i] == es[i];
      }
      if r == e.1 {
        assert xs[|es|] == e;
      }
    }
  }

  lemma LhSetSnoc(es: seq<Eq>, e: Eq)
    ensures LhSet(es + [e]) == LhSet(es) + {Key(e.0)}
  {
    var xs := es + [e];
    forall r ensures r in LhSet(xs) <==> r in LhSet(es) + {Key(e.0)} {
      if r in LhSet(xs) {
        var i :| 0 <= i < |xs| && Key(xs[i].0) == r;
        if i < |es| { assert es[i] == xs[i]; }
      }
      if r in LhSet(es) {
        var i :| 0 <= i < |es| && Key(es[i].0) == r;
        assert xs[i] == es[i];
      }
      if r == Key(e.0) {
        assert xs[|es|] == e;
      }
    }
  }

  /** One more type 2 resonance makes a polyad exactly when its right-hand
   *  mode was already seen. */
  lemma SeenSnoc(seen: set<int>, es: seq<Eq>, e: Eq)
    ensures Seen(seen, es + [e]) <==> Seen(seen, es) || e.1 in seen + RhSet(es)
  {
    var xs := es + [e];
    assert xs[..|es|] == es;
    if Seen(seen, es) {
      var j :| 0 <= j < |es| && es[j].1 in seen + RhSet(es[..j]);
      assert xs[j] == es[j] && xs[..j] == es[..j];
    }
    if Seen(seen, xs) {
      var j :| 0 <= j < |xs| && xs[j].1 in seen + RhSet(xs[..j]);
      if j < |es| {
        assert xs[j] == es[j] && xs[..j] == es[..j];
      }
    }
    if e.1 in seen + RhSet(es) {
      assert xs[|es|] == e;
    }
  }

  /** Without type 2 resonances there is no polyad, however many type 1
   *  resonances share a right-hand mode. */
  lemma NoFermi2NoPoly(e1: seq<Eq>)
    ensures !Poly(e1, [])
  {
  }

  /** The loop of CheckPolyad over the FERMI1 lines: the right-hand modes
   *  and left-hand keys seen. */
  method CollectFermi1(lines: seq<string>) returns (r: Option<seq<Eq>>, rh: set<int>, lh: set<string>)
    ensures r == Eqs(lines)
    ensures r.Some? ==> rh == RhSet(r.value) && lh == LhSet(r.value)
  {
    var es: seq<Eq> := [];
    rh, lh := {}, {};
    var i := 0;
    while i < |lines|
      invariant i <= |lines|
      invariant Eqs(lines[..i]) == Some(es)
      invariant rh == RhSet(es) && lh == LhSet(es)
    {
      var e := EqnSeparate(lines[i]);
      if e.None? {
        EqsSnoc(lines, i, es);
        EqsStops(lines, i + 1);
        return None, rh, lh;
      }
      var (lhs, rhs) := e.value;
      Fermi1Step(es, e.value, rh, lh);
      if rhs !in rh {
        rh := rh + {rhs};
      }
      var key := MakeKey(lhs);
      if key !in lh {
        lh := lh + {key};
      }
      EqsSnoc(lines, i, es);
      es := es + [e.value];
      i := i + 1;
    }
    assert lines[..i] == lines;
    r := Some(es);
  }

  /** The loop of CheckPolyad over the FERMI2 lines: a right-hand mode
   *  already seen marks a polyad, a new one is added. */
  method CollectFermi2(lines: seq<string>, rh0: set<int>, lh0: set<string>) returns (r: Option<seq<Eq>>, rh: set<int>, lh: set<string>, poly: bool)
    ensures r == Eqs(lines)
    ensures r.Some? ==> rh == rh0 + RhSet(r.value) && lh == lh0 + LhSet(r.value)
    ensures r.Some? ==> (poly <==> Seen(rh0, r.value))
  {
    var es: seq<Eq> := [];
    rh, lh, poly := rh0, lh0, false;
    var i := 0;
    while i < |lines|
      invariant i <= |lines|
      invariant Eqs(lines[..i]) == Some(es)
      invariant rh == rh0 + RhSet(es) && lh == lh0 + LhSet(es)
      invariant poly <==> Seen(rh0, es)
    {
      var e := EqnSeparate(lines[i]);
      if e.None? {
        EqsSnoc(lines, i, es);
        EqsStops(lines, i + 1);
        return None, rh, lh, poly;
      }
      var (lhs, rhs) := e.value;
      Fermi2Step(rh0, lh0, es, e.value, rh, lh, poly);
      if rhs in rh {
        poly := true;
      } else {
        rh := rh + {rhs};
      }
      var key := MakeKey(lhs);
      if key !in lh {
        lh := lh + {key};
      }
      EqsSnoc(lines, i, es);
      es := es + [e.value];
      i := i + 1;
    }
    assert lines[..i] == lines;
    r := Some(es);
  }

  /** The sets one FERMI1 equation further. */
  lemma Fermi1Step(es: seq<Eq>, e: Eq, rh: set<int>, lh: set<string>)
    requires rh == RhSet(es) && lh == LhSet(es)
    ensures rh + {e.1} == RhSet(es + [e]) && lh + {Key(e.0)} == LhSet(es + [e])
    ensures e.1 in rh ==> rh == RhSet(es + [e])
    ensures Key(e.0) in lh ==> lh == LhSet(es + [e])
  {
    RhSetSnoc(es, e);
    LhSetSnoc(es, e);
  }

  /** The sets and the polyad flag one FERMI2 equation further. */
  lemma Fermi2Step(rh0: set<int>, lh0: set<string>, es: seq<Eq>, e: Eq, rh: set<int>, lh: set<string>, poly: bool)
    requires rh == rh0 + RhSet(es) && lh == lh0 + LhSet(es) && (poly <==> Seen(rh0, es))
    ensures rh + {e.1} == rh0 + RhSet(es + [e]) && lh + {Key(e.0)} == lh0 + LhSet(es + [e])
    ensures e.1 in rh ==> rh == rh0 + RhSet(es + [e])
    ensures Key(e.0) in lh ==> lh == lh0 + LhSet(es + [e])
    ensures (poly || e.1 in rh) <==> Seen(rh0, es + [e])
  {
    SeenSnoc(rh0, es, e);
    RhSetSnoc(es, e);
    LhSetSnoc(es, e);
    var r, l := RhSet(es), LhSet(es);
    assert RhSet(es + [e]) == r + {e.1} && LhSet(es + [e]) == l + {Key(e.0)};
    assert rh0 + (r + {e.1}) == rh + {e.1} && lh0 + (l + {Key(e.0)}) == lh + {Key(e.0)};
  }

  /** The fold of EqnSeparate one line further. */
  lemma EqsSnoc(lines: seq<string>, i: nat, es: seq<Eq>)
    requires i < |lines| && Eqs(lines[..i]) == Some(es)
    ensures Eqs(lines[..i + 1]) == match Separated(lines[i]) case None => None case Some(e) => Some(es + [e])
  {
    assert lines[..i + 1][..i] == lines[..i];
  }

  /** A line that panics ends the whole loop in a panic. */
  lemma {:induction false} EqsStops(lines: seq<string>, i: nat)
    requires i <= |lines| && Eqs(lines[..i]) == None
    ensures Eqs(lines) == None
    decreases |lines| - i
  {
    if i < |lines| {
      assert lines[..i + 1][..i] == lines[..i];
      EqsStops(lines, i + 1);
    } else {
      assert lines[..i] == lines;
    }
  }

  /** A set that is not empty has an element. */
  lemma NonEmpty(s: set<int>)
    requires s != {}
    ensures exists x :: x in s
  {
    if forall x :: x !in s {
      assert false;
    }
  }

  /** The RESIN lines of the right-hand modes, walked in some order. */
  method RhsLines(n: int, rh: set<int>) returns (text: string, rs: seq<int>)
    ensures Enumerates(rs, rh) && text == RhResin(n, rs)
  {
    text, rs := "", [];
    var rem := rh;
    while rem != {}
      invariant rem <= rh
      invariant forall x :: x in rh <==> x in rem || x in rs
      invariant forall x :: x in rem ==> x !in rs
      invariant forall i, j :: 0 <= i < j < |rs| ==> rs[i] != rs[j]
      invariant text == RhResin(n, rs)
      decreases |rem|
    {
      NonEmpty(rem);
      var k :| k in rem;
      var line := ResinLine(n, 1, [k]);
      assert (rs + [k])[..|rs|] == rs;
      text := text + line;
      rs := rs + [k];
      rem := rem - {k};
    }
  }

  /** The RESIN lines of the left-hand sides, walked in some order, each
   *  key read back into its modes. */
  method KeyLines(n: int, lh: set<string>) returns (text: string, ks: seq<string>)
    ensures Enumerates(ks, lh) && text == KeyResin(n, ks)
  {
    text, ks := "", [];
    var rem := lh;
    while rem != {}
      invariant rem <= lh
      invariant forall x :: x in lh <==> x in rem || x in ks
      invariant forall x :: x in rem ==> x !in ks
      invariant forall i, j :: 0 <= i < j < |ks| ==> ks[i] != ks[j]
      invariant text == KeyResin(n, ks)
      decreases |rem|
    {
      var k :| k in rem;
      var num := 1;
      var ints := Ints(k);
      if |ints| == 1 {
        num := 2;
      }
      var line := ResinLine(n, num, ints);
      assert (ks + [k])[..|ks|] == ks;
      text := text + line;
      ks := ks + [k];
      rem := rem - {k};
    }
  }

  /** ReadOutput's handling of one line. */
  method ScanLine(st: Scan, line: string) returns (r: Option<Scan>)
    ensures r == Step(st, Classify(line))
  {
    if st.skip > 0 {
      return Some(st.(skip := st.skip - 1));
    }
    var c := TakeLine(st.cor, 0, line);
    if c.None? {
      return None;
    }
    var a := TakeLine(st.f1, 1, line);
    if a.None? {
      return None;
    }
    var b := TakeLine(st.f2, 2, line);
    if b.None? {
      return None;
    }
    r := MarkLine(Scan(0, c.value, a.value, b.value), line);
  }

  /** The handling of one line by one open section. */
  method TakeLine(sec: Sec, k: int, line: string) returns (r: Option<Sec>)
    ensures r == Take(sec, k, Classify(line))
  {
    if !sec.on {
      return Some(sec);
    }
    if line == "" {
      return Some(sec.(on := false));
    }
    var p := ParseLine(k, line);
    if p.None? {
      return None;
    }
    r := Some(Sec(true, sec.count + 1, sec.text + p.value));
  }

  /** Section k's parser: ParseCoriol, ParseFermi1 or ParseFermi2. */
  function ParseLine(k: int, line: string): (r: Option<string>)
    ensures r == Parse(k, Classify(line))
  {
    if k == 0 then Coriol(line) else if k == 1 then Fermi1(line) else Fermi2(line)
  }

  /** The header check of one line. */
  method MarkLine(st: Scan, line: string) returns (r: Option<Scan>)
    ensures r == Mark(st, Classify(line).kind)
  {
    if Contains(line, CoriolHeader) {
      r := Some(st.(skip := 3, cor := st.cor.(on := true)));
    } else if Contains(line, FermiHeader) {
      var fields := Fields(line);
      if |fields| < 4 {
        return None;
      }
      if fields[3] == "1" {
        r := Some(st.(skip := 3, f1 := st.f1.(on := true)));
      } else {
        r := Some(st.(skip := 3, f2 := st.f2.(on := true)));
      }
    } else {
      r := Some(st);
    }
  }

  /** The spectro input being prepared: its header and the resonance
   *  sections read from a previous run. */
  class Spectro {
    var head: string
    var fermi1: string
    var fermi2: string
    var polyad: string
    var coriol: string
    var nfreqs: int

    constructor(h: string)
      ensures head == h && fermi1 == "" && fermi2 == "" && polyad == "" && coriol == "" && nfreqs == 0
    {
      head, fermi1, fermi2, polyad, coriol, nfreqs := h, "", "", "", "", 0;
    }

    /** LoadSpectro: the file's lines, each with its newline, as the
     *  header; null for the panic of a file that cannot be opened. */
    static method LoadSpectro(file: Option<seq<string>>) returns (s: Spectro?)
      ensures file.None? <==> s == null
      ensures s != null ==> (fresh(s) && s.head == Lines(file.value) && s.fermi1 == "" && s.fermi2 == "" &&
                             s.polyad == "" && s.coriol == "" && s.nfreqs == 0)
    {
      if file.None? {
        return null;
      }
      var lines := file.value;
      var buf := "";
      var i := 0;
      while i < |lines|
        invariant i <= |lines| && buf == Lines(lines[..i])
      {
        assert lines[..i + 1][..i] == lines[..i];
        buf := buf + lines[i] + "\n";
        i := i + 1;
      }
      assert lines[..i] == lines;
      s := new Spectro(buf);
    }

    /** WriteInput's text. */
    method WriteInput() returns (text: string)
      ensures text == Written(head, coriol, fermi1, fermi2, polyad)
    {
      var c := SectionText(coriol);
      var a := SectionText(fermi1);
      var b := SectionText(fermi2);
      var r := SectionText(polyad);
      text := head + "# CORIOL #####\n" + c + "# FERMI1 ####\n" + a + "# FERMI2 ####\n" + b + "# RESIN ####\n" + r;
    }

    /** CheckPolyad: false for a panic, which leaves the RESIN section as
     *  it was. */
    method CheckPolyad() returns (ok: bool, ghost rs: seq<int>, ghost ks: seq<string>)
      modifies this
      ensures head == old(head) && fermi1 == old(fermi1) && fermi2 == old(fermi2) && coriol == old(coriol) && nfreqs == old(nfreqs)
      ensures ok <==> CheckOk(fermi1, fermi2)
      ensures ok ==> Checked(fermi1, fermi2, nfreqs, old(polyad), polyad, rs, ks)
      ensures !ok ==> polyad == old(polyad)
    {
      rs, ks := [], [];
      var sp1 := Split(fermi1, "\n");
      if |sp1| < 2 {
        ok := false;
        return;
      }
      var r1, rh, lh := CollectFermi1(sp1[1..|sp1| - 1]);
      var sp2 := Split(fermi2, "\n");
      if r1.None? || |sp2| < 2 {
        ok := false;
        return;
      }
      var r2, rh2, lh2, poly := CollectFermi2(sp2[1..|sp2| - 1], rh, lh);
      if r2.None? {
        ok := false;
        return;
      }
      ok := true;
      var e1, e2 := r1.value, r2.value;
      assert poly <==> Poly(e1, e2);
      if !poly {
        return;
      }
      SetsOfBoth(e1, e2);
      polyad, rs, ks := PolyadOf(nfreqs, rh2, lh2);
    }

    /** ReadOutput: the resonance tables of the output file appended to
     *  the sections, each count put in front, then CheckPolyad. false for
     *  a panic; a panic while reading leaves the sections as they were. */
    method ReadOutput(file: Option<seq<string>>) returns (ok: bool, ghost rs: seq<int>, ghost ks: seq<string>)
      modifies this
      ensures head == old(head) && nfreqs == old(nfreqs)
      ensures var r := if file.None? then None else ReadText(old(coriol), old(fermi1), old(fermi2), file.value);
        if r.None? then
          !ok && coriol == old(coriol) && fermi1 == old(fermi1) && fermi2 == old(fermi2) && polyad == old(polyad)
        else
          (coriol, fermi1, fermi2) == r.value && (ok <==> CheckOk(fermi1, fermi2)) &&
          (ok ==> Checked(fermi1, fermi2, nfreqs, old(polyad), polyad, rs, ks)) && (!ok ==> polyad == old(polyad))
    {
      rs, ks := [], [];
      var r := ReadSections(coriol, fermi1, fermi2, file);
      if r.None? {
        ok := false;
        return;
      }
      coriol, fermi1, fermi2 := r.value.0, r.value.1, r.value.2;
      ok, rs, ks := CheckPolyad();
    }
  }

  /** The RESIN section of a polyad. */
  method PolyadOf(n: int, rh: set<int>, lh: set<string>) returns (text: string, rs: seq<int>, ks: seq<string>)
    ensures Enumerates(rs, rh) && Enumerates(ks, lh) && text == PolyadText(n, rs, ks)
  {
    var resin, more;
    resin, rs := RhsLines(n, rh);
    more, ks := KeyLines(n, lh);
    var count := |rs| + |ks|;
    text := Int5(1) + "\n" + Int5(count) + "\n" + resin + more;
  }

  /** ReadOutput up to CheckPolyad: the new sections, or None for a
   *  panic. */
  method ReadSections(coriol: string, fermi1: string, fermi2: string, file: Option<seq<string>>) returns (r: Option<(string, string, string)>)
    ensures r == if file.None? then None else ReadText(coriol, fermi1, fermi2, file.value)
  {
    if file.None? {
      return None;
    }
    var st := ScanLines(Init(coriol, fermi1, fermi2), file.value);
    if st.None? {
      return None;
    }
    var s := st.value;
    r := Some((Int5(s.cor.count) + "\n" + Int5(0) + "\n" + s.cor.text,
               Int5(s.f1.count) + "\n" + s.f1.text,
               Int5(s.f2.count) + "\n" + s.f2.text));
  }

  /** ReadOutput's loop over the lines of the output. */
  method ScanLines(init: Scan, lines: seq<string>) returns (r: Option<Scan>)
    ensures r == Scanned(init, Map(Classify, lines))
  {
    ghost var xs := Map(Classify, lines);
    var st := init;
    var i := 0;
    while i < |lines|
      invariant i <= |lines|
      invariant Scanned(init, xs) == Scanned(st, xs[i..])
    {
      assert xs[i..][0] == Classify(lines[i]) && xs[i..][1..] == xs[i + 1..];
      var next := ScanLine(st, lines[i]);
      if next.None? {
        return None;
      }
      ScannedStep(st, xs[i..], next.value);
      st := next.value;
      i := i + 1;
    }
    return Some(st);
  }

  /** One section of WriteInput. */
  method SectionText(s: string) returns (t: string)
    ensures t == Section(s)
  {
    if s != "" {
      t := s;
    } else {
      t := Int5(0) + "\n";
    }
  }

  /** The sets CheckPolyad builds over both sections. */
  lemma SetsOfBoth(e1: seq<Eq>, e2: seq<Eq>)
    ensures RhSet(e1 + e2) == RhSet(e1) + RhSet(e2) && LhSet(e1 + e2) == LhSet(e1) + LhSet(e2)
  {
    RhSetAppend(e1, e2);
    LhSetAppend(e1, e2);
  }

  lemma RhSetAppend(e1: seq<Eq>, e2: seq<Eq>)
    ensures RhSet(e1 + e2) == RhSet(e1) + RhSet(e2)
  {
    var xs := e1 + e2;
    forall r ensures r in RhSet(xs) <==> r in RhSet(e1) + RhSet(e2) {
      if r in RhSet(xs) {
        var i :| 0 <= i < |xs| && xs[i].1 == r;
        if i >= |e1| { assert e2[i - |e1|] == xs[i]; } else { assert e1[i] == xs[i]; }
      }
      if r in RhSet(e1) {
        var i :| 0 <= i < |e1| && e1[i].1 == r;
        assert xs[i] == e1[i];
      }
      if r in RhSet(e2) {
        var i :| 0 <= i < |e2| && e2[i].1 == r;
        assert xs[|e1| + i] == e2[i];
      }
    }
  }

  lemma LhSetAppend(e1: seq<Eq>, e2: seq<Eq>)
    ensures LhSet(e1 + e2) == LhSet(e1) + LhSet(e2)
  {
    var xs := e1 + e2;
    forall r ensures r in LhSet(xs) <==> r in LhSet(e1) + LhSet(e2) {
      if r in LhSet(xs) {
        var i :| 0 <= i < |xs| && Key(xs[i].0) == r;
        if i >= |e1| { assert e2[i - |e1|] == xs[i]; } else { assert e1[i] == xs[i]; }
      }
      if r in LhSet(e1) {
        var i :| 0 <= i < |e1| && Key(e1[i].0) == r;
        assert xs[i] == e1[i];
      }
      if r in LhSet(e2) {
        var i :| 0 <= i < |e2| && Key(e2[i].0) == r;
        assert xs[|e1| + i] == e2[i];
      }
    }
  }
}
