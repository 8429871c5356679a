/** anpass.go: the anpass template (LoadAnpass), the body written from
 *  the energies (BuildBody, WriteAnpass, WriteAnpass2) and the long line
 *  read back from an anpass output (GetLongLine). Parsing a number and
 *  printing one with a `%…f` format are function parameters. */
module AnpassFile {
  import opened Text
  import Zmat
  import Utils
  import MolproFile

  /** The Anpass struct: the header up to the format line, the two
   *  formats, the displacement rows and the lines from "UNKNOWNS" on. */
  datatype Anpass = Anpass(head: string, fmt1: string, fmt2: string, body: string, tail: string)

  const Empty := Anpass("", "", "", "", "")

  // ---------------------------------------------------------------------
  // LoadAnpass

  /** Which part of the template the loop is in: the `head` and `body`
   *  flags of the Go loop, the `tail` flag being the third case. */
  datatype Phase = InHead | InBody | InTail

  /** The state of the loop; Panicked for an index out of range. */
  datatype Load = Load(phase: Phase, a: Anpass, buf: string) | Panicked

  /** The two formats of a format line `(…F…F…)`: the text after the
   *  first "F" without its last character (the comma) and the text after
   *  the second "F", each between "%" and "f"; None where the slicing
   *  panics. */
  function Formats(line: string): (r: Option<(string, string)>)
    ensures r.Some? ==> |line| >= 2
  {
    if |line| < 2 then None
    else
      var s := Split(ToUpper(line[1..|line| - 1]), "F");
      if |s| < 3 || s[1] == "" then None
      else Some(("%" + s[1][..|s[1]| - 1] + "f", "%" + s[2] + "f"))
  }

  /** Text that upper-casing leaves alone and that holds no "F". */
  predicate Plain(w: string) {
    forall k :: 0 <= k < |w| ==> Upper(w[k]) == w[k] && w[k] != 'F'
  }

  /** A format line `(nFw1,Fw2)` built from plain pieces gives back the
   *  formats `%w1f` and `%w2f`. */
  lemma FormatsOfLine(n: string, w1: string, w2: string)
    requires Plain(n) && Plain(w1) && Plain(w2)
    ensures Formats("(" + n + "F" + w1 + ",F" + w2 + ")") == Some(("%" + w1 + "f", "%" + w2 + "f"))
  {
    var inner := n + ['F'] + ((w1 + [',']) + ['F'] + w2);
    InnerOfLine(n, w1, w2, inner);
    UpperPlain(n, w1, w2, inner);
    SplitPlain(n, w1, w2, inner);
    assert (w1 + [','])[..|w1|] == w1;
  }

  lemma InnerOfLine(n: string, w1: string, w2: string, inner: string)
    requires inner == n + ['F'] + ((w1 + [',']) + ['F'] + w2)
    ensures var line := "(" + n + "F" + w1 + ",F" + w2 + ")"; |line| >= 2 && line[1..|line| - 1] == inner
  {
  }

  lemma UpperPlain(n: string, w1: string, w2: string, inner: string)
    requires Plain(n) && Plain(w1) && Plain(w2)
    requires inner == n + ['F'] + ((w1 + [',']) + ['F'] + w2)
    ensures ToUpper(inner) == inner
  {
    forall k | 0 <= k < |inner| ensures Upper(inner[k]) == inner[k] {
      if k < |n| { assert inner[k] == n[k]; }
      else if k == |n| || k == |n| + |w1| + 1 || k == |n| + |w1| + 2 { }
      else if k <= |n| + |w1| { assert inner[k] == w1[k - |n| - 1]; }
      else { assert inner[k] == w2[k - |n| - |w1| - 3]; }
    }
  }

  lemma SplitPlain(n: string, w1: string, w2: string, inner: string)
    requires Plain(n) && Plain(w1) && Plain(w2)
    requires inner == n + ['F'] + ((w1 + [',']) + ['F'] + w2)
    ensures Split(inner, "F") == [n, w1 + [','], w2]
  {
    Utils.SplitNone(w2, 'F');
    Utils.SplitCons(w1 + [','], 'F', w2);
    Utils.SplitCons(n, 'F', (w1 + [',']) + ['F'] + w2);
  }

  /** Each field printed with the format, errors of the parse read as 0. */
  function Row(fields: seq<string>, fmt: string, parse: string -> Option<real>, format: (string, real) -> string): string
    decreases |fields|
  {
    if fields == [] then ""
    else Row(fields[..|fields| - 1], fmt, parse, format) + format(fmt, MolproFile.OrZero(parse(fields[|fields| - 1])))
  }

  /** A body line of the template rewritten: every field but the last
   *  (the energy) printed with the first format, then a newline. */
  function BodyLine(line: string, fmt: string, parse: string -> Option<real>, format: (string, real) -> string): string {
    var f := Fields(line);
    (if f == [] then "" else Row(f[..|f| - 1], fmt, parse, format)) + "\n"
  }

  /** One turn of the loop. */
  function Step(st: Load, line: string, parse: string -> Option<real>, format: (string, real) -> string): Load {
    match st
    case Panicked => Panicked
    case Load(ph, a, buf) =>
      if ph.InHead? && (line == "" || line[0] == '(') then
        if line == "" then Panicked
        else
          match Formats(line)
          case None => Panicked
          case Some(fs) => Load(InBody, a.(head := buf + line + "\n", fmt1 := fs.0, fmt2 := fs.1), "")
      else if ph.InHead? then Load(InHead, a, buf + line + "\n")
      else if ph.InBody? && !Contains(line, "UNKNOWNS") then
        Load(InBody, a.(body := a.body + buf + BodyLine(line, a.fmt1, parse, format)), "")
      else Load(InTail, a.(tail := a.tail + line + "\n"), buf + line + "\n")
  }

  /** The loop over the lines. */
  function Loaded(ls: seq<string>, parse: string -> Option<real>, format: (string, real) -> string): Load
    decreases |ls|
  {
    if ls == [] then Load(InHead, Empty, "")
    else Step(Loaded(ls[..|ls| - 1], parse, format), ls[|ls| - 1], parse, format)
  }

  /** LoadAnpass: a file that cannot be read is read as empty. */
  function LoadOf(file: Option<string>, parse: string -> Option<real>, format: (string, real) -> string): Result<Anpass, string> {
    var content := if file.None? then "" else file.value;
    match Loaded(Split(content, "\n"), parse, format)
    case Panicked => Err("index out of range")
    case Load(_, a, _) => Ok(a)
  }

  /** The body rows of the template lines. */
  function BodyText(ls: seq<string>, fmt: string, parse: string -> Option<real>, format: (string, real) -> string): string
    decreases |ls|
  {
    if ls == [] then ""
    else BodyText(ls[..|ls| - 1], fmt, parse, format) + BodyLine(ls[|ls| - 1], fmt, parse, format)
  }

  lemma LoadedSnoc(ls: seq<string>, j: nat, parse: string -> Option<real>, format: (string, real) -> string)
    requires j < |ls|
    ensures Loaded(ls[..j + 1], parse, format) == Step(Loaded(ls[..j], parse, format), ls[j], parse, format)
  {
    assert ls[..j + 1][..j] == ls[..j];
  }

  lemma StepBody(a: Anpass, line: string, parse: string -> Option<real>, format: (string, real) -> string)
    requires !Contains(line, "UNKNOWNS")
    ensures Step(Load(InBody, a, ""), line, parse, format) == Load(InBody, a.(body := a.body + BodyLine(line, a.fmt1, parse, format)), "")
  {
    assert a.body + "" == a.body;
  }

  lemma StepTail(a: Anpass, buf: string, line: string, parse: string -> Option<real>, format: (string, real) -> string)
    ensures Step(Load(InTail, a, buf), line, parse, format) == Load(InTail, a.(tail := a.tail + (line + "\n")), buf + (line + "\n"))
  {
    Assoc(a.tail, line, "\n");
    Assoc(buf, line, "\n");
  }

  /** A header line: neither empty (which panics) nor the format line. */
  predicate HeadLine(line: string) {
    line != "" && line[0] != '('
  }

  lemma PanickedStays(ls: seq<string>, i: nat, parse: string -> Option<real>, format: (string, real) -> string)
    requires i <= |ls| && Loaded(ls[..i], parse, format) == Panicked
    ensures Loaded(ls, parse, format) == Panicked
    decreases |ls| - i
  {
    if i < |ls| {
      assert ls[..i + 1][..i] == ls[..i];
      PanickedStays(ls, i + 1, parse, format);
    } else {
      assert ls[..i] == ls;
    }
  }

  lemma {:induction false} HeadFold(ls: seq<string>, i: nat, parse: string -> Option<real>, format: (string, real) -> string)
    requires i <= |ls| && forall k :: 0 <= k < i ==> HeadLine(ls[k])
    ensures Loaded(ls[..i], parse, format) == Load(InHead, Empty, Lines(ls[..i]))
  {
    if i > 0 {
      HeadFold(ls, i - 1, parse, format);
      assert ls[..i][..i - 1] == ls[..i - 1];
      assert HeadLine(ls[i - 1]);
    }
  }

  lemma {:induction false} BodyFold(ls: seq<string>, i: nat, j: nat, a: Anpass, parse: string -> Option<real>, format: (string, real) -> string)
    requires i <= j <= |ls| && Loaded(ls[..i], parse, format) == Load(InBody, a, "")
    requires forall k :: i <= k < j ==> !Contains(ls[k], "UNKNOWNS")
    ensures Loaded(ls[..j], parse, format) == Load(InBody, a.(body := a.body + BodyText(ls[i..j], a.fmt1, parse, format)), "")
    decreases j
  {
    if j == i {
      assert ls[i..j] == [];
    } else {
      BodyFold(ls, i, j - 1, a, parse, format);
      var t := BodyText(ls[i..j - 1], a.fmt1, parse, format);
      var x := BodyLine(ls[j - 1], a.fmt1, parse, format);
      var b := a.(body := a.body + t);
      LoadedSnoc(ls, j - 1, parse, format);
      StepBody(b, ls[j - 1], parse, format);
      BodyTextSlice(ls, i, j, a.fmt1, parse, format);
      Assoc(a.body, t, x);
    }
  }

  lemma BodyTextSlice(ls: seq<string>, i: nat, j: nat, fmt: string, parse: string -> Option<real>, format: (string, real) -> string)
    requires i < j <= |ls|
    ensures BodyText(ls[i..j], fmt, parse, format) == BodyText(ls[i..j - 1], fmt, parse, format) + BodyLine(ls[j - 1], fmt, parse, format)
  {
    var xs := ls[i..j];
    assert xs[..|xs| - 1] == ls[i..j - 1];
    assert xs[|xs| - 1] == ls[j - 1];
    BodyTextSnoc(xs, fmt, parse, format);
  }

  lemma BodyTextSnoc(xs: seq<string>, fmt: string, parse: string -> Option<real>, format: (string, real) -> string)
    requires xs != []
    ensures BodyText(xs, fmt, parse, format) == BodyText(xs[..|xs| - 1], fmt, parse, format) + BodyLine(xs[|xs| - 1], fmt, parse, format)
  {
  }

  lemma {:induction false} TailFold(ls: seq<string>, i: nat, j: nat, a: Anpass, buf: string, parse: string -> Option<real>, format: (string, real) -> string)
    requires i <= j <= |ls| && Loaded(ls[..i], parse, format) == Load(InTail, a, buf)
    ensures Loaded(ls[..j], parse, format) == Load(InTail, a.(tail := a.tail + Lines(ls[i..j])), buf + Lines(ls[i..j]))
    decreases j
  {
    if j == i {
      assert ls[i..j] == [];
      assert a.tail + "" == a.tail && buf + "" == buf;
      assert a.(tail := a.tail) == a;
    } else {
      TailFold(ls, i, j - 1, a, buf, parse, format);
      var l := Lines(ls[i..j - 1]);
      var x := ls[j - 1] + "\n";
      var st := Load(InTail, a.(tail := a.tail + l), buf + l);
      assert Loaded(ls[..j - 1], parse, format) == st;
      LoadedSnoc(ls, j - 1, parse, format);
      StepTail(st.a, st.buf, ls[j - 1], parse, format);
      assert Loaded(ls[..j], parse, format) == Load(InTail, a.(tail := (a.tail + l) + x), (buf + l) + x);
      LinesSlice(ls, i, j);
      Assoc(a.tail, l, x);
      Assoc(buf, l, x);
    }
  }

  lemma LinesSlice(ls: seq<string>, i: nat, j: nat)
    requires i < j <= |ls|
    ensures Lines(ls[i..j]) == Lines(ls[i..j - 1]) + (ls[j - 1] + "\n")
  {
    assert ls[i..j][..j - 1 - i] == ls[i..j - 1];
    Assoc(Lines(ls[i..j - 1]), ls[j - 1], "\n");
  }

  /** The state after the format line at h. */
  lemma FormatStep(ls: seq<string>, h: nat, fs: (string, string), parse: string -> Option<real>, format: (string, real) -> string)
    requires h < |ls| && forall k :: 0 <= k < h ==> HeadLine(ls[k])
    requires ls[h] != "" && ls[h][0] == '(' && Formats(ls[h]) == Some(fs)
    ensures Loaded(ls[..h + 1], parse, format) == Load(InBody, Anpass(Lines(ls[..h + 1]), fs.0, fs.1, "", ""), "")
  {
    HeadFold(ls, h, parse, format);
    assert ls[..h + 1][..h] == ls[..h];
    LinesSnoc(ls, h);
  }

  lemma LinesSnoc(ls: seq<string>, i: nat)
    requires i < |ls|
    ensures Lines(ls[..i + 1]) == Lines(ls[..i]) + ls[i] + "\n"
  {
    assert ls[..i + 1][..i] == ls[..i];
  }

  /** A template whose header lines are not empty, whose format line at h
   *  is well formed and whose first "UNKNOWNS" line after it is at u
   *  (|ls| when there is none) loads as: the lines through h as the
   *  header, the two formats of line h, the rows between h and u
   *  rewritten as the body, and the lines from u on as the tail. */
  lemma LoadLayout(ls: seq<string>, h: nat, u: nat, fs: (string, string), parse: string -> Option<real>, format: (string, real) -> string)
    requires h < u <= |ls|
    requires forall k :: 0 <= k < h ==> HeadLine(ls[k])
    requires ls[h] != "" && ls[h][0] == '(' && Formats(ls[h]) == Some(fs)
    requires forall k :: h < k < u ==> !Contains(ls[k], "UNKNOWNS")
    requires u < |ls| ==> Contains(ls[u], "UNKNOWNS")
    ensures Loaded(ls, parse, format).Load?
    ensures Loaded(ls, parse, format).a == Anpass(Lines(ls[..h + 1]), fs.0, fs.1, BodyText(ls[h + 1..u], fs.0, parse, format), Lines(ls[u..]))
  {
    BodyPart(ls, h, u, fs, parse, format);
    TailPart(ls, u, Anpass(Lines(ls[..h + 1]), fs.0, fs.1, BodyText(ls[h + 1..u], fs.0, parse, format), ""), parse, format);
  }

  /** Through the line before u, the header and the body are read. */
  lemma BodyPart(ls: seq<string>, h: nat, u: nat, fs: (string, string), parse: string -> Option<real>, format: (string, real) -> string)
    requires h < u <= |ls|
    requires forall k :: 0 <= k < h ==> HeadLine(ls[k])
    requires ls[h] != "" && ls[h][0] == '(' && Formats(ls[h]) == Some(fs)
    requires forall k :: h < k < u ==> !Contains(ls[k], "UNKNOWNS")
    ensures Loaded(ls[..u], parse, format) == Load(InBody, Anpass(Lines(ls[..h + 1]), fs.0, fs.1, BodyText(ls[h + 1..u], fs.0, parse, format), ""), "")
  {
    var a := Anpass(Lines(ls[..h + 1]), fs.0, fs.1, "", "");
    FormatStep(ls, h, fs, parse, format);
    BodyFold(ls, h + 1, u, a, parse, format);
    assert a.body + BodyText(ls[h + 1..u], fs.0, parse, format) == BodyText(ls[h + 1..u], fs.0, parse, format);
  }

  /** From the "UNKNOWNS" line at u on, every line goes to the tail. */
  lemma TailPart(ls: seq<string>, u: nat, b: Anpass, parse: string -> Option<real>, format: (string, real) -> string)
    requires u <= |ls| && Loaded(ls[..u], parse, format) == Load(InBody, b, "")
    requires u < |ls| ==> Contains(ls[u], "UNKNOWNS")
    ensures Loaded(ls, parse, format).Load?
    ensures Loaded(ls, parse, format).a == b.(tail := b.tail + Lines(ls[u..]))
  {
    if u == |ls| {
      assert ls[..u] == ls;
      assert ls[u..] == [];
      assert b.tail + "" == b.tail;
    } else {
      TailSome(ls, u, b, parse, format);
    }
  }

  lemma TailSome(ls: seq<string>, u: nat, b: Anpass, parse: string -> Option<real>, format: (string, real) -> string)
    requires u < |ls| && Loaded(ls[..u], parse, format) == Load(InBody, b, "") && Contains(ls[u], "UNKNOWNS")
    ensures Loaded(ls, parse, format).Load?
    ensures Loaded(ls, parse, format).a == b.(tail := b.tail + Lines(ls[u..]))
  {
    LoadedSnoc(ls, u, parse, format);
    StepUnknowns(b, ls[u], parse, format);
    var x := ls[u] + "\n";
    var c := b.(tail := b.tail + x);
    TailFold(ls, u + 1, |ls|, c, x, parse, format);
    assert ls[..|ls|] == ls;
    LinesCons(ls[u..]);
    assert ls[u..][1..] == ls[u + 1..];
    Assoc(b.tail, x, Lines(ls[u + 1..]));
  }

  lemma StepUnknowns(a: Anpass, line: string, parse: string -> Option<real>, format: (string, real) -> string)
    requires Contains(line, "UNKNOWNS")
    ensures Step(Load(InBody, a, ""), line, parse, format) == Load(InTail, a.(tail := a.tail + (line + "\n")), line + "\n")
  {
    Assoc(a.tail, line, "\n");
  }


  /** A file that cannot be read is empty, and its one empty line panics
   *  at the test for the format line. */
  lemma MissingFilePanics(parse: string -> Option<real>, format: (string, real) -> string)
    ensures LoadOf(None, parse, format).Err?
  {
    Utils.SplitNone("", '\n');
    assert [""][..0] == [];
  }

  /** An empty line before the format line panics. */
  lemma EmptyHeadLinePanics(ls: seq<string>, k: nat, parse: string -> Option<real>, format: (string, real) -> string)
    requires k < |ls| && ls[k] == "" && forall j :: 0 <= j < k ==> HeadLine(ls[j])
    ensures Loaded(ls, parse, format) == Panicked
  {
    HeadFold(ls, k, parse, format);
    assert ls[..k + 1][..k] == ls[..k];
    PanickedStays(ls, k + 1, parse, format);
  }

  // ---------------------------------------------------------------------
  // BuildBody, WriteAnpass, WriteAnpass2

  /** The rows BuildBody prints and whether the molecule is linear: the
   *  template's rows, or FromIntder's rows when the template has more
   *  rows than there are energies. FromIntder's text is a parameter. */
  function BodyRows(a: Anpass, energies: seq<real>, fromIntder: string): (seq<string>, bool) {
    var body := Split(TrimSpace(a.body), "\n");
    if |body| > |energies| then (Split(fromIntder, "\n"), true) else (body, false)
  }

  /** The first n rows printed: each non-empty row i as its fields in the
   *  first format and energy i in the second; Err for the index out of
   *  range when there is no energy i. */
  function Built(rows: seq<string>, n: nat, a: Anpass, energies: seq<real>, parse: string -> Option<real>, format: (string, real) -> string): Result<string, string>
    requires n <= |rows|
  {
    if n == 0 then Ok("")
    else Then(Built(rows, n - 1, a, energies, parse, format), Printed(rows[n - 1], n - 1, a, energies, parse, format))
  }

  /** The text so far followed by one more row. */
  function Then(b: Result<string, string>, p: Option<string>): Result<string, string> {
    match b
    case Err(e) => Err(e)
    case Ok(s) =>
      match p
      case None => Err("index out of range")
      case Some(x) => Ok(s + x)
  }

  /** Row i as printed: nothing for an empty row, None when there is no
   *  energy i. */
  function Printed(row: string, i: nat, a: Anpass, energies: seq<real>, parse: string -> Option<real>, format: (string, real) -> string): Option<string> {
    if row == "" then Some("")
    else if i >= |energies| then None
    else Some(Row(Fields(row), a.fmt1, parse, format) + format(a.fmt2 + "\n", energies[i]))
  }

  /** BuildBody: the body text and whether the molecule is linear. */
  function BodyOf(a: Anpass, energies: seq<real>, fromIntder: string, parse: string -> Option<real>, format: (string, real) -> string): Result<(string, bool), string> {
    var (rows, lin) := BodyRows(a, energies, fromIntder);
    match Built(rows, |rows|, a, energies, parse, format)
    case Err(e) => Err(e)
    case Ok(s) => Ok((s, lin))
  }

  /** Printing panics exactly when some non-empty row among the first n
   *  has no energy. */
  lemma {:induction false} BuiltPanicIff(rows: seq<string>, n: nat, a: Anpass, energies: seq<real>, parse: string -> Option<real>, format: (string, real) -> string)
    requires n <= |rows|
    ensures Built(rows, n, a, energies, parse, format).Err? <==> exists i :: 0 <= i < n && rows[i] != "" && i >= |energies|
  {
    if n > 0 {
      BuiltPanicIff(rows, n - 1, a, energies, parse, format);
      if rows[n - 1] != "" && n - 1 >= |energies| {
        assert exists i :: 0 <= i < n && rows[i] != "" && i >= |energies| by {
          assert rows[n - 1] != "" && n - 1 >= |energies|;
        }
      }
    }
  }

  /** BuildBody panics only for a linear molecule, and then exactly when
   *  FromIntder's text has a non-empty row beyond the energies. */
  lemma BodyPanics(a: Anpass, energies: seq<real>, fromIntder: string, parse: string -> Option<real>, format: (string, real) -> string)
    ensures var (rows, lin) := BodyRows(a, energies, fromIntder);
      BodyOf(a, energies, fromIntder, parse, format).Err? <==> lin && exists i :: 0 <= i < |rows| && rows[i] != "" && i >= |energies|
  {
    var (rows, lin) := BodyRows(a, energies, fromIntder);
    BuiltPanicIff(rows, |rows|, a, energies, parse, format);
  }

  /** WriteAnpass: the header, the body and the tail, and whether the
   *  molecule is linear. */
  function WriteAnpass(a: Anpass, energies: seq<real>, fromIntder: string, parse: string -> Option<real>, format: (string, real) -> string): (r: Result<(string, bool), string>)
    ensures r.Err? <==> BodyOf(a, energies, fromIntder, parse, format).Err?
    ensures r.Ok? ==> |r.value.0| >= |a.head| + |a.tail| && r.value.0[..|a.head|] == a.head && r.value.0[|r.value.0| - |a.tail|..] == a.tail
  {
    var b := BodyOf(a, energies, fromIntder, parse, format);
    if b.Err? then Err(b.error)
    else
      Framed(a.head, b.value.0, a.tail);
      Ok((a.head + b.value.0 + a.tail, b.value.1))
  }

  lemma Framed(h: string, m: string, t: string)
    ensures var s := h + m + t;
      |s| >= |h| + |t| && s[..|h|] == h && s[|s| - |t|..] == t
  {
  }

  /** BuildBody reports a linear molecule exactly when the template has
   *  more rows than there are energies. */
  lemma LinearIff(a: Anpass, energies: seq<real>, fromIntder: string, parse: string -> Option<real>, format: (string, real) -> string)
    requires BodyOf(a, energies, fromIntder, parse, format).Ok?
    ensures BodyOf(a, energies, fromIntder, parse, format).value.1 <==> |Split(TrimSpace(a.body), "\n")| > |energies|
  {
  }

  /** A tail line as WriteAnpass2 writes it: "STATIONARY POINT" and the
   *  long line before an "END OF DATA" line, nothing for a
   *  "!STATIONARY POINT" line. */
  function TailLine(line: string, longLine: string): string {
    if Contains(line, "END OF DATA") then "STATIONARY POINT\n" + longLine + "\n" + line + "\n"
    else if Contains(line, "!STATIONARY POINT") then ""
    else line + "\n"
  }

  function Stationary(ls: seq<string>, longLine: string): string
    decreases |ls|
  {
    if ls == [] then "" else Stationary(ls[..|ls| - 1], longLine) + TailLine(ls[|ls| - 1], longLine)
  }

  /** The lines that do not hold "!STATIONARY POINT". */
  function Unmarked(ls: seq<string>): (r: seq<string>)
    ensures forall k :: 0 <= k < |r| ==> !Contains(r[k], "!STATIONARY POINT")
    decreases |ls|
  {
    if ls == [] then []
    else if Contains(ls[|ls| - 1], "!STATIONARY POINT") then Unmarked(ls[..|ls| - 1])
    else Unmarked(ls[..|ls| - 1]) + [ls[|ls| - 1]]
  }

  /** Without an "END OF DATA" line, the stationary tail is the tail
   *  without its "!STATIONARY POINT" lines. */
  lemma {:induction false} StationaryDrops(ls: seq<string>, longLine: string)
    requires forall k :: 0 <= k < |ls| ==> !Contains(ls[k], "END OF DATA")
    ensures Stationary(ls, longLine) == Lines(Unmarked(ls))
    decreases |ls|
  {
    if ls != [] {
      var init := ls[..|ls| - 1];
      var last := ls[|ls| - 1];
      assert forall k :: 0 <= k < |init| ==> init[k] == ls[k];
      StationaryDrops(init, longLine);
      assert !Contains(last, "END OF DATA");
      assert Stationary(ls, longLine) == Stationary(init, longLine) + TailLine(last, longLine);
      if !Contains(last, "!STATIONARY POINT") {
        var u := Unmarked(init) + [last];
        assert Unmarked(ls) == u;
        assert u[..|u| - 1] == Unmarked(init);
        assert Lines(u) == Lines(Unmarked(init)) + last + "\n";
      } else {
        assert Unmarked(ls) == Unmarked(init);
      }
    }
  }

  /** Rewriting a tail works piece by piece. */
  lemma {:induction false} StationaryAppend(xs: seq<string>, ys: seq<string>, longLine: string)
    ensures Stationary(xs + ys, longLine) == Stationary(xs, longLine) + Stationary(ys, longLine)
    decreases |ys|
  {
    if ys == [] {
      assert xs + ys == xs;
    } else {
      var init := ys[..|ys| - 1];
      var zs := xs + ys;
      assert zs[..|zs| - 1] == xs + init;
      assert zs[|zs| - 1] == ys[|ys| - 1];
      StationaryAppend(xs, init, longLine);
      var t := TailLine(ys[|ys| - 1], longLine);
      StationarySnoc(zs, xs + init, t, longLine);
      StationarySnoc(ys, init, t, longLine);
      Assoc(Stationary(xs, longLine), Stationary(init, longLine), t);
    }
  }

  /** Stationary of a non-empty list: its first lines, then its last. */
  lemma StationarySnoc(ls: seq<string>, init: seq<string>, t: string, longLine: string)
    requires ls != [] && init == ls[..|ls| - 1] && t == TailLine(ls[|ls| - 1], longLine)
    ensures Stationary(ls, longLine) == Stationary(init, longLine) + t
  {
  }

  /** A tail of one line is that line rewritten. */
  lemma StationaryOne(line: string, longLine: string)
    ensures Stationary([line], longLine) == TailLine(line, longLine)
  {
    assert [line][..0] == [];
  }

  /** With one "END OF DATA" line, at index k, the rewritten tail is the
   *  lines before it without "!STATIONARY POINT" lines, then
   *  "STATIONARY POINT" and the long line, then the END OF DATA line
   *  itself, then the lines after it, again without "!STATIONARY POINT"
   *  lines. */
  lemma StationaryInserts(ls: seq<string>, longLine: string, k: nat)
    requires k < |ls| && Contains(ls[k], "END OF DATA")
    requires forall j :: 0 <= j < |ls| && j != k ==> !Contains(ls[j], "END OF DATA")
    ensures Stationary(ls, longLine) ==
      Lines(Unmarked(ls[..k])) + "STATIONARY POINT\n" + longLine + "\n" + ls[k] + "\n" + Lines(Unmarked(ls[k + 1..]))
  {
    var before := ls[..k];
    var after := ls[k + 1..];
    StationaryAround(ls, k, longLine);
    NoEndIn(ls, k, 0, k, before);
    NoEndIn(ls, k, k + 1, |ls|, after);
    StationaryDrops(before, longLine);
    StationaryDrops(after, longLine);
    Regroup(Lines(Unmarked(before)), "STATIONARY POINT\n", longLine, "\n", ls[k], Lines(Unmarked(after)));
  }

  /** The tail rewritten around line k. */
  lemma StationaryAround(ls: seq<string>, k: nat, longLine: string)
    requires k < |ls|
    ensures Stationary(ls, longLine) == Stationary(ls[..k], longLine) + TailLine(ls[k], longLine) + Stationary(ls[k + 1..], longLine)
  {
    var mid := [ls[k]];
    assert ls == (ls[..k] + mid) + ls[k + 1..];
    StationaryAppend(ls[..k] + mid, ls[k + 1..], longLine);
    StationaryAppend(ls[..k], mid, longLine);
    StationaryOne(ls[k], longLine);
  }

  lemma Regroup<T>(a: seq<T>, p: seq<T>, l: seq<T>, n: seq<T>, x: seq<T>, b: seq<T>)
    ensures a + (p + l + n + x + n) + b == a + p + l + n + x + n + b
  {
  }

  /** A slice of the tail that leaves out line k has no END OF DATA line. */
  lemma NoEndIn(ls: seq<string>, k: nat, lo: nat, hi: nat, xs: seq<string>)
    requires lo <= hi <= |ls| && (k < lo || hi <= k) && xs == ls[lo..hi]
    requires forall j :: 0 <= j < |ls| && j != k ==> !Contains(ls[j], "END OF DATA")
    ensures forall j :: 0 <= j < |xs| ==> !Contains(xs[j], "END OF DATA")
  {
    forall j | 0 <= j < |xs|
      ensures !Contains(xs[j], "END OF DATA")
    {
      assert xs[j] == ls[lo + j];
    }
  }

  /** WriteAnpass2: the header, the body, and the tail with the
   *  stationary point put in. */
  function WriteAnpass2Of(a: Anpass, longLine: string, energies: seq<real>, fromIntder: string, parse: string -> Option<real>, format: (string, real) -> string): Result<string, string> {
    match BodyOf(a, energies, fromIntder, parse, format)
    case Err(e) => Err(e)
    case Ok((s, _)) => Ok(a.head + s + Stationary(Split(a.tail, "\n"), longLine))
  }

  // ---------------------------------------------------------------------
  // GetLongLine

  /** GetLongLine over the output's lines, None when it cannot be opened
   *  (the panic): the line before the first one holding "0EIGENVALUE",
   *  "" when that is the first line, and false when there is none. */
  function LongLine(file: Option<seq<string>>): Result<(string, bool), string> {
    if file.None? then Err("open failed")
    else
      var ls := file.value;
      var k := Zmat.FirstWith(ls, "0EIGENVALUE");
      if k == |ls| then Ok(("", false))
      else if k == 0 then Ok(("", true))
      else Ok((ls[k - 1], true))
  }

  // ---------------------------------------------------------------------
  // The methods

  /** Printing a row of fields. */
  method FormatRow(fields: seq<string>, fmt: string, parse: string -> Option<real>, format: (string, real) -> string) returns (s: string)
    ensures s == Row(fields, fmt, parse, format)
  {
    s := "";
    var i := 0;
    while i < |fields|
      invariant i <= |fields| && s == Row(fields[..i], fmt, parse, format)
    {
      assert fields[..i + 1][..i] == fields[..i];
      s := s + format(fmt, MolproFile.OrZero(parse(fields[i])));
      i := i + 1;
    }
    assert fields[..i] == fields;
  }

  /** LoadAnpass: Err for the panics. */
  method LoadAnpass(file: Option<string>, parse: string -> Option<real>, format: (string, real) -> string) returns (r: Result<Anpass, string>)
    ensures r == LoadOf(file, parse, format)
  {
    var content := if file.None? then "" else file.value;
    var lines := Split(content, "\n");
    var st := Load(InHead, Empty, "");
    var i := 0;
    while i < |lines|
      invariant i <= |lines| && st.Load? && Loaded(lines[..i], parse, format) == st
    {
      LoadedSnoc(lines, i, parse, format);
      st := LoadLine(st.phase, st.a, st.buf, lines[i], parse, format);
      if st.Panicked? {
        PanickedStays(lines, i + 1, parse, format);
        return Err("index out of range");
      }
      i := i + 1;
    }
    assert lines[..i] == lines;
    r := Ok(st.a);
  }

  /** One turn of LoadAnpass's loop over the flags, the struct and the
   *  buffer. */
  method LoadLine(phase: Phase, a: Anpass, buf: string, line: string, parse: string -> Option<real>, format: (string, real) -> string) returns (next: Load)
    ensures next == Step(Load(phase, a, buf), line, parse, format)
  {
    if phase.InHead? && (line == "" || line[0] == '(') {
      var fs := if line == "" then None else Formats(line);
      if fs.None? {
        return Panicked;
      }
      next := Load(InBody, a.(head := buf + line + "\n", fmt1 := fs.value.0, fmt2 := fs.value.1), "");
    } else if phase.InHead? {
      next := Load(InHead, a, buf + line + "\n");
    } else if phase.InBody? && !Contains(line, "UNKNOWNS") {
      var row := RewriteLine(line, a.fmt1, parse, format);
      next := Load(InBody, a.(body := a.body + buf + row), "");
    } else {
      next := Load(InTail, a.(tail := a.tail + line + "\n"), buf + line + "\n");
    }
  }

  /** A body line rewritten: the fields but the last printed. */
  method RewriteLine(line: string, fmt: string, parse: string -> Option<real>, format: (string, real) -> string) returns (s: string)
    ensures s == BodyLine(line, fmt, parse, format)
  {
    var f := Fields(line);
    var row := "";
    if f != [] {
      row := FormatRow(f[..|f| - 1], fmt, parse, format);
    }
    s := row + "\n";
  }

  /** BuildBody: Err for the index out of range. */
  method BuildBody(a: Anpass, energies: seq<real>, fromIntder: string, parse: string -> Option<real>, format: (string, real) -> string) returns (r: Result<(string, bool), string>)
    ensures r == BodyOf(a, energies, fromIntder, parse, format)
  {
    var body := Split(TrimSpace(a.body), "\n");
    var lin := false;
    if |body| > |energies| {
      lin := true;
      body := Split(fromIntder, "\n");
    }
    assert (body, lin) == BodyRows(a, energies, fromIntder);
    var b := PrintRows(body, a, energies, parse, format);
    r := if b.Err? then Err(b.error) else Ok((b.value, lin));
  }

  /** The loop of BuildBody over the rows. */
  method PrintRows(body: seq<string>, a: Anpass, energies: seq<real>, parse: string -> Option<real>, format: (string, real) -> string) returns (r: Result<string, string>)
    ensures r == Built(body, |body|, a, energies, parse, format)
  {
    var s := "";
    var i := 0;
    while i < |body|
      invariant i <= |body| && Built(body, i, a, energies, parse, format) == Ok(s)
    {
      BuiltStep(body, i, a, energies, parse, format);
      var piece := PrintRow(body[i], i, a, energies, parse, format);
      if piece.None? {
        BuiltStays(body, i + 1, a, energies, parse, format);
        return Err("index out of range");
      }
      s := s + piece.value;
      i := i + 1;
    }
    r := Ok(s);
  }

  /** One row as the loop prints it: None for the index out of range. */
  method PrintRow(row: string, i: nat, a: Anpass, energies: seq<real>, parse: string -> Option<real>, format: (string, real) -> string) returns (p: Option<string>)
    ensures p == Printed(row, i, a, energies, parse, format)
  {
    if row == "" {
      return Some("");
    }
    if i >= |energies| {
      return None;
    }
    var fields := FormatRow(Fields(row), a.fmt1, parse, format);
    p := Some(fields + format(a.fmt2 + "\n", energies[i]));
  }

  lemma BuiltStep(rows: seq<string>, n: nat, a: Anpass, energies: seq<real>, parse: string -> Option<real>, format: (string, real) -> string)
    requires n < |rows| && Built(rows, n, a, energies, parse, format).Ok?
    ensures Built(rows, n + 1, a, energies, parse, format) == Then(Built(rows, n, a, energies, parse, format), Printed(rows[n], n, a, energies, parse, format))
  {
  }

  lemma BuiltErr(rows: seq<string>, n: nat, a: Anpass, energies: seq<real>, parse: string -> Option<real>, format: (string, real) -> string)
    requires n < |rows| && Built(rows, n, a, energies, parse, format).Err?
    ensures Built(rows, n + 1, a, energies, parse, format) == Built(rows, n, a, energies, parse, format)
  {
  }

  lemma BuiltStays(rows: seq<string>, n: nat, a: Anpass, energies: seq<real>, parse: string -> Option<real>, format: (string, real) -> string)
    requires n <= |rows| && Built(rows, n, a, energies, parse, format).Err?
    ensures Built(rows, |rows|, a, energies, parse, format) == Built(rows, n, a, energies, parse, format)
    decreases |rows| - n
  {
    if n < |rows| {
      BuiltErr(rows, n, a, energies, parse, format);
      BuiltStays(rows, n + 1, a, energies, parse, format);
    }
  }

  /** WriteAnpass2: the text of the file, Err for the panic. */
  method WriteAnpass2(a: Anpass, longLine: string, energies: seq<real>, fromIntder: string, parse: string -> Option<real>, format: (string, real) -> string) returns (r: Result<string, string>)
    ensures r == WriteAnpass2Of(a, longLine, energies, fromIntder, parse, format)
  {
    var b := BuildBody(a, energies, fromIntder, parse, format);
    if b.Err? {
      return Err(b.error);
    }
    var t := StationaryTail(Split(a.tail, "\n"), longLine);
    r := Ok(a.head + b.value.0 + t);
  }

  /** The loop of WriteAnpass2 over the tail's lines. */
  method StationaryTail(ls: seq<string>, longLine: string) returns (t: string)
    ensures t == Stationary(ls, longLine)
  {
    t := "";
    var i := 0;
    while i < |ls|
      invariant i <= |ls| && t == Stationary(ls[..i], longLine)
    {
      assert ls[..i + 1][..i] == ls[..i];
      var line := ls[i];
      var piece := "";
      if Contains(line, "END OF DATA") {
        piece := "STATIONARY POINT\n" + longLine + "\n" + line + "\n";
      } else if !Contains(line, "!STATIONARY POINT") {
        piece := line + "\n";
      }
      t := t + piece;
      i := i + 1;
    }
    assert ls[..i] == ls;
  }

  /** GetLongLine: Err for the panic of a file that cannot be opened. */
  method GetLongLine(file: Option<seq<string>>) returns (r: Result<(string, bool), string>)
    ensures r == LongLine(file)
  {
    if file.None? {
      return Err("open failed");
    }
    var ls := file.value;
    var lastLine := "";
    var i := 0;
    while i < |ls|
      invariant i <= |ls| && forall k :: 0 <= k < i ==> !Contains(ls[k], "0EIGENVALUE")
      invariant lastLine == if i == 0 then "" else ls[i - 1]
    {
      if Contains(ls[i], "0EIGENVALUE") {
        Zmat.FirstWithIs(ls, "0EIGENVALUE", i);
        return Ok((lastLine, true));
      }
      lastLine := ls[i];
      i := i + 1;
    }
    Zmat.FirstWithIs(ls, "0EIGENVALUE", i);
    r := Ok(("", false));
  }
}
