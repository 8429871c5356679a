/** qff.go: the intder input template (LoadIntder, Read9903, WriteGeom),
 *  the harmonic frequencies of an intder output (Intder.ReadOut) and this
 *  file's older Spectro, whose CheckPolyad is still empty. Files are given
 *  as their scanner lines; the MODE regular expression, strconv.ParseFloat
 *  and the "%20.10f" verb are parameters. */
module Qff {
  import opened Text
  import SpectroFile

  /** "%5d\n" of 0: the line that ends a block of intder input. */
  function ZeroLine(): string {
    Int5(0) + "\n"
  }

  // ---------------------------------------------------------------------
  // LoadIntder

  predicate Disp(line: string) {
    Contains(line, "DISP")
  }

  /** LoadIntder's Head and its buffer, which becomes Tail. */
  datatype Parts = Parts(head: string, buf: string)

  /** One scanner line: a "DISP" line moves the buffer to Head and starts
   *  a new buffer; every line is then written to the buffer. */
  function LoadStep(p: Parts, line: string): Parts {
    if Disp(line) then Parts(p.buf, line + "\n") else p.(buf := p.buf + line + "\n")
  }

  function Loaded(lines: seq<string>): Parts
    decreases |lines|
  {
    if lines == [] then Parts("", "")
    else LoadStep(Loaded(lines[..|lines| - 1]), lines[|lines| - 1])
  }

  /** The last "DISP" line before n. */
  function LastDisp(ls: seq<string>, n: nat): (r: Option<nat>)
    requires n <= |ls|
    ensures r.Some? ==> r.value < n && Disp(ls[r.value])
    ensures r.Some? ==> forall k :: r.value < k < n ==> !Disp(ls[k])
    ensures r.None? ==> forall k :: 0 <= k < n ==> !Disp(ls[k])
  {
    if n == 0 then None
    else if Disp(ls[n - 1]) then Some(n - 1)
    else LastDisp(ls, n - 1)
  }

  /** Where the buffer that a "DISP" line at p moves to Head starts: at
   *  the "DISP" line before it, or at the first line. */
  function HeadStart(ls: seq<string>, p: nat): nat
    requires p <= |ls|
  {
    match LastDisp(ls, p)
    case None => 0
    case Some(q) => q
  }

  /** The split, stated by line positions: without a "DISP" line, Head is
   *  empty and every line is in Tail; otherwise Tail runs from the last
   *  "DISP" line to the end and Head from the "DISP" line before it (or
   *  the first line) up to the last one. */
  function ByPosition(ls: seq<string>, n: nat): Parts
    requires n <= |ls|
  {
    match LastDisp(ls, n)
    case None => Parts("", Lines(ls[..n]))
    case Some(p) => Parts(Lines(ls[HeadStart(ls, p)..p]), Lines(ls[p..n]))
  }

  /** Lines of a slice, one line longer. */
  lemma LinesSlice(ls: seq<string>, a: nat, n: nat)
    requires a <= n < |ls|
    ensures Lines(ls[a..n + 1]) == Lines(ls[a..n]) + ls[n] + "\n"
  {
    assert ls[a..n + 1][..n - a] == ls[a..n];
  }

  /** The loop's split after n lines, by positions. */
  lemma {:induction false} LoadedSplit(ls: seq<string>, n: nat)
    requires n <= |ls|
    ensures Loaded(ls[..n]) == ByPosition(ls, n)
  {
    if n > 0 {
      LoadedSplit(ls, n - 1);
      assert ls[..n][..n - 1] == ls[..n - 1];
      var x := ls[n - 1];
      if Disp(x) {
        assert ls[n - 1..n] == [x];
        assert Lines([x]) == Lines([]) + x + "\n";
        match LastDisp(ls, n - 1)
        case None =>
          assert ls[0..n - 1] == ls[..n - 1];
        case Some(q) =>
      } else {
        match LastDisp(ls, n - 1)
        case None =>
          LinesSlice(ls, 0, n - 1);
          assert ls[0..n - 1] == ls[..n - 1] && ls[0..n] == ls[..n];
        case Some(p) =>
          LinesSlice(ls, p, n - 1);
      }
    }
  }

  /** With one "DISP" line, at p, Head is every line before it and Tail
   *  that line and every line after it, each newline-terminated. */
  lemma OneDisp(ls: seq<string>, p: nat)
    requires p < |ls| && Disp(ls[p]) && forall k :: 0 <= k < |ls| && k != p ==> !Disp(ls[k])
    ensures Loaded(ls) == Parts(Lines(ls[..p]), Lines(ls[p..]))
  {
    LoadedSplit(ls, |ls|);
    assert ls[..|ls|] == ls;
    assert LastDisp(ls, |ls|) == Some(p);
    assert LastDisp(ls, p) == None;
    assert ls[0..p] == ls[..p] && ls[p..|ls|] == ls[p..];
  }

  /** Without a "DISP" line, Head is empty and every line is in Tail. */
  lemma NoDisp(ls: seq<string>)
    requires forall k :: 0 <= k < |ls| ==> !Disp(ls[k])
    ensures Loaded(ls) == Parts("", Lines(ls))
  {
    LoadedSplit(ls, |ls|);
    assert ls[..|ls|] == ls;
  }

  // ---------------------------------------------------------------------
  // Read9903

  /** Read9903 looks only at lines of five fields. */
  predicate Five(line: string) {
    |Fields(line)| == 5
  }

  predicate Third(line: string) {
    Five(line) && Fields(line)[2] != "0"
  }

  predicate Fourth(line: string) {
    Five(line) && Fields(line)[3] != "0"
  }

  /** A line Read9903 copies: its first two fields are not "0". */
  predicate Copied(line: string) {
    Five(line) && Fields(line)[0] != "0" && Fields(line)[1] != "0"
  }

  /** Read9903's flags and buffer. */
  datatype Nine = Nine(third: bool, fourth: bool, buf: string)

  /** What a line adds to the buffer: a zero line for each flag that is
   *  set now, then the line itself when it is copied. */
  function Extend(buf: string, zero3: bool, zero4: bool, copy: bool, line: string): string {
    var b1 := if zero3 then buf + ZeroLine() else buf;
    var b2 := if zero4 then b1 + ZeroLine() else b1;
    if copy then b2 + line + "\n" else b2
  }

  /** One scanner line: a zero line once before the first non-"0" third
   *  field and once before the first non-"0" fourth field, then the line
   *  itself when it is copied. */
  function NineStep(s: Nine, line: string): Nine {
    Nine(s.third || Third(line), s.fourth || Fourth(line),
         Extend(s.buf, !s.third && Third(line), !s.fourth && Fourth(line), Copied(line), line))
  }

  function Nines(lines: seq<string>): Nine
    decreases |lines|
  {
    if lines == [] then Nine(false, false, "")
    else NineStep(Nines(lines[..|lines| - 1]), lines[|lines| - 1])
  }

  /** Read9903's Tail. */
  function Tail9903(lines: seq<string>): string {
    Nines(lines).buf + ZeroLine()
  }

  /** Some line before n has a non-"0" third field. */
  predicate SeenThird(ls: seq<string>, n: nat)
    requires n <= |ls|
  {
    exists j :: 0 <= j < n && Third(ls[j])
  }

  predicate SeenFourth(ls: seq<string>, n: nat)
    requires n <= |ls|
  {
    exists j :: 0 <= j < n && Fourth(ls[j])
  }

  /** The buffer after the lines before n, stated by positions: line k
   *  adds a zero line when it is the first with a non-"0" third field,
   *  one when it is the first with a non-"0" fourth field, then itself
   *  when it is copied. */
  function Pieces(ls: seq<string>, n: nat): string
    requires n <= |ls|
  {
    if n == 0 then ""
    else
      var k := n - 1;
      Extend(Pieces(ls, k), Third(ls[k]) && !SeenThird(ls, k), Fourth(ls[k]) && !SeenFourth(ls, k), Copied(ls[k]), ls[k])
  }

  /** The flags say whether such a line came before, and the buffer is the
   *  pieces of the lines so far. */
  lemma {:induction false} NinesPieces(ls: seq<string>, n: nat)
    requires n <= |ls|
    ensures Nines(ls[..n]) == Nine(SeenThird(ls, n), SeenFourth(ls, n), Pieces(ls, n))
  {
    if n > 0 {
      NinesPieces(ls, n - 1);
      assert ls[..n][..n - 1] == ls[..n - 1];
      SeenStep(ls, n - 1);
    }
  }

  /** One line further, a line is seen when it was seen before or it is
   *  the new line. */
  lemma SeenStep(ls: seq<string>, n: nat)
    requires n < |ls|
    ensures SeenThird(ls, n + 1) <==> SeenThird(ls, n) || Third(ls[n])
    ensures SeenFourth(ls, n + 1) <==> SeenFourth(ls, n) || Fourth(ls[n])
  {
  }

  /** Only the first line with a non-"0" third (or fourth) field writes
   *  the zero line before it: a later such line finds it already seen. */
  lemma ZeroOnce(ls: seq<string>, j: nat, k: nat)
    requires j < k < |ls|
    ensures Third(ls[j]) ==> SeenThird(ls, k)
    ensures Fourth(ls[j]) ==> SeenFourth(ls, k)
  {
  }

  /** The lines Read9903 copies, in order. */
  function CopiedLines(ls: seq<string>): (r: seq<string>)
    ensures |r| <= |ls|
    decreases |ls|
  {
    if ls == [] then []
    else CopiedLines(ls[..|ls| - 1]) + (if Copied(ls[|ls| - 1]) then [ls[|ls| - 1]] else [])
  }

  /** When no line has a non-"0" third or fourth field, Tail is the copied
   *  lines followed by one zero line. */
  lemma {:induction false} NoZeroFields(ls: seq<string>)
    requires forall k :: 0 <= k < |ls| ==> !Third(ls[k]) && !Fourth(ls[k])
    ensures Tail9903(ls) == Lines(CopiedLines(ls)) + ZeroLine()
  {
    NinesPieces(ls, |ls|);
    assert ls[..|ls|] == ls;
    PiecesCopied(ls, |ls|);
  }

  lemma {:induction false} PiecesCopied(ls: seq<string>, n: nat)
    requires n <= |ls| && forall k :: 0 <= k < |ls| ==> !Third(ls[k]) && !Fourth(ls[k])
    ensures Pieces(ls, n) == Lines(CopiedLines(ls[..n]))
  {
    if n > 0 {
      PiecesCopied(ls, n - 1);
      assert ls[..n][..n - 1] == ls[..n - 1];
      var x := ls[n - 1];
      assert Pieces(ls, n) == if Copied(x) then Pieces(ls, n - 1) + x + "\n" else Pieces(ls, n - 1);
      if Copied(x) {
        var c := CopiedLines(ls[..n - 1]);
        assert CopiedLines(ls[..n]) == c + [x];
        assert (c + [x])[..|c|] == c;
      } else {
        assert CopiedLines(ls[..n]) == CopiedLines(ls[..n - 1]);
      }
    }
  }

  // ---------------------------------------------------------------------
  // Intder.ReadOut

  /** The lines after the first MODE line: a MODE line is passed over, a
   *  "NORMAL" line ends the scan, an empty line is skipped and any other
   *  line gives the frequency in its second field. None for the panic of
   *  a line with fewer than two fields. */
  function Modes(mode: string -> bool, parse: string -> real, xs: seq<string>): Option<seq<real>>
    decreases |xs|
  {
    if xs == [] then Some([])
    else if mode(xs[0]) then Modes(mode, parse, xs[1..])
    else if Contains(xs[0], "NORMAL") then Some([])
    else if xs[0] == "" then Modes(mode, parse, xs[1..])
    else if |Fields(xs[0])| < 2 then None
    else
      match Modes(mode, parse, xs[1..])
      case None => None
      case Some(r) => Some([parse(Fields(xs[0])[1])] + r)
  }

  /** The frequencies of an intder output: nothing is read before the
   *  first MODE line. */
  function Freqs(mode: string -> bool, parse: string -> real, xs: seq<string>): Option<seq<real>>
    decreases |xs|
  {
    if xs == [] then Some([])
    else if mode(xs[0]) then Modes(mode, parse, xs[1..])
    else Freqs(mode, parse, xs[1..])
  }

  /** A line that ends the scan. */
  predicate Stop(mode: string -> bool, line: string) {
    !mode(line) && Contains(line, "NORMAL")
  }

  /** A line whose second field is read. */
  predicate Read(mode: string -> bool, line: string) {
    !mode(line) && !Contains(line, "NORMAL") && line != ""
  }

  /** The lines read, in order. */
  function ReadLines(mode: string -> bool, xs: seq<string>): (r: seq<string>)
    ensures forall k :: 0 <= k < |r| ==> Read(mode, r[k])
    decreases |xs|
  {
    if xs == [] then []
    else (if Read(mode, xs[0]) then [xs[0]] else []) + ReadLines(mode, xs[1..])
  }

  /** The second field of a line, or "" when it has fewer than two. */
  function Second(line: string): string {
    if |Fields(line)| < 2 then "" else Fields(line)[1]
  }

  /** No output has a frequency without a MODE line. */
  lemma {:induction false} NoModeLine(mode: string -> bool, parse: string -> real, xs: seq<string>)
    requires forall k :: 0 <= k < |xs| ==> !mode(xs[k])
    ensures Freqs(mode, parse, xs) == Some([])
    decreases |xs|
  {
    if xs != [] {
      NoModeLine(mode, parse, xs[1..]);
    }
  }

  /** Whatever comes after the first "NORMAL" line is not read. */
  lemma {:induction false} StopEnds(mode: string -> bool, parse: string -> real, xs: seq<string>, stop: string, ys: seq<string>)
    requires Stop(mode, stop) && forall k :: 0 <= k < |xs| ==> !Stop(mode, xs[k])
    ensures Modes(mode, parse, xs + [stop] + ys) == Modes(mode, parse, xs)
    decreases |xs|
  {
    var zs := xs + [stop] + ys;
    if xs == [] {
      assert zs[0] == stop;
    } else {
      assert zs[0] == xs[0] && zs[1..] == xs[1..] + [stop] + ys;
      StopEnds(mode, parse, xs[1..], stop, ys);
    }
  }

  /** Without a "NORMAL" line and a line too short to read, the frequencies
   *  are the second fields of the lines read, in order, unsorted. */
  lemma {:induction false} ModesRead(mode: string -> bool, parse: string -> real, xs: seq<string>)
    requires forall k :: 0 <= k < |xs| ==> !Stop(mode, xs[k])
    requires forall k :: 0 <= k < |xs| && Read(mode, xs[k]) ==> |Fields(xs[k])| >= 2
    ensures Modes(mode, parse, xs) == Some(Map(l => parse(Second(l)), ReadLines(mode, xs)))
    decreases |xs|
  {
    if xs != [] {
      var x, rest := xs[0], xs[1..];
      assert forall k :: 0 <= k < |rest| ==> rest[k] == xs[k + 1];
      ModesRead(mode, parse, rest);
      var m := Map(l => parse(Second(l)), ReadLines(mode, rest));
      assert !Stop(mode, x);
      if Read(mode, x) {
        assert ReadLines(mode, xs) == [x] + ReadLines(mode, rest);
        MapCons(l => parse(Second(l)), x, ReadLines(mode, rest));
        assert Modes(mode, parse, xs) == Some([parse(Second(x))] + m);
      } else {
        assert ReadLines(mode, xs) == [] + ReadLines(mode, rest) == ReadLines(mode, rest);
        assert Modes(mode, parse, xs) == Modes(mode, parse, rest);
      }
    }
  }

  /** A line read with fewer than two fields, before any "NORMAL" line,
   *  panics. */
  lemma {:induction false} ShortLinePanics(mode: string -> bool, parse: string -> real, xs: seq<string>, k: nat)
    requires k < |xs| && Read(mode, xs[k]) && |Fields(xs[k])| < 2
    requires forall j :: 0 <= j < k ==> !Stop(mode, xs[j])
    ensures Modes(mode, parse, xs) == None
    decreases k
  {
    if k > 0 {
      ShortLinePanics(mode, parse, xs[1..], k - 1);
    }
  }

  /** The values read so far in front of those still to come. */
  function Prefixed(done: seq<real>, r: Option<seq<real>>): Option<seq<real>> {
    match r
    case None => None
    case Some(v) => Some(done + v)
  }

  /** Nothing read yet. */
  lemma PrefixedNothing(r: Option<seq<real>>)
    ensures Prefixed([], r) == r
  {
    if r.Some? {
      assert [] + r.value == r.value;
    }
  }

  /** One more value read. */
  lemma PrefixedStep(done: seq<real>, v: real, r: Option<seq<real>>)
    ensures Prefixed(done, match r case None => None case Some(w) => Some([v] + w)) == Prefixed(done + [v], r)
  {
    if r.Some? {
      Assoc(done, [v], r.value);
    }
  }

  // ---------------------------------------------------------------------
  // WriteGeom

  /** A value that prints as nonzero at ten decimals. */
  predicate Big(v: real) {
    (if v < 0.0 then -v else v) > 0.0000000001
  }

  /** The row of the 1-based position k: "%5d%20.10f\n". */
  function Row(format: real -> string, parse: string -> real, fs: seq<string>, k: int): string {
    if 1 <= k <= |fs| then Int5(k) + format(parse(fs[k - 1])) + "\n" else ""
  }

  /** The rows WriteGeom writes for the fields fs. */
  function GeomRows(format: real -> string, parse: string -> real, fs: seq<string>): string
    decreases |fs|
  {
    if fs == [] then ""
    else
      var last := if Big(parse(fs[|fs| - 1])) then Row(format, parse, fs, |fs|) else "";
      GeomRows(format, parse, fs[..|fs| - 1]) + last
  }

  /** The 1-based positions of the fields that print as nonzero. */
  function Selected(parse: string -> real, fs: seq<string>): seq<int>
    decreases |fs|
  {
    if fs == [] then []
    else Selected(parse, fs[..|fs| - 1]) + (if Big(parse(fs[|fs| - 1])) then [|fs|] else [])
  }

  /** A position is selected exactly when its value prints as nonzero, and
   *  the positions come in increasing order. */
  lemma {:induction false} SelectedIff(parse: string -> real, fs: seq<string>)
    ensures forall k :: k in Selected(parse, fs) <==> 1 <= k <= |fs| && Big(parse(fs[k - 1]))
    ensures forall i, j :: 0 <= i < j < |Selected(parse, fs)| ==> Selected(parse, fs)[i] < Selected(parse, fs)[j]
    decreases |fs|
  {
    if fs != [] {
      var init := fs[..|fs| - 1];
      SelectedIff(parse, init);
      var s := Selected(parse, init);
      assert Selected(parse, fs) == s + (if Big(parse(fs[|fs| - 1])) then [|fs|] else []);
      forall k
        ensures k in Selected(parse, fs) <==> 1 <= k <= |fs| && Big(parse(fs[k - 1]))
      {
        if 1 <= k <= |init| {
          assert init[k - 1] == fs[k - 1];
        }
      }
      forall i | 0 <= i < |s|
        ensures s[i] <= |init|
      {
        assert s[i] in s;
      }
    }
  }

  /** The rows of the positions ks, in the order of ks. */
  function RowsOf(format: real -> string, parse: string -> real, fs: seq<string>, ks: seq<int>): string
    decreases |ks|
  {
    if ks == [] then "" else RowsOf(format, parse, fs, ks[..|ks| - 1]) + Row(format, parse, fs, ks[|ks| - 1])
  }

  /** The rows are the rows of the selected positions, in order. */
  lemma {:induction false} RowsSelected(format: real -> string, parse: string -> real, fs: seq<string>)
    ensures GeomRows(format, parse, fs) == RowsOf(format, parse, fs, Selected(parse, fs))
    decreases |fs|
  {
    if fs != [] {
      var init := fs[..|fs| - 1];
      RowsSelected(format, parse, init);
      SelectedBound(parse, init);
      var s := Selected(parse, init);
      RowsExtend(format, parse, init, fs, s);
      if Big(parse(fs[|fs| - 1])) {
        assert Selected(parse, fs) == s + [|fs|];
        assert (s + [|fs|])[..|s|] == s;
      } else {
        assert Selected(parse, fs) == s;
      }
    }
  }

  /** The selected positions are at most the number of fields. */
  lemma {:induction false} SelectedBound(parse: string -> real, fs: seq<string>)
    ensures forall i :: 0 <= i < |Selected(parse, fs)| ==> Selected(parse, fs)[i] <= |fs|
    decreases |fs|
  {
    if fs != [] {
      SelectedBound(parse, fs[..|fs| - 1]);
    }
  }

  /** Rows of positions within a prefix of the fields are the same. */
  lemma {:induction false} RowsExtend(format: real -> string, parse: string -> real, init: seq<string>, fs: seq<string>, ks: seq<int>)
    requires init <= fs && forall i :: 0 <= i < |ks| ==> ks[i] <= |init|
    ensures RowsOf(format, parse, init, ks) == RowsOf(format, parse, fs, ks)
    decreases |ks|
  {
    if ks != [] {
      var k := ks[|ks| - 1];
      RowsExtend(format, parse, init, fs, ks[..|ks| - 1]);
      if 1 <= k {
        assert init[k - 1] == fs[k - 1];
      }
    }
  }

  /** The text of WriteGeom: Head, the geometry and a newline, the "DISP"
   *  line ("DISP%4d" of 1), the rows of every field but the last, and a
   *  zero line. None for the panic of a line without fields. */
  function GeomText(head: string, geometry: string, longLine: string, format: real -> string, parse: string -> real): Option<string> {
    var fs := Fields(longLine);
    if fs == [] then None
    else Some(head + geometry + "\n" + "DISP   1\n" + GeomRows(format, parse, fs[..|fs| - 1]) + ZeroLine())
  }

  // ---------------------------------------------------------------------
  // The Intder struct

  class Intder {
    var head: string
    var geometry: string
    var tail: string

    /** LoadIntder over the file's scanner lines. */
    constructor LoadIntder(lines: seq<string>)
      ensures head == Loaded(lines).head && tail == Loaded(lines).buf && geometry == ""
    {
      var h, buf := "", "";
      var n := 0;
      while n < |lines|
        invariant n <= |lines| && Parts(h, buf) == Loaded(lines[..n])
      {
        assert lines[..n + 1][..n] == lines[..n];
        var line := lines[n];
        if Contains(line, "DISP") {
          h := buf;
          buf := "";
        }
        buf := buf + line + "\n";
        n := n + 1;
      }
      assert lines[..n] == lines;
      head, geometry, tail := h, "", buf;
    }

    /** Read9903: Tail becomes the force constants of the anpass output. */
    method Read9903(lines: seq<string>)
      modifies this
      ensures tail == Tail9903(lines) && head == old(head) && geometry == old(geometry)
    {
      var buf := "";
      var third, fourth := false, false;
      var n := 0;
      while n < |lines|
        invariant n <= |lines| && Nine(third, fourth, buf) == Nines(lines[..n])
        invariant head == old(head) && geometry == old(geometry)
      {
        assert lines[..n + 1][..n] == lines[..n];
        third, fourth, buf := Line9903(third, fourth, buf, lines[n]);
        n := n + 1;
      }
      assert lines[..n] == lines;
      tail := buf + ZeroLine();
    }

    /** The body of Read9903's loop. */
    static method Line9903(third: bool, fourth: bool, buf: string, line: string) returns (t: bool, f: bool, b: string)
      ensures Nine(t, f, b) == NineStep(Nine(third, fourth, buf), line)
    {
      t, f, b := third, fourth, buf;
      var fields := Fields(line);
      if |fields| == 5 {
        if !t && fields[2] != "0" {
          b := b + ZeroLine();
          t := true;
        }
        if !f && fields[3] != "0" {
          b := b + ZeroLine();
          f := true;
        }
        if fields[0] != "0" && fields[1] != "0" {
          b := b + line + "\n";
        }
      }
    }

    /** ReadOut: the harmonic frequencies, or None for a panic (a file
     *  that cannot be opened, or a line read with fewer than two
     *  fields). */
    method ReadOut(file: Option<seq<string>>, mode: string -> bool, parse: string -> real) returns (freqs: Option<seq<real>>)
      ensures freqs == if file.None? then None else Freqs(mode, parse, file.value)
    {
      if file.None? {
        return None;
      }
      var lines := file.value;
      var got: seq<real> := [];
      var modes := false;
      var n := 0;
      assert lines[0..] == lines;
      PrefixedNothing(Freqs(mode, parse, lines));
      while n < |lines|
        invariant n <= |lines|
        invariant Freqs(mode, parse, lines) ==
          Prefixed(got, if modes then Modes(mode, parse, lines[n..]) else Freqs(mode, parse, lines[n..]))
      {
        var line := lines[n];
        assert lines[n..][0] == line && lines[n..][1..] == lines[n + 1..];
        if mode(line) {
          modes := true;
        } else if modes {
          if Contains(line, "NORMAL") {
            assert got + [] == got;
            return Some(got);
          }
          if line != "" {
            var fields := Fields(line);
            if |fields| < 2 {
              return None;
            }
            var v := parse(fields[1]);
            PrefixedStep(got, v, Modes(mode, parse, lines[n + 1..]));
            got := got + [v];
          }
        }
        n := n + 1;
      }
      assert lines[n..] == [];
      freqs := Some(got);
      assert got + [] == got;
    }

    /** WriteGeom's text, with longLine as the displacement. */
    method WriteGeom(longLine: string, format: real -> string, parse: string -> real) returns (text: Option<string>)
      ensures text == GeomText(head, geometry, longLine, format, parse)
    {
      var fields := Fields(longLine);
      if |fields| == 0 {
        return None;
      }
      var fs := fields[..|fields| - 1];
      var buf := head + geometry + "\n" + "DISP   1\n";
      var rows := "";
      var i := 0;
      while i < |fs|
        invariant i <= |fs| && rows == GeomRows(format, parse, fs[..i])
      {
        assert fs[..i + 1][..i] == fs[..i];
        var v := parse(fs[i]);
        if Big(v) {
          rows := rows + Int5(i + 1) + format(v) + "\n";
          assert Row(format, parse, fs[..i + 1], i + 1) == Int5(i + 1) + format(v) + "\n";
        }
        i := i + 1;
      }
      assert fs[..i] == fs;
      text := Some(buf + rows + ZeroLine());
    }
  }

  // ---------------------------------------------------------------------
  // The Spectro struct of this file

  class Spectro {
    var head: string
    var fermi1: string
    var fermi2: string
    var polyad: string
    var coriol: string

    constructor(h: string)
      ensures head == h && fermi1 == "" && fermi2 == "" && polyad == "" && coriol == ""
    {
      head, fermi1, fermi2, polyad, coriol := h, "", "", "", "";
    }

    /** CheckPolyad has an empty body here. */
    method CheckPolyad()
      ensures unchanged(this)
    {
    }

    /** ReadOutput: the resonance tables of the output file, read as in
     *  spectro.go, and an empty CheckPolyad, so the polyad never changes.
     *  false for a panic, which leaves the sections as they were. */
    method ReadOutput(file: Option<seq<string>>) returns (ok: bool)
      modifies this
      ensures head == old(head) && polyad == old(polyad)
      ensures var r := if file.None? then None else SpectroFile.ReadText(old(coriol), old(fermi1), old(fermi2), file.value);
        (ok <==> r.Some?) &&
        (if r.None? then coriol == old(coriol) && fermi1 == old(fermi1) && fermi2 == old(fermi2)
         else (coriol, fermi1, fermi2) == r.value)
    {
      var r := SpectroFile.ReadSections(coriol, fermi1, fermi2, file);
      if r.None? {
        return false;
      }
      coriol, fermi1, fermi2 := r.value.0, r.value.1, r.value.2;
      CheckPolyad();
      ok := true;
    }
  }
}
