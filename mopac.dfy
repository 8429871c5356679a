/** mopac.go: the MOPAC input template (Load, AugmentHead, WriteInput,
 *  FormatZmat, FormatGeom, FormatCart, UpdateZmat and the directory and
 *  geometry accessors). The template file is given as its scanner lines,
 *  and the unit-stripping regular expression `(?i)\s+(ang|deg)` as a
 *  function on lines. */
module MopacFile {
  import opened Text
  import opened Utils
  import Zmat
  import MolproFile

  // ---------------------------------------------------------------------
  // Load

  /** The first three lines of the template, each newline-terminated. */
  function Loaded(lines: seq<string>): (r: string) {
    Lines(lines[..if |lines| < 3 then |lines| else 3])
  }

  /** Newline-terminated newline-free lines split back into the lines and
   *  the empty piece after the last newline. */
  lemma {:induction false} LinesSplit(xs: seq<string>)
    requires Zmat.NoNewlines(xs)
    ensures Split(Lines(xs), "\n") == xs + [""]
    decreases |xs|
  {
    if xs == [] {
      SplitNone("", '\n');
    } else {
      Zmat.NoNewlinesSlice(xs, 1, |xs|);
      LinesSplit(xs[1..]);
      LinesCons(xs);
      assert NoNewline(xs[0]);
      SplitLine(xs[0], Lines(xs[1..]), xs[1..] + [""]);
      assert [xs[0]] + xs[1..] == xs;
    }
  }


  /** Load keeps at most the first three lines of the template. */
  lemma LoadSplit(lines: seq<string>)
    requires Zmat.NoNewlines(lines)
    ensures var k := if |lines| < 3 then |lines| else 3;
      Split(Loaded(lines), "\n") == lines[..k] + [""]
  {
    var k := if |lines| < 3 then |lines| else 3;
    Zmat.NoNewlinesSlice(lines, 0, k);
    assert lines[0..k] == lines[..k];
    LinesSplit(lines[..k]);
  }

  // ---------------------------------------------------------------------
  // WriteInput

  /** strings.Replace with "" of a pattern that does not occur changes
   *  nothing. */
  lemma ReplaceAbsent(s: string, pat: string)
    requires pat != "" && !Contains(s, pat)
    ensures ReplaceAll(s, pat, "") == s
  {
  }

  /** The header WriteInput writes: for an optimisation without "1SCF"
   *  and "XYZ"; for frequencies without "AIGIN", trimmed, with " FORCE"
   *  after its first line, and None for the panic when it does not have
   *  exactly three lines; otherwise without "AIGIN" and after
   *  "1SCF XYZ ". */
  function Header(head: string, p: MolproFile.Procedure): Option<string> {
    if p.Opt? then Some(ReplaceAll(ReplaceAll(head, "1SCF", ""), "XYZ", ""))
    else if p.Freq? then
      var lines := Split(TrimSpace(ReplaceAll(head, "AIGIN", "")), "\n");
      if |lines| != 3 then None else Some(Join([lines[0] + " FORCE"] + lines[1..], "\n") + "\n")
    else Some("1SCF XYZ " + ReplaceAll(head, "AIGIN", ""))
  }

  /** The text of the input file, or the panic. */
  function Written(head: string, geom: string, p: MolproFile.Procedure): Result<string, string> {
    match Header(head, p)
    case None => Err("wrong number of lines in MOPAC header")
    case Some(h) => Ok(h + geom + "\n\n")
  }

  /** A header without "1SCF" and "XYZ" is written as it is for an
   *  optimisation. */
  lemma OptHeader(head: string)
    requires !Contains(head, "1SCF") && !Contains(head, "XYZ")
    ensures Header(head, MolproFile.Opt) == Some(head)
  {
    ReplaceAbsent(head, "1SCF");
    ReplaceAbsent(head, "XYZ");
  }

  /** One pass of strings.Replace can close a new occurrence over the gap
   *  it leaves: the optimisation header of "1SXYZCF" is "1SCF", so
   *  WriteInput does not promise a header free of "1SCF" or "XYZ". */
  lemma OptHeaderRejoins()
    ensures Header("1SXYZCF", MolproFile.Opt) == Some("1SCF")
    ensures Contains(Header("1SXYZCF", MolproFile.Opt).value, "1SCF")
  {
    KeepsNoScf();
    DropsXyz();
    var u := "1SCF";
    assert u[0..4] == "1SCF" && OccursAt(u, "1SCF", 0);
  }

  lemma KeepsNoScf()
    ensures ReplaceAll("1SXYZCF", "1SCF", "") == "1SXYZCF"
  {
    var s := "1SXYZCF";
    assert s[0..4] == "1SXY" && s[1..5] == "SXYZ" && s[2..6] == "XYZC" && s[3..7] == "YZCF";
    assert !OccursAt(s, "1SCF", 0) && !OccursAt(s, "1SCF", 1) && !OccursAt(s, "1SCF", 2) && !OccursAt(s, "1SCF", 3);
    ReplaceAbsent(s, "1SCF");
  }

  lemma DropsXyz()
    ensures ReplaceAll("1SXYZCF", "XYZ", "") == "1SCF"
  {
    var s := "1SXYZCF";
    assert s[0..3] == "1SX" && s[1..4] == "SXY" && s[2..5] == "XYZ";
    assert Index(s, "XYZ") == 2;
    assert s[..2] == "1S" && s[5..] == "CF";
    ReplaceAbsent("CF", "XYZ");
    assert ReplaceAll(s, "XYZ", "") == "1S" + "" + "CF";
  }

  /** A header without "AIGIN" is written after "1SCF XYZ " for a single
   *  point. */
  lemma PointHeader(head: string)
    requires !Contains(head, "AIGIN")
    ensures Header(head, MolproFile.NoProc) == Some("1SCF XYZ " + head)
  {
    ReplaceAbsent(head, "AIGIN");
  }

  /** A loaded three-line header without "AIGIN", with no space at its
   *  start or end, is written for frequencies with " FORCE" at the end of
   *  its first line. */
  lemma FreqHeader(a: string, b: string, c: string)
    requires NoNewline(a) && NoNewline(b) && NoNewline(c)
    requires a != "" && !IsSpace(a[0]) && c != "" && !IsSpace(c[|c| - 1])
    requires !Contains(Lines([a, b, c]), "AIGIN")
    ensures Header(Lines([a, b, c]), MolproFile.Freq) == Some(Lines([a + " FORCE", b, c]))
  {
    var s := Lines([a, b, c]);
    ReplaceAbsent(s, "AIGIN");
    ThreeLines(a, b, c);
    var body := a + "\n" + (b + "\n" + c);
    TrimThree(body, c);
    SplitThree(a, b, c);
    JoinThree(a + " FORCE", b, c);
    assert [a, b, c][1..] == [b, c];
  }

  lemma ThreeLines(a: string, b: string, c: string)
    ensures Lines([a, b, c]) == a + "\n" + (b + "\n" + c) + "\n"
  {
    assert [a, b, c][..2] == [a, b];
    assert [a, b][..1] == [a];
    assert [a][..0] == [];
    assert Lines([a]) == a + "\n";
    assert Lines([a, b]) == a + "\n" + b + "\n";
    assert Lines([a, b, c]) == a + "\n" + b + "\n" + c + "\n";
    Assoc(a + "\n", b + "\n", c);
  }

  /** Trimming a text that ends in a newline after a non-space character
   *  and starts with a non-space character drops the newline. */
  lemma TrimThree(body: string, c: string)
    requires c != "" && !IsSpace(c[|c| - 1]) && |c| <= |body| && body[|body| - |c|..] == c
    requires !IsSpace(body[0])
    ensures TrimSpace(body + "\n") == body
  {
    var s := body + "\n";
    assert s[..|s| - 1] == body;
    assert body[|body| - 1] == c[|c| - 1];
  }

  lemma SplitThree(a: string, b: string, c: string)
    requires NoNewline(a) && NoNewline(b) && NoNewline(c)
    ensures Split(a + "\n" + (b + "\n" + c), "\n") == [a, b, c]
  {
    SplitNone(c, '\n');
    SplitLine(b, c, [c]);
    SplitLine(a, b + "\n" + c, [b, c]);
  }

  lemma JoinThree(a: string, b: string, c: string)
    ensures Join([a, b, c], "\n") + "\n" == Lines([a, b, c])
  {
    ThreeLines(a, b, c);
    assert [a, b, c][1..] == [b, c];
    assert [b, c][1..] == [c];
    assert Join([c], "\n") == c;
    assert Join([b, c], "\n") == b + "\n" + c;
    assert Join([a, b, c], "\n") == a + "\n" + (b + "\n" + c);
  }

  // ---------------------------------------------------------------------
  // FormatZmat

  /** The geometry FormatZmat stores: the lines before the first one
   *  holding "=", an empty line, and that line and the ones after it with
   *  their units removed; without such a line, an empty line and the last
   *  line with its units removed. */
  function Formatted(geom: string, stripUnits: string -> string): string {
    FormattedSplit(Split(geom, "\n"), stripUnits)
  }

  /** Formatted over the lines of the geometry. */
  function FormattedSplit(split: seq<string>, stripUnits: string -> string): string
    requires split != []
  {
    var i := Zmat.FirstWith(split, "=");
    if i < |split| then Join(split[..i] + [""] + Map(stripUnits, split[i..]), "\n")
    else Join([""] + Map(stripUnits, split[|split| - 1..]), "\n")
  }

  /** Some line of the geometry holds "=". */
  predicate HasParam(split: seq<string>) {
    exists k :: 0 <= k < |split| && Contains(split[k], "=")
  }

  /** With a parameter line, the atom lines come back unchanged, then the
   *  empty line, then the parameter lines with their units removed, as
   *  long as removing units puts in no newline. */
  lemma FormattedLines(geom: string, stripUnits: string -> string)
    requires var split := Split(geom, "\n");
      Zmat.FirstWith(split, "=") < |split|
      && Zmat.NoNewlines(Map(stripUnits, split[Zmat.FirstWith(split, "=")..]))
    ensures var split := Split(geom, "\n");
      var i := Zmat.FirstWith(split, "=");
      Split(Formatted(geom, stripUnits), "\n") == split[..i] + [""] + Map(stripUnits, split[i..])
  {
    var split := Split(geom, "\n");
    var i := Zmat.FirstWith(split, "=");
    Zmat.NoNewlinesSplit(geom);
    Zmat.NoNewlinesSlice(split, 0, i);
    assert split[0..i] == split[..i];
    assert Zmat.NoNewlines([""]);
    Zmat.NoNewlinesAppend(split[..i], [""]);
    Zmat.NoNewlinesAppend(split[..i] + [""], Map(stripUnits, split[i..]));
    Zmat.SplitJoin(split[..i] + [""] + Map(stripUnits, split[i..]));
  }

  // ---------------------------------------------------------------------
  // The Mopac struct

  class Mopac {
    var dir: string
    var head: string
    var geom: string

    constructor ()
      ensures dir == "" && head == "" && geom == ""
    {
      dir := "";
      head := "";
      geom := "";
    }

    method GetDir() returns (d: string)
      ensures d == dir
    {
      d := dir;
    }

    method SetDir(d: string)
      modifies this
      ensures dir == d && head == old(head) && geom == old(geom)
    {
      dir := d;
    }

    method GetGeom() returns (g: string)
      ensures g == geom
    {
      g := geom;
    }

    method SetGeom(g: string)
      modifies this
      ensures geom == g && dir == old(dir) && head == old(head)
    {
      geom := g;
    }

    /** AugmentHead puts "A0  " in front of the header. */
    method AugmentHead()
      modifies this
      ensures head == "A0  " + old(head) && dir == old(dir) && geom == old(geom)
    {
      head := "A0  " + head;
    }

    /** Load over the template's scanner lines, None when it cannot be
     *  opened: ok is false for that error, which leaves the struct alone. */
    method Load(file: Option<seq<string>>) returns (ok: bool)
      modifies this
      ensures ok <==> file.Some?
      ensures head == if ok then Loaded(file.value) else old(head)
      ensures dir == old(dir) && geom == old(geom)
    {
      if file.None? {
        return false;
      }
      var lines := file.value;
      var str := "";
      var i := 0;
      while i < |lines| && i < 3
        invariant i <= |lines| && i <= 3 && str == Lines(lines[..i])
      {
        assert lines[..i + 1][..i] == lines[..i];
        str := str + lines[i] + "\n";
        i := i + 1;
      }
      head := str;
      return true;
    }

    /** WriteInput: the text of the input file, Err for the panic. */
    method WriteInput(p: MolproFile.Procedure) returns (r: Result<string, string>)
      ensures r == Written(head, geom, p)
    {
      var h := head;
      if p.Opt? {
        h := ReplaceAll(h, "1SCF", "");
        h := ReplaceAll(h, "XYZ", "");
      } else if p.Freq? {
        h := ReplaceAll(h, "AIGIN", "");
        var lines := Split(TrimSpace(h), "\n");
        if |lines| != 3 {
          return Err("wrong number of lines in MOPAC header");
        }
        lines := lines[0 := lines[0] + " FORCE"];
        assert lines == [lines[0]] + lines[1..];
        h := Join(lines, "\n") + "\n";
      } else {
        h := ReplaceAll(h, "AIGIN", "");
        h := "1SCF XYZ " + h;
      }
      r := Ok(h + geom + "\n\n");
    }

    /** FormatZmat: ok is false for the "improper z-matrix" error. */
    method FormatZmat(g: string, stripUnits: string -> string) returns (ok: bool)
      modifies this
      ensures ok <==> HasParam(Split(g, "\n"))
      ensures geom == Formatted(g, stripUnits)
      ensures dir == old(dir) && head == old(head)
    {
      var split := Split(g, "\n");
      var r: string;
      ok, r := FormatSplit(split, stripUnits);
      assert r == Formatted(g, stripUnits);
      geom := r;
    }

    /** FormatZmat over the lines of the geometry. */
    static method FormatSplit(split: seq<string>, stripUnits: string -> string) returns (ok: bool, r: string)
      requires split != []
      ensures ok <==> HasParam(split)
      ensures r == FormattedSplit(split, stripUnits)
    {
      var i := FirstParam(split);
      ok := i < |split|;
      var out: seq<string>;
      if ok {
        out := split[..i];
      } else {
        // the range loop runs to its end and leaves the last index
        out := [];
        i := |split| - 1;
      }
      var tail := StripFrom(split, i, stripUnits);
      r := Join(out + [""] + tail, "\n");
      assert ok ==> Contains(split[i], "=");
    }

    /** The index of the first line holding "=", the length when there is
     *  none. */
    static method FirstParam(split: seq<string>) returns (i: nat)
      ensures i == Zmat.FirstWith(split, "=")
    {
      i := 0;
      while i < |split| && !Contains(split[i], "=")
        invariant i <= |split|
        invariant forall k :: 0 <= k < i ==> !Contains(split[k], "=")
      {
        i := i + 1;
      }
      Zmat.FirstWithIs(split, "=", i);
    }

    /** The lines from i on with their units removed. */
    static method StripFrom(split: seq<string>, i: nat, stripUnits: string -> string) returns (t: seq<string>)
      requires i <= |split|
      ensures t == Map(stripUnits, split[i..])
    {
      t := [];
      var j := i;
      while j < |split|
        invariant i <= j <= |split| && t == Map(stripUnits, split[i..][..j - i])
      {
        MapSnoc(stripUnits, split[i..], j - i);
        t := t + [stripUnits(split[j])];
        j := j + 1;
      }
      assert split[i..][..j - i] == split[i..];
    }

    /** FormatGeom hands the geometry back as it is. */
    method FormatGeom(g: string) returns (r: string)
      ensures r == g
    {
      r := g;
    }

    /** FormatCart stores the geometry as it is; it never fails. */
    method FormatCart(g: string)
      modifies this
      ensures geom == g && dir == old(dir) && head == old(head)
    {
      geom := g;
    }

    /** UpdateZmat replaces the whole geometry. */
    method UpdateZmat(params: string)
      modifies this
      ensures geom == params && dir == old(dir) && head == old(head)
    {
      geom := params;
    }
  }
}
