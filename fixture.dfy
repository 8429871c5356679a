/** How the fixture pipeline fits together: scripts/mktest.py keys each
 *  result by the geometry block of an output file as Python reads it
 *  (left-stripped lines, newlines kept), while the fake Molpro executables
 *  rebuild the key from an input file as Go's scanner reads it (lines
 *  without newlines, fields re-joined by single spaces). A stored entry is
 *  found exactly when both readings agree. */
module Fixture {
  import opened Text
  import opened GeomBlock
  import opened Utils
  import Mktest
  import FakeMolpro
  import MolproMain
  import Json

  /** A line as Python's file iteration yields it. */
  function PyLine(l: string): string {
    l + "\n"
  }

  function PyLines(ls: seq<string>): seq<string> {
    Map(PyLine, ls)
  }

  /** A line that is already in the form the fakes rebuild: four fields,
   *  single spaces between them, nothing after the last. */
  predicate SingleSpaced(l: string) {
    |Fields(l)| == 4 && LStrip(l) == Join(Fields(l), " ")
  }

  /** Every body line among the first n is blank or single-spaced. */
  predicate Normalised(ls: seq<string>, n: nat)
    requires n <= |ls|
  {
    NormalisedFrom(ls, 0, n)
  }

  /** The body lines from lo up to hi are blank or single-spaced. */
  predicate NormalisedFrom(ls: seq<string>, lo: nat, hi: nat)
    requires lo <= hi <= |ls|
  {
    forall k :: lo <= k < hi && InBody(ls, k) ==> Blank(ls[k]) || SingleSpaced(ls[k])
  }

  predicate AllNoNewline(ps: seq<string>) {
    forall k :: 0 <= k < |ps| ==> NoNewline(ps[k])
  }

  // ---------------------------------------------------------------------
  // The block markers do not see the newline

  lemma PyMarkers(l: string)
    ensures Opens(PyLine(l)) == Opens(l)
    ensures Contains(PyLine(l), "}") == Contains(l, "}")
  {
    ContainsSnoc(l, '\n', "geometry={");
    ContainsSnoc(l, '\n', "}");
  }

  lemma {:induction false} OpenAtSame(ls: seq<string>, k: nat)
    requires k <= |ls|
    ensures OpenAt(PyLines(ls), k) == OpenAt(ls, k)
    decreases k
  {
    if k > 0 {
      OpenAtSame(ls, k - 1);
      PyMarkers(ls[k - 1]);
    }
  }

  /** mktest's body lines of the Python lines are the scanners' body lines. */
  lemma BodySame(ls: seq<string>, k: nat)
    requires k < |ls|
    ensures Body(PyLines(ls), k) <==> InBody(ls, k)
  {
    OpenAtSame(ls, k);
    OpenAtIff(PyLines(ls), k);
    PyMarkers(ls[k]);
  }

  // ---------------------------------------------------------------------
  // What mktest keeps of each line

  /** lstrip() of a line with its newline: a blank line vanishes, any other
   *  keeps its newline. */
  lemma LStripNewline(l: string)
    ensures LStrip(l + "\n") == if Blank(l) then "" else LStrip(l) + "\n"
  {
    var s := l + "\n";
    assert s[..|l|] == l;
    if Blank(l) {
      LStripAt(s, |s|);
    } else {
      var q := LStrip(l);
      var j := |l| - |q|;
      StripEmpty(l);
      assert s[j] == l[j] == q[0];
      assert s[..j] == l[..j];
      LStripAt(s, j);
      assert s[j..] == l[j..] + "\n";
    }
  }

  /** LStrip cuts exactly the leading run of spaces. */
  lemma {:induction false} LStripAt(s: string, p: nat)
    requires p <= |s| && Blank(s[..p]) && (p == |s| || !IsSpace(s[p]))
    ensures LStrip(s) == s[p..]
    decreases p
  {
    if p > 0 {
      assert IsSpace(s[..p][0]);
      assert s[1..][..p - 1] == s[..p][1..];
      LStripAt(s[1..], p - 1);
      assert s[1..][p - 1..] == s[p..];
    }
  }

  lemma {:induction false} StripEmpty(l: string)
    ensures LStrip(l) == [] <==> Blank(l)
    decreases |l|
  {
    if l != [] && IsSpace(l[0]) {
      StripEmpty(l[1..]);
      assert Blank(l) <==> Blank(l[1..]) by {
        if Blank(l[1..]) {
          forall k | 0 <= k < |l| ensures IsSpace(l[k]) {
            if k > 0 { assert l[k] == l[1..][k - 1]; }
          }
        }
      }
    }
  }

  function StrippedLines(ls: seq<string>, n: nat): seq<string>
    requires n <= |ls|
  {
    Pick(n, StripKeep(ls), StripOf(ls))
  }

  /** mktest's geometry of the Python lines is one line per non-blank body
   *  line, left-stripped. */
  lemma BodyTextLines(ls: seq<string>, n: nat)
    requires n <= |ls|
    ensures Mktest.BodyText(PyLines(ls), n) == Lines(StrippedLines(ls, n))
  {
    var i := 0;
    while i < n
      invariant i <= n
      invariant Mktest.BodyText(PyLines(ls), i) == Lines(StrippedLines(ls, i))
    {
      BodyTextStep(ls, i);
      i := i + 1;
    }
  }

  lemma BodyTextStep(ls: seq<string>, i: nat)
    requires i < |ls| && Mktest.BodyText(PyLines(ls), i) == Lines(StrippedLines(ls, i))
    ensures Mktest.BodyText(PyLines(ls), i + 1) == Lines(StrippedLines(ls, i + 1))
  {
    BodySame(ls, i);
    LStripNewline(ls[i]);
    StrippedStep(ls, i + 1, PyLines(ls)[i]);
  }

  lemma StrippedStep(ls: seq<string>, n: nat, py: string)
    requires 0 < n <= |ls| && py == ls[n - 1] + "\n"
    ensures Lines(StrippedLines(ls, n)) ==
      Lines(StrippedLines(ls, n - 1)) + (if InBody(ls, n - 1) && !Blank(ls[n - 1]) then LStrip(ls[n - 1]) + "\n" else "")
  {
    LinesPickStep(n, StripKeep(ls), StripOf(ls));
  }

  // ---------------------------------------------------------------------
  // Lines of newline-free parts determine the parts

  lemma LinesEnd(a: seq<string>)
    requires a != []
    ensures Lines(a) != [] && Lines(a)[|Lines(a)| - 1] == '\n'
  {
  }

  lemma {:induction false} LinesInjective(a: seq<string>, b: seq<string>)
    requires AllNoNewline(a) && AllNoNewline(b) && Lines(a) == Lines(b)
    ensures a == b
    decreases |a| + |b|
  {
    if a == [] || b == [] {
      if a != [] { LinesEnd(a); }
      if b != [] { LinesEnd(b); }
    } else {
      var pa, pb := a[..|a| - 1], b[..|b| - 1];
      var x, y := a[|a| - 1], b[|b| - 1];
      LastLine(Lines(pa), x, Lines(pb), y, pa, pb);
      assert AllNoNewline(pa) && AllNoNewline(pb);
      LinesInjective(pa, pb);
      assert a == pa + [x] && b == pb + [y];
    }
  }

  /** P + x + "\n" == Q + y + "\n" with P, Q empty or newline-terminated and
   *  x, y newline-free forces x == y and P == Q. */
  lemma LastLine(p: string, x: string, q: string, y: string, pa: seq<string>, pb: seq<string>)
    requires p == Lines(pa) && q == Lines(pb) && NoNewline(x) && NoNewline(y)
    requires p + x + "\n" == q + y + "\n"
    ensures x == y && p == q
  {
    var s := p + x;
    assert s == q + y by {
      assert s == (p + x + "\n")[..|p + x|];
      assert q + y == (q + y + "\n")[..|q + y|];
    }
    if |x| < |y| && pa != [] {
      LinesEnd(pa);
    } else if |y| < |x| && pb != [] {
      LinesEnd(pb);
    }
    assert x == s[|p|..] && y == s[|q|..];
    assert p == s[..|p|] && q == s[..|q|];
  }

  // ---------------------------------------------------------------------
  // The two line lists agree exactly on normalised blocks

  /** Below n, whatever kb selects ka selects too. */
  predicate Covers(n: nat, ka: nat -> bool, kb: nat -> bool) {
    forall k: nat :: k < n && kb(k) ==> ka(k)
  }

  /** Below n, each index ka selects is selected by kb with the same value. */
  predicate Matches(n: nat, ka: nat -> bool, fa: nat -> string, kb: nat -> bool, fb: nat -> string) {
    forall k: nat :: k < n && ka(k) ==> kb(k) && fa(k) == fb(k)
  }

  lemma {:induction false} PickFewer(n: nat, ka: nat -> bool, fa: nat -> string, kb: nat -> bool, fb: nat -> string)
    requires Covers(n, ka, kb)
    ensures |Pick(n, kb, fb)| <= |Pick(n, ka, fa)|
    decreases n
  {
    if n > 0 {
      assert Covers(n - 1, ka, kb);
      PickFewer(n - 1, ka, fa, kb, fb);
    }
  }

  /** A selection covering another picks the same list exactly when the two
   *  agree on every index the larger one selects. */
  lemma {:induction false} PickSame(n: nat, ka: nat -> bool, fa: nat -> string, kb: nat -> bool, fb: nat -> string)
    requires Covers(n, ka, kb)
    ensures Pick(n, ka, fa) == Pick(n, kb, fb) <==> Matches(n, ka, fa, kb, fb)
    decreases n
  {
    if n > 0 {
      var pa, pb := Pick(n - 1, ka, fa), Pick(n - 1, kb, fb);
      assert Covers(n - 1, ka, kb);
      PickSame(n - 1, ka, fa, kb, fb);
      PickFewer(n - 1, ka, fa, kb, fb);
      if ka(n - 1) && kb(n - 1) {
        if pa + [fa(n - 1)] == pb + [fb(n - 1)] {
          assert pa == (pa + [fa(n - 1)])[..|pa|];
          assert pb == (pb + [fb(n - 1)])[..|pb|];
        }
      } else if !ka(n - 1) {
        assert pa + [] == pa && pb + [] == pb;
      } else {
        assert pb + [] == pb;
        assert |pa + [fa(n - 1)]| > |pb|;
      }
    }
  }

  /** The body lines mktest keeps, and what it keeps of them. */
  function StripKeep(ls: seq<string>): nat -> bool {
    (k: nat) => k < |ls| && InBody(ls, k) && !Blank(ls[k])
  }

  function StripOf(ls: seq<string>): nat -> string {
    (k: nat) => if k < |ls| then LStrip(ls[k]) else ""
  }

  /** One line: a four-field line is never blank, and a kept line is
   *  rebuilt unchanged exactly when it is blank or single-spaced. */
  lemma LineAgrees(ls: seq<string>, k: nat)
    requires k < |ls|
    ensures FakeMolpro.KeyKeep(ls)(k) ==> StripKeep(ls)(k)
    ensures (StripKeep(ls)(k) ==> FakeMolpro.KeyKeep(ls)(k) && StripOf(ls)(k) == FakeMolpro.KeyOf(ls)(k)) <==>
            (InBody(ls, k) ==> Blank(ls[k]) || SingleSpaced(ls[k]))
  {
    FieldsBlank(ls[k]);
  }

  /** A line list is normalised exactly when the two selections match. */
  lemma NormalisedMatches(ls: seq<string>, n: nat)
    requires n <= |ls|
    ensures Covers(n, StripKeep(ls), FakeMolpro.KeyKeep(ls))
    ensures Normalised(ls, n) <==> Matches(n, StripKeep(ls), StripOf(ls), FakeMolpro.KeyKeep(ls), FakeMolpro.KeyOf(ls))
  {
    forall k: nat | k < n {
      LineAgrees(ls, k);
    }
  }

  /** The two line lists are equal exactly on normalised blocks. */
  lemma SameLinesIff(ls: seq<string>, n: nat)
    requires n <= |ls|
    ensures StrippedLines(ls, n) == FakeMolpro.KeyLines(ls, n) <==> Normalised(ls, n)
  {
    NormalisedMatches(ls, n);
    PickSame(n, StripKeep(ls), StripOf(ls), FakeMolpro.KeyKeep(ls), FakeMolpro.KeyOf(ls));
  }

  lemma StrippedNoNewline(ls: seq<string>, n: nat)
    requires n <= |ls| && AllNoNewline(ls)
    ensures AllNoNewline(StrippedLines(ls, n))
  {
    forall k: nat | k < n ensures NoNewline(StripOf(ls)(k)) {
      StripNoNewline(ls[k]);
    }
    PickNoNewline(n, StripKeep(ls), StripOf(ls));
  }

  lemma {:induction false} PickNoNewline(n: nat, keep: nat -> bool, f: nat -> string)
    requires forall k: nat :: k < n ==> NoNewline(f(k))
    ensures AllNoNewline(Pick(n, keep, f))
    decreases n
  {
    if n > 0 {
      PickNoNewline(n - 1, keep, f);
      AppendNoNewline(Pick(n - 1, keep, f), if keep(n - 1) then [f(n - 1)] else []);
    }
  }

  lemma StripNoNewline(l: string)
    requires NoNewline(l)
    ensures NoNewline(LStrip(l))
  {
    var r := LStrip(l);
    var d := |l| - |r|;
    assert r == l[d..];
    forall k | 0 <= k < |r| ensures r[k] != '\n' {
      assert r[k] == l[d + k];
    }
  }

  lemma AppendNoNewline(a: seq<string>, b: seq<string>)
    requires AllNoNewline(a) && AllNoNewline(b)
    ensures AllNoNewline(a + b)
  {
  }

  lemma {:induction false} JoinNoNewline(ws: seq<string>, sep: string)
    requires AllNoNewline(ws) && NoNewline(sep)
    ensures NoNewline(Join(ws, sep))
    decreases |ws|
  {
    if |ws| > 1 {
      JoinNoNewline(ws[1..], sep);
      assert AllNoNewline(ws[1..]);
    }
  }

  lemma KeyLinesNoNewline(ls: seq<string>, n: nat)
    requires n <= |ls|
    ensures AllNoNewline(FakeMolpro.KeyLines(ls, n))
  {
    forall k: nat | k < n ensures NoNewline(FakeMolpro.KeyOf(ls)(k)) {
      var ws := Fields(ls[k]);
      assert AllNoNewline(ws) by {
        forall j | 0 <= j < |ws| ensures NoNewline(ws[j]) {
          assert Word(ws[j]);
        }
      }
      JoinNoNewline(ws, " ");
    }
    PickNoNewline(n, FakeMolpro.KeyKeep(ls), FakeMolpro.KeyOf(ls));
  }

  /** The fixture key round trip: for an input file whose lines ls are
   *  those of the output file mktest read, the fakes find the entry mktest
   *  stored (its geometry, decoded from the JSON key) exactly when every
   *  line of the geometry block is blank or already single-spaced with four
   *  fields. Internal spacing, trailing blanks or a field count other than
   *  four on any block line make the lookup miss. */
  lemma KeyMatchesGeometry(ls: seq<string>)
    requires AllNoNewline(ls)
    ensures FakeMolpro.Key(ls, |ls|) == Mktest.BodyText(PyLines(ls), |ls|) <==> Normalised(ls, |ls|)
  {
    FakeMolpro.KeySpec(ls, |ls|);
    BodyTextLines(ls, |ls|);
    SameLinesIff(ls, |ls|);
    if FakeMolpro.Key(ls, |ls|) == Mktest.BodyText(PyLines(ls), |ls|) {
      StrippedNoNewline(ls, |ls|);
      KeyLinesNoNewline(ls, |ls|);
      LinesInjective(StrippedLines(ls, |ls|), FakeMolpro.KeyLines(ls, |ls|));
    }
  }

  // ---------------------------------------------------------------------
  // Loading a printed fixture

  /** The energy the script stored, as a float64: its int 0 reads as 0. */
  function EnergyValue(e: Mktest.Energy): real {
    match e
    case IntZero => 0.0
    case Float(x) => x
  }

  /** A fixture printed by the script loads as it was meant to: the decode
   *  succeeds, each geometry the script stored maps to its energy and an
   *  empty gradient, and the map's other entries stay. */
  lemma FixtureLoads(d: seq<Mktest.Entry>, names: seq<string>, repr: real -> string,
                     geoms: map<string, FakeMolpro.Calc>, toFloat: string -> Option<real>)
    requires |names| == |d|
    requires forall p :: 0 <= p < |d| ==>
      d[p].key == Json.Quote(names[p]) && Json.IsNumber(Mktest.EnergyText(d[p].energy, repr))
    requires forall p :: 0 <= p < |d| ==> toFloat(Mktest.EnergyText(d[p].energy, repr)) == Some(EnergyValue(d[p].energy))
    requires forall p, q :: 0 <= p < q < |d| ==> names[p] != names[q]
    ensures MolproMain.Unmarshal(Mktest.Output(d, repr), geoms, toFloat).Some?
    ensures var r := MolproMain.Unmarshal(Mktest.Output(d, repr), geoms, toFloat).value;
      && (forall k :: k in r <==> k in geoms || k in names)
      && (forall p :: 0 <= p < |d| ==> r[names[p]] == FakeMolpro.Calc(EnergyValue(d[p].energy), []))
      && (forall k :: k in geoms && k !in names ==> r[k] == geoms[k])
  {
    var ms := Mktest.Members(d, names, repr);
    var xs := seq(|d|, p requires 0 <= p < |d| => EnergyValue(d[p].energy));
    UnmarshalOutput(d, names, repr, geoms, toFloat);
    forall t | 0 <= t < |ms| ensures CalcOf(ms, t, toFloat) == Some(FakeMolpro.Calc(xs[t], [])) {
      MolproMain.CalcOfEntry(Mktest.EnergyText(d[t].energy, repr), EnergyValue(d[t].energy), toFloat);
    }
    LoadEntries(geoms, ms, xs, toFloat);
    Renamed(MolproMain.Into(geoms, ms, toFloat).value, geoms, ms, names, xs);
  }

  /** The facts of LoadEntries restated with the script's names. */
  lemma Renamed(r: map<string, FakeMolpro.Calc>, geoms: map<string, FakeMolpro.Calc>, ms: seq<Json.Member>,
                names: seq<string>, xs: seq<real>)
    requires |ms| == |names| == |xs|
    requires forall t :: 0 <= t < |ms| ==> ms[t].name == names[t]
    requires forall k :: k in r <==> k in geoms || exists t :: 0 <= t < |ms| && ms[t].name == k
    requires forall t :: 0 <= t < |ms| ==> r[ms[t].name] == FakeMolpro.Calc(xs[t], [])
    requires forall k :: k in geoms && (forall t :: 0 <= t < |ms| ==> ms[t].name != k) ==> r[k] == geoms[k]
    ensures forall k :: k in r <==> k in geoms || k in names
    ensures forall p :: 0 <= p < |names| ==> r[names[p]] == FakeMolpro.Calc(xs[p], [])
    ensures forall k :: k in geoms && k !in names ==> r[k] == geoms[k]
  {
    forall k ensures k in names <==> exists t :: 0 <= t < |ms| && ms[t].name == k {
      if k in names {
        var t :| 0 <= t < |names| && names[t] == k;
        assert ms[t].name == k;
      }
    }
  }

  lemma UnmarshalOutput(d: seq<Mktest.Entry>, names: seq<string>, repr: real -> string,
                        geoms: map<string, FakeMolpro.Calc>, toFloat: string -> Option<real>)
    requires |names| == |d|
    requires forall p :: 0 <= p < |d| ==>
      d[p].key == Json.Quote(names[p]) && Json.IsNumber(Mktest.EnergyText(d[p].energy, repr))
    ensures MolproMain.Unmarshal(Mktest.Output(d, repr), geoms, toFloat) == MolproMain.Into(geoms, Mktest.Members(d, names, repr), toFloat)
  {
    Mktest.OutputDecodes(d, names, repr);
  }

  /** Members that each decode to an energy without gradient, under
   *  distinct names, are stored as such over geoms. */
  lemma LoadEntries(geoms: map<string, FakeMolpro.Calc>, ms: seq<Json.Member>, xs: seq<real>, toFloat: string -> Option<real>)
    requires |xs| == |ms|
    requires forall t :: 0 <= t < |ms| ==> CalcOf(ms, t, toFloat) == Some(FakeMolpro.Calc(xs[t], []))
    requires forall s, t :: 0 <= s < t < |ms| ==> ms[s].name != ms[t].name
    ensures MolproMain.Into(geoms, ms, toFloat).Some?
    ensures var r := MolproMain.Into(geoms, ms, toFloat).value;
      && (forall k :: k in r <==> k in geoms || exists t :: 0 <= t < |ms| && ms[t].name == k)
      && (forall t :: 0 <= t < |ms| ==> r[ms[t].name] == FakeMolpro.Calc(xs[t], []))
      && (forall k :: k in geoms && (forall t :: 0 <= t < |ms| ==> ms[t].name != k) ==> r[k] == geoms[k])
  {
    forall t | 0 <= t < |ms| ensures MolproMain.CalcOf(ms[t].value, toFloat).Some? {
      assert CalcOf(ms, t, toFloat).Some?;
    }
    MolproMain.IntoOk(geoms, ms, toFloat);
    var r := MolproMain.Into(geoms, ms, toFloat).value;
    forall k ensures k in r <==> k in geoms || exists t :: 0 <= t < |ms| && ms[t].name == k {
      MolproMain.IntoLookup(geoms, ms, k, toFloat);
    }
    forall t | 0 <= t < |ms| ensures r[ms[t].name] == FakeMolpro.Calc(xs[t], []) {
      MolproMain.IntoLookup(geoms, ms, ms[t].name, toFloat);
      MolproMain.LastNamedDistinct(ms, t);
    }
    forall k | k in geoms && (forall t :: 0 <= t < |ms| ==> ms[t].name != k) ensures r[k] == geoms[k] {
      MolproMain.IntoLookup(geoms, ms, k, toFloat);
    }
  }

  function CalcOf(ms: seq<Json.Member>, t: nat, toFloat: string -> Option<real>): Option<FakeMolpro.Calc>
    requires t < |ms|
  {
    MolproMain.CalcOf(ms[t].value, toFloat)
  }
}
