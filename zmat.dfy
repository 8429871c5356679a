/** The z-matrix rewriting that molpro.go, gaussian.go and main.go share.
 *  FormatZmat puts a lone "}" line before the first line holding "=",
 *  which closes the atom block of a geometry and leaves the parameter
 *  lines after it; UpdateZmat keeps the text through the first line
 *  holding "}" and appends new parameters after it. */
module Zmat {
  import opened Text
  import opened Utils

  // ---------------------------------------------------------------------
  // Lines of a text

  /** Every piece of strings.Split(s, "\n") is free of newlines. */
  lemma {:induction false} SplitNoNewline(s: string)
    ensures forall k :: 0 <= k < |Split(s, "\n")| ==> NoNewline(Split(s, "\n")[k])
    decreases |s|
  {
    var i := Index(s, "\n");
    if i < 0 {
      forall j | 0 <= j < |s| ensures s[j] != '\n' {
        assert !OccursAt(s, "\n", j);
        assert s[j..j + 1] == [s[j]];
      }
    } else {
      forall j | 0 <= j < i ensures s[j] != '\n' {
        assert !OccursAt(s, "\n", j);
        assert s[j..j + 1] == [s[j]];
      }
      SplitNoNewline(s[i + 1..]);
      assert Split(s, "\n") == [s[..i]] + Split(s[i + 1..], "\n");
    }
  }

  /** No piece holds a newline. */
  predicate NoNewlines(ps: seq<string>) {
    forall k :: 0 <= k < |ps| ==> NoNewline(ps[k])
  }

  lemma NoNewlinesSplit(s: string)
    ensures NoNewlines(Split(s, "\n"))
  {
    SplitNoNewline(s);
  }

  lemma NoNewlinesSlice(ps: seq<string>, i: nat, j: nat)
    requires NoNewlines(ps) && i <= j <= |ps|
    ensures NoNewlines(ps[i..j])
  {
    forall k | 0 <= k < j - i ensures NoNewline(ps[i..j][k]) {
      assert ps[i..j][k] == ps[i + k];
    }
  }

  lemma NoNewlinesAppend(ps: seq<string>, qs: seq<string>)
    requires NoNewlines(ps) && NoNewlines(qs)
    ensures NoNewlines(ps + qs)
  {
    forall k | 0 <= k < |ps + qs| ensures NoNewline((ps + qs)[k]) {
      if k < |ps| {
        assert (ps + qs)[k] == ps[k];
      } else {
        assert (ps + qs)[k] == qs[k - |ps|];
      }
    }
  }

  /** Joining newline-free lines and splitting again gives the lines back,
   *  followed by the lines of whatever came after. */
  lemma {:induction false} SplitJoinAppend(ps: seq<string>, rest: string)
    requires ps != [] && NoNewlines(ps)
    ensures Split(Join(ps, "\n") + "\n" + rest, "\n") == ps + Split(rest, "\n")
    decreases |ps|
  {
    assert NoNewline(ps[0]);
    if |ps| == 1 {
      SplitLine(ps[0], rest, Split(rest, "\n"));
      assert [ps[0]] == ps;
    } else {
      NoNewlinesSlice(ps, 1, |ps|);
      SplitJoinAppend(ps[1..], rest);
      SplitJoinStep(ps[0], ps[1..], rest, Split(rest, "\n"));
      assert [ps[0]] + ps[1..] == ps;
    }
  }

  /** One more line in front of SplitJoinAppend. */
  lemma SplitJoinStep(a: string, tl: seq<string>, rest: string, after: seq<string>)
    requires NoNewline(a) && tl != []
    requires Split(Join(tl, "\n") + "\n" + rest, "\n") == tl + after
    ensures Split(Join([a] + tl, "\n") + "\n" + rest, "\n") == [a] + tl + after
  {
    JoinCons(a, tl, "\n");
    var tail := Join(tl, "\n") + "\n" + rest;
    assert Join([a] + tl, "\n") + "\n" + rest == a + "\n" + tail;
    SplitLine(a, tail, tl + after);
  }

  /** Joining newline-free lines and splitting again gives the lines back. */
  lemma SplitJoin(ps: seq<string>)
    requires ps != [] && NoNewlines(ps)
    ensures Split(Join(ps, "\n"), "\n") == ps
  {
    var n := |ps| - 1;
    assert NoNewline(ps[n]);
    SplitNone(ps[n], '\n');
    if n == 0 {
      assert Join(ps, "\n") == ps[0];
    } else {
      NoNewlinesSlice(ps, 0, n);
      SplitJoinAppend(ps[..n], ps[n]);
      SplitJoinLast(ps, n);
    }
  }

  lemma SplitJoinLast(ps: seq<string>, n: nat)
    requires 0 < n == |ps| - 1
    requires Split(Join(ps[..n], "\n") + "\n" + ps[n], "\n") == ps[..n] + [ps[n]]
    ensures Split(Join(ps, "\n"), "\n") == ps
  {
    JoinSnoc(ps[..n], ps[n], "\n");
    assert ps[..n] + [ps[n]] == ps;
  }

  /** The index of the first piece holding t, or |ps| when none does. */
  function FirstWith(ps: seq<string>, t: string): (r: nat)
    ensures r <= |ps|
    ensures forall k :: 0 <= k < r ==> !Contains(ps[k], t)
    ensures r < |ps| ==> Contains(ps[r], t)
    decreases |ps|
  {
    if ps == [] then 0
    else if Contains(ps[0], t) then 0
    else
      var r := 1 + FirstWith(ps[1..], t);
      assert forall k :: 1 <= k < r ==> ps[k] == ps[1..][k - 1];
      r
  }

  /** FirstWith is i when no piece before i holds t and piece i does. */
  lemma FirstWithIs(ps: seq<string>, t: string, i: nat)
    requires i <= |ps| && forall k :: 0 <= k < i ==> !Contains(ps[k], t)
    requires i < |ps| ==> Contains(ps[i], t)
    ensures FirstWith(ps, t) == i
  {
  }

  /** Pieces after the first one holding t do not move it. */
  lemma FirstWithAppend(ps: seq<string>, qs: seq<string>, t: string)
    requires FirstWith(ps, t) < |ps|
    ensures FirstWith(ps + qs, t) == FirstWith(ps, t)
  {
    var i := FirstWith(ps, t);
    assert (ps + qs)[i] == ps[i];
    assert forall k :: 0 <= k < i ==> (ps + qs)[k] == ps[k];
    FirstWithIs(ps + qs, t, i);
  }

  // ---------------------------------------------------------------------
  // FormatZmat

  /** The geometry with "}" put in as a line of its own before the first
   *  line holding "=", or "" when no line holds "=". */
  function Braced(geom: string): string {
    var split := Split(geom, "\n");
    var i := FirstWith(split, "=");
    if i < |split| then Join(split[..i] + ["}"] + split[i..], "\n") else ""
  }

  /** FormatZmat's loop: ok is false, the "improper z-matrix" error,
   *  exactly when no line holds "=". */
  method FormatZmat(geom: string) returns (geometry: string, ok: bool)
    ensures ok <==> exists k :: 0 <= k < |Split(geom, "\n")| && Contains(Split(geom, "\n")[k], "=")
    ensures geometry == Braced(geom)
  {
    var split := Split(geom, "\n");
    var out: seq<string> := [];
    ok := false;
    var i := 0;
    while i < |split|
      invariant i <= |split|
      invariant forall k :: 0 <= k < i ==> !Contains(split[k], "=")
      invariant !ok && out == []
    {
      if Contains(split[i], "=") {
        out := split[..i] + ["}"] + split[i..];
        ok := true;
        break;
      }
      i := i + 1;
    }
    geometry := Join(out, "\n");
    BracedAt(geom, split, i);
  }

  /** Braced, given where the first line holding "=" is. */
  lemma BracedAt(geom: string, split: seq<string>, i: nat)
    requires split == Split(geom, "\n") && i <= |split|
    requires forall k :: 0 <= k < i ==> !Contains(split[k], "=")
    requires i < |split| ==> Contains(split[i], "=")
    ensures FirstWith(split, "=") == i
    ensures Braced(geom) == if i < |split| then Join(split[..i] + ["}"] + split[i..], "\n") else ""
  {
    FirstWithIs(split, "=", i);
  }

  /** ps with x put in at position i. */
  function Insert(ps: seq<string>, i: nat, x: string): (r: seq<string>)
    requires i <= |ps|
    ensures |r| == |ps| + 1 && r[i] == x && r[..i] == ps[..i] && r[i + 1..] == ps[i..]
  {
    ps[..i] + [x] + ps[i..]
  }

  lemma InsertNoNewlines(ps: seq<string>, i: nat, x: string)
    requires i <= |ps| && NoNewlines(ps) && NoNewline(x)
    ensures NoNewlines(Insert(ps, i, x))
  {
    NoNewlinesSlice(ps, 0, i);
    NoNewlinesSlice(ps, i, |ps|);
    assert NoNewlines([x]);
    NoNewlinesAppend(ps[..i], [x]);
    NoNewlinesAppend(ps[..i] + [x], ps[i..]);
  }

  /** Dropping the inserted element gives the sequence back. */
  lemma InsertRemove(ps: seq<string>, i: nat, x: string)
    requires i <= |ps|
    ensures var r := Insert(ps, i, x); r[..i] + r[i + 1..] == ps
  {
    assert ps[..i] + ps[i..] == ps;
  }

  /** The braced text splits into the geometry's lines with "}" put in. */
  lemma BracedSplit(geom: string)
    requires FirstWith(Split(geom, "\n"), "=") < |Split(geom, "\n")|
    ensures Split(Braced(geom), "\n") == Insert(Split(geom, "\n"), FirstWith(Split(geom, "\n"), "="), "}")
  {
    var split := Split(geom, "\n");
    var i := FirstWith(split, "=");
    var ps := Insert(split, i, "}");
    NoNewlinesSplit(geom);
    assert NoNewline("}");
    InsertNoNewlines(split, i, "}");
    assert Braced(geom) == Join(ps, "\n");
    SplitJoin(ps);
  }

  /** The braced text, split into lines, is the geometry's lines with "}"
   *  inserted at the first line holding "=": the lines before it are the
   *  atom lines, none of which holds "=", and dropping the brace line
   *  gives the geometry back. */
  lemma BracedLines(geom: string)
    ensures var split := Split(geom, "\n");
      var i := FirstWith(split, "=");
      i < |split| ==>
        var out := Split(Braced(geom), "\n");
        |out| == |split| + 1 && out[i] == "}" && out[..i] == split[..i] && out[i + 1..] == split[i..]
        && (forall k :: 0 <= k < i ==> !Contains(out[k], "=")) && Contains(out[i + 1], "=")
        && Join(out[..i] + out[i + 1..], "\n") == geom
  {
    var split := Split(geom, "\n");
    var i := FirstWith(split, "=");
    if i < |split| {
      BracedSplit(geom);
      InsertAfterNone(split, i, "}", "=");
      JoinSplit(geom, "\n");
    }
  }

  /** Putting x in at the first piece holding t keeps the pieces before it
   *  free of t, moves that piece one up, and can be undone. */
  lemma InsertAfterNone(ps: seq<string>, i: nat, x: string, t: string)
    requires i < |ps| && forall k :: 0 <= k < i ==> !Contains(ps[k], t)
    requires Contains(ps[i], t)
    ensures var out := Insert(ps, i, x);
      (forall k :: 0 <= k < i ==> !Contains(out[k], t)) && Contains(out[i + 1], t) && out[..i] + out[i + 1..] == ps
  {
    var out := Insert(ps, i, x);
    assert forall k :: 0 <= k < i ==> out[k] == ps[k];
    assert out[i + 1] == ps[i];
    InsertRemove(ps, i, x);
  }

  /** Cutting after the first "}" of lines with "}" put in at i, when no
   *  line before i holds "}", keeps exactly the lines before i and "}". */
  lemma KeptInsert(ps: seq<string>, i: nat)
    requires i <= |ps| && forall k :: 0 <= k < i ==> !Contains(ps[k], "}")
    ensures Kept(Insert(ps, i, "}")) == ps[..i] + ["}"]
  {
    var out := Insert(ps, i, "}");
    OccursContains("}", "}", 0);
    assert forall k :: 0 <= k < i ==> out[k] == ps[k];
    FirstWithIs(out, "}", i);
    assert out[..i + 1] == ps[..i] + ["}"];
  }

  // ---------------------------------------------------------------------
  // UpdateZmat

  /** The lines through the first one holding "}", or all of them. */
  function Kept(lines: seq<string>): (r: seq<string>)
    ensures |r| <= |lines| && r == lines[..|r|]
    ensures FirstWith(lines, "}") < |lines| ==> |r| == FirstWith(lines, "}") + 1
    ensures FirstWith(lines, "}") == |lines| ==> r == lines
  {
    var i := FirstWith(lines, "}");
    if i < |lines| then lines[..i + 1] else lines
  }

  /** The old geometry through its first "}" line, a newline, and the new
   *  parameters. */
  function Updated(zmat: string, params: string): string {
    Join(Kept(Split(zmat, "\n")), "\n") + "\n" + params
  }

  /** UpdateZmat's loop over the old lines (main.go's UpdateZmat itself;
   *  the Molpro and Gaussian methods of that name call it). */
  method UpdateZmat(zmat: string, params: string) returns (r: string)
    ensures r == Updated(zmat, params)
  {
    var lines := Split(zmat, "\n");
    ghost var all := lines;
    var i := 0;
    while i < |lines|
      invariant i <= |lines| && lines == all
      invariant forall k :: 0 <= k < i ==> !Contains(lines[k], "}")
    {
      if Contains(lines[i], "}") {
        FirstWithIs(all, "}", i);
        lines := lines[..i + 1];
        break;
      }
      i := i + 1;
    }
    if lines == all {
      FirstWithIs(all, "}", i);
    }
    r := Join(lines, "\n") + "\n" + params;
  }

  /** The kept lines of newline-free lines, joined and followed by more
   *  text, split back into the kept lines and the text's lines. */
  lemma KeptSplit(zmat: string, a: string)
    ensures var kept := Kept(Split(zmat, "\n"));
      kept != [] ==> Split(Join(kept, "\n") + "\n" + a, "\n") == kept + Split(a, "\n")
  {
    var lines := Split(zmat, "\n");
    var kept := Kept(lines);
    if kept != [] {
      NoNewlinesSplit(zmat);
      NoNewlinesSlice(lines, 0, |kept|);
      SplitJoinAppend(kept, a);
    }
  }

  /** Updating twice is updating once with the second parameters, as long
   *  as the old text has a "}" line: the first update keeps that line and
   *  the second cuts again right after it. */
  lemma UpdateTwice(zmat: string, a: string, b: string)
    requires exists k :: 0 <= k < |Split(zmat, "\n")| && Contains(Split(zmat, "\n")[k], "}")
    ensures Updated(Updated(zmat, a), b) == Updated(zmat, b)
  {
    var lines := Split(zmat, "\n");
    assert FirstWith(lines, "}") < |lines|;
    KeptSplit(zmat, a);
    KeptAgain(lines, Split(a, "\n"));
  }

  /** Cutting again after the first "}" of kept lines followed by more
   *  lines gives the kept lines back. */
  lemma KeptAgain(lines: seq<string>, after: seq<string>)
    requires FirstWith(lines, "}") < |lines|
    ensures Kept(Kept(lines) + after) == Kept(lines)
  {
    var c := FirstWith(lines, "}");
    var kept := Kept(lines);
    var both := kept + after;
    assert both[c] == lines[c];
    assert forall k :: 0 <= k < c ==> both[k] == lines[k];
    FirstWithIs(both, "}", c);
  }

  /** After FormatZmat, UpdateZmat keeps the atom lines and the brace and
   *  replaces the parameters, provided no atom line holds "}". */
  lemma FormatThenUpdate(geom: string, params: string)
    requires var split := Split(geom, "\n");
      FirstWith(split, "=") < |split| && forall k :: 0 <= k < FirstWith(split, "=") ==> !Contains(split[k], "}")
    ensures var split := Split(geom, "\n");
      Updated(Braced(geom), params) == Join(split[..FirstWith(split, "=")] + ["}"], "\n") + "\n" + params
  {
    var split := Split(geom, "\n");
    var i := FirstWith(split, "=");
    BracedSplit(geom);
    KeptInsert(split, i);
  }
}
