/** utils.go: CleanSplit, strings.Split followed by dropping the empty
 *  pieces. */
module Utils {
  import opened Text

  /** strings.Split with an empty separator: one piece per character. */
  function Explode(s: string): (r: seq<string>)
    ensures |r| == |s| && forall k :: 0 <= k < |r| ==> r[k] == [s[k]]
  {
    if s == [] then [] else Explode(s[..|s| - 1]) + [[s[|s| - 1]]]
  }

  /** strings.Split for any separator. */
  function GoSplit(s: string, sep: string): seq<string> {
    if sep == "" then Explode(s) else Split(s, sep)
  }

  /** The non-empty pieces, in their original order. */
  function NonEmpty(pieces: seq<string>): seq<string>
    decreases |pieces|
  {
    if pieces == [] then []
    else
      var last := pieces[|pieces| - 1];
      NonEmpty(pieces[..|pieces| - 1]) + (if last == "" then [] else [last])
  }

  /** CleanSplit (utils.go:7-16): the loop keeps each non-empty piece. */
  method CleanSplit(str: string, sep: string) returns (clean: seq<string>)
    ensures clean == NonEmpty(GoSplit(str, sep))
  {
    var lines := GoSplit(str, sep);
    clean := [];
    var s := 0;
    while s < |lines|
      invariant 0 <= s <= |lines|
      invariant clean == NonEmpty(lines[..s])
    {
      assert lines[..s + 1][..s] == lines[..s];
      if lines[s] != "" {
        clean := clean + [lines[s]];
      }
      s := s + 1;
    }
    assert lines[..s] == lines;
  }

  /** No kept piece is empty, and every kept piece is one of the pieces. */
  lemma {:induction false} NonEmptyClean(pieces: seq<string>)
    ensures forall k :: 0 <= k < |NonEmpty(pieces)| ==> NonEmpty(pieces)[k] != ""
    ensures forall x :: x in NonEmpty(pieces) <==> x in pieces && x != ""
    ensures |NonEmpty(pieces)| <= |pieces|
    decreases |pieces|
  {
    if pieces != [] {
      var init := pieces[..|pieces| - 1];
      NonEmptyClean(init);
      assert pieces == init + [pieces[|pieces| - 1]];
    }
  }

  /** Order is kept: filtering a concatenation filters each part in turn. */
  lemma {:induction false} NonEmptyAppend(a: seq<string>, b: seq<string>)
    ensures NonEmpty(a + b) == NonEmpty(a) + NonEmpty(b)
    decreases |b|
  {
    if b == [] {
      assert a + b == a;
    } else {
      var init := b[..|b| - 1];
      NonEmptyAppend(a, init);
      assert (a + b)[..|a + b| - 1] == a + init;
    }
  }

  /** The first occurrence of t in s is also the first in any extension of s. */
  lemma {:induction false} IndexFromAppend(s: string, t: string, u: string, i: nat)
    requires i <= |s| && IndexFrom(s, t, i) >= 0
    ensures IndexFrom(s + u, t, i) == IndexFrom(s, t, i)
    decreases |s| - i
  {
    if s[i..i + |t|] != t {
      IndexFromAppend(s, t, u, i + 1);
    } else {
      assert (s + u)[i..i + |t|] == s[i..i + |t|];
    }
  }

  lemma {:induction false} IndexFromSnocSep(s: string, c: char, i: nat)
    requires i <= |s| && IndexFrom(s, [c], i) < 0
    ensures IndexFrom(s + [c], [c], i) == |s|
    decreases |s| - i
  {
    if i < |s| {
      assert (s + [c])[i..i + 1] == s[i..i + 1];
      IndexFromSnocSep(s, c, i + 1);
    } else {
      assert (s + [c])[i..i + 1] == [c];
    }
  }

  /** A trailing one-character separator adds one empty piece at the end. */
  lemma {:induction false} SplitTrailing(s: string, c: char)
    ensures Split(s + [c], [c]) == Split(s, [c]) + [""]
    decreases |s|
  {
    var i := Index(s, [c]);
    if i >= 0 {
      assert OccursAt(s, [c], i);
      var t := s + [c];
      IndexFromAppend(s, [c], [c], 0);
      assert t[..i] == s[..i];
      assert t[i + 1..] == s[i + 1..] + [c];
      SplitTrailing(s[i + 1..], c);
      SplitAtIndex(s, [c]);
      SplitAtIndex(t, [c]);
    } else {
      IndexFromSnocSep(s, c, 0);
      assert (s + [c])[..|s|] == s;
      assert (s + [c])[|s| + 1..] == "";
    }
  }

  /** A trailing one-character separator contributes nothing to CleanSplit. */
  lemma TrailingSeparator(s: string, c: char)
    ensures NonEmpty(GoSplit(s + [c], [c])) == NonEmpty(GoSplit(s, [c]))
  {
    SplitTrailing(s, c);
    NonEmptyAppend(Split(s, [c]), [""]);
    assert NonEmpty([""]) == [];
  }

  lemma IndexFromFirst(s: string, t: string, i: nat, j: nat)
    requires i <= j && OccursAt(s, t, j)
    requires forall m :: i <= m < j ==> !OccursAt(s, t, m)
    ensures IndexFrom(s, t, i) == j
  {
  }

  /** Splitting on c at a first piece free of c. */
  lemma SplitCons(a: string, c: char, rest: string)
    requires forall k :: 0 <= k < |a| ==> a[k] != c
    ensures Split(a + [c] + rest, [c]) == [a] + Split(rest, [c])
  {
    var s := a + [c] + rest;
    assert s[|a|..|a| + 1] == [c];
    forall m | 0 <= m < |a| ensures !OccursAt(s, [c], m) {
      assert s[m..m + 1] == [a[m]];
    }
    IndexFromFirst(s, [c], 0, |a|);
    assert s[..|a|] == a && s[|a| + 1..] == rest;
  }

  lemma SplitNone(a: string, c: char)
    requires forall k :: 0 <= k < |a| ==> a[k] != c
    ensures Split(a, [c]) == [a]
  {
    NoSepIndex(a, c);
  }

  lemma NoSepIndex(a: string, c: char)
    requires forall k :: 0 <= k < |a| ==> a[k] != c
    ensures Index(a, [c]) == -1
  {
    forall j | 0 <= j < |a| ensures !OccursAt(a, [c], j) {
      assert a[j..j + 1] == [a[j]];
    }
  }

  predicate NoNewline(a: string) {
    forall k :: 0 <= k < |a| ==> a[k] != '\n'
  }

  /** Splitting a piece free of newlines followed by "\n". */
  lemma SplitLine(a: string, rest: string, ps: seq<string>)
    requires NoNewline(a) && Split(rest, "\n") == ps
    ensures Split(a + "\n" + rest, "\n") == [a] + ps
  {
    SplitCons(a, '\n', rest);
  }

  lemma SplitOne(d: string)
    requires NoNewline(d)
    ensures Split(d + "\n" + "", "\n") == [d, ""]
  {
    SplitNone("", '\n');
    SplitLine(d, "", [""]);
  }

  lemma SplitFour(a: string, b: string, c: string, d: string)
    requires NoNewline(a) && NoNewline(b) && NoNewline(c) && NoNewline(d)
    ensures Split(a + "\n" + (b + "\n" + (c + "\n" + (d + "\n" + ""))), "\n") == [a, b, c, d, ""]
  {
    SplitOne(d);
    SplitLine(c, d + "\n" + "", [d, ""]);
    SplitLine(b, c + "\n" + (d + "\n" + ""), [c, d, ""]);
    SplitLine(a, b + "\n" + (c + "\n" + (d + "\n" + "")), [b, c, d, ""]);
  }

  lemma SplitExample()
    ensures Split("this is\nan\n\nexample\n", "\n") == ["this is", "an", "", "example", ""]
  {
    var a, b, c, d := "this is", "an", "", "example";
    assert NoNewline(a) && NoNewline(b) && NoNewline(c) && NoNewline(d);
    assert Split(a + "\n" + (b + "\n" + (c + "\n" + (d + "\n" + ""))), "\n") == [a, b, c, d, ""] by {
      SplitFour(a, b, c, d);
    }
    assert a + "\n" + (b + "\n" + (c + "\n" + (d + "\n" + ""))) == "this is\nan\n\nexample\n";
  }

  /** Blank lines and the trailing newline vanish from a split text. */
  lemma CleanSplitExample()
    ensures NonEmpty(GoSplit("this is\nan\n\nexample\n", "\n")) == ["this is", "an", "example"]
  {
    SplitExample();
    var ps := ["this is", "an", "", "example", ""];
    assert ps[..1] == ["this is"];
    assert NonEmpty(ps[..1]) == ["this is"];
    assert ps[..2][..1] == ps[..1];
    assert NonEmpty(ps[..2]) == ["this is", "an"];
    assert ps[..3][..2] == ps[..2];
    assert NonEmpty(ps[..3]) == ["this is", "an"];
    assert ps[..4][..3] == ps[..3];
    assert NonEmpty(ps[..4]) == ["this is", "an", "example"];
    assert ps[..4] == ps[..|ps| - 1];
  }
}
