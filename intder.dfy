/** intder.go: matching the atoms of a geometry to those of an intder
 *  input by the pattern of their coordinates, and the second line of the
 *  intder header. Floating-point parsing is a parameter; a value the
 *  parser rejects is whatever the parameter makes of it (Go ignores the
 *  error and uses 0). */
module Intder {
  import opened Text
  import opened Utils

  // ---------------------------------------------------------------------
  // Pattern

  /** One line's x, y and z, as Pattern keeps them in floats[i]. */
  datatype Coord = Coord(x: real, y: real, z: real)

  /** Column c of a coordinate row (floats[i][c]). */
  function At(p: Coord, c: nat): real {
    if c == 0 then p.x else if c == 1 then p.y else p.z
  }

  function Set(p: Coord, c: nat, v: real): (q: Coord)
    requires c < 3
    ensures forall d :: 0 <= d < 3 ==> At(q, d) == if d == c then v else At(p, d)
  {
    if c == 0 then p.(x := v) else if c == 1 then p.(y := v) else p.(z := v)
  }

  /** The parsed fields of a line in the first three columns, zeros where
   *  the line has fewer fields. */
  function RowOf(fields: seq<string>, parse: string -> real): (p: Coord)
    ensures forall c :: 0 <= c < 3 ==> At(p, c) == if c < |fields| then parse(fields[c]) else 0.0
  {
    Coord(if 0 < |fields| then parse(fields[0]) else 0.0,
          if 1 < |fields| then parse(fields[1]) else 0.0,
          if 2 < |fields| then parse(fields[2]) else 0.0)
  }

  /** The rows of the given lines. */
  function Table(lines: seq<string>, parse: string -> real): (t: seq<Coord>)
    ensures |t| == |lines| && forall r :: 0 <= r < |t| ==> t[r] == RowOf(Fields(lines[r]), parse)
    decreases |lines|
  {
    if lines == [] then [] else Table(lines[..|lines| - 1], parse) + [RowOf(Fields(lines[|lines| - 1]), parse)]
  }

  /** The number of fields of each line. */
  function Widths(lines: seq<string>): (n: seq<nat>)
    ensures |n| == |lines| && forall r :: 0 <= r < |n| ==> n[r] == |Fields(lines[r])|
    decreases |lines|
  {
    if lines == [] then [] else Widths(lines[..|lines| - 1]) + [|Fields(lines[|lines| - 1])|]
  }

  /** Rows k < hi whose column-c value is above row r's. */
  function Below(t: seq<Coord>, r: nat, c: nat, hi: nat): nat
    requires r < |t| && hi <= |t|
    decreases hi
  {
    if hi == 0 then 0
    else Below(t, r, c, hi - 1) + (if At(t[r], c) < At(t[hi - 1], c) then 1 else 0)
  }

  /** Rows lo <= k < hi that have a field c and whose column-c value is
   *  above row r's. */
  function Above(t: seq<Coord>, n: seq<nat>, r: nat, c: nat, lo: nat, hi: nat): nat
    requires |n| == |t| && r < |t| && lo <= hi <= |t|
    decreases hi - lo
  {
    if hi == lo then 0
    else Above(t, n, r, c, lo, hi - 1) + (if c < n[hi - 1] && At(t[hi - 1], c) > At(t[r], c) then 1 else 0)
  }

  /** pattern[r][c] once rows 0 .. m-1 are read: 1 if row r has a field c,
   *  plus one for each earlier row above it in that column, plus one for
   *  each later row with a field c above it. */
  function Rank(t: seq<Coord>, n: seq<nat>, m: nat, r: nat, c: nat): nat
    requires |n| == |t| && r < m <= |t|
  {
    (if c < n[r] then 1 + Below(t, r, c, r) else 0) + Above(t, n, r, c, r + 1, m)
  }

  /** What row i adds to row r's entry in column c. */
  function Up(t: seq<Coord>, n: seq<nat>, i: nat, r: nat, c: nat): nat
    requires |n| == |t| && r < |t| && i < |t|
  {
    if c < n[i] && At(t[i], c) > At(t[r], c) then 1 else 0
  }

  /** The pattern while row i is read: column j of it is being compared
   *  with rows 0 .. k-1, and pattern[i][j] is cur. */
  predicate Cells(p: seq<seq<int>>, t: seq<Coord>, n: seq<nat>, i: nat, j: nat, k: nat, cur: int)
    requires |n| == |t| && i < |t|
  {
    |p| == i + 1 && (forall r :: 0 <= r <= i ==> |p[r]| == 3)
    && (forall r, c :: 0 <= r < i && 0 <= c < 3 ==>
          p[r][c] == Rank(t, n, i, r, c) + (if c < j || (c == j && r < k) then Up(t, n, i, r, c) else 0))
    && (forall c :: 0 <= c < 3 ==>
          p[i][c] == if c < j then 1 + Below(t, i, c, i) else if c == j then cur else 0)
  }

  /** The pattern once rows 0 .. m-1 are read. */
  predicate Ranked(p: seq<seq<int>>, t: seq<Coord>, n: seq<nat>, m: nat)
    requires |n| == |t| && m <= |t|
  {
    |p| == m && forall r :: 0 <= r < m ==> |p[r]| == 3 && forall c :: 0 <= c < 3 ==> p[r][c] == Rank(t, n, m, r, c)
  }

  /** Row i starts as zeros. */
  lemma RowStart(p: seq<seq<int>>, t: seq<Coord>, n: seq<nat>, i: nat)
    requires |n| == |t| && i < |t| && Ranked(p, t, n, i)
    ensures Cells(p + [[0, 0, 0]], t, n, i, 0, 0, 0)
  {
  }

  /** Column j of row i starts at 1. */
  lemma ColumnStart(p: seq<seq<int>>, t: seq<Coord>, n: seq<nat>, i: nat, j: nat)
    requires |n| == |t| && i < |t| && j < 3 && Cells(p, t, n, i, j, 0, 0)
    ensures Cells(p[i := p[i][j := 1]], t, n, i, j, 0, 1 + Below(t, i, j, 0))
  {
  }

  /** Column j is done; column j + 1 starts. */
  lemma NextColumn(p: seq<seq<int>>, t: seq<Coord>, n: seq<nat>, i: nat, j: nat)
    requires |n| == |t| && i < |t| && Cells(p, t, n, i, j, i, 1 + Below(t, i, j, i))
    ensures Cells(p, t, n, i, j + 1, 0, 0)
  {
  }

  /** Every field of row i is done: rows 0 .. i are read. */
  lemma RowDone(p: seq<seq<int>>, t: seq<Coord>, n: seq<nat>, i: nat)
    requires |n| == |t| && i < |t| && n[i] <= 3 && Cells(p, t, n, i, n[i], 0, 0)
    ensures Ranked(p, t, n, i + 1)
  {
    forall r, c | 0 <= r <= i && 0 <= c < 3
      ensures p[r][c] == Rank(t, n, i + 1, r, c)
    {
      if r < i {
        assert Above(t, n, r, c, r + 1, i + 1) == Above(t, n, r, c, r + 1, i) + Up(t, n, i, r, c);
      }
    }
  }

  /** One comparison of row i with an earlier row k in column j: the
   *  entry of the lower of the two moves up. */
  function Compared(p: seq<seq<int>>, t: seq<Coord>, i: nat, j: nat, k: nat): seq<seq<int>>
    requires k < i < |p| <= |t| && j < |p[i]| && j < |p[k]|
  {
    if At(t[i], j) < At(t[k], j) then p[i := p[i][j := p[i][j] + 1]]
    else if At(t[i], j) > At(t[k], j) then p[k := p[k][j := p[k][j] + 1]]
    else p
  }

  lemma KStep(p: seq<seq<int>>, t: seq<Coord>, n: seq<nat>, i: nat, j: nat, k: nat)
    requires |n| == |t| && k < i < |t| && j < n[i] && j < 3
    requires Cells(p, t, n, i, j, k, 1 + Below(t, i, j, k))
    ensures Cells(Compared(p, t, i, j, k), t, n, i, j, k + 1, 1 + Below(t, i, j, k + 1))
  {
  }

  /** The rows read so far, with row i's first fields. */
  function Partial(p: Coord, j: nat): (q: Coord)
    ensures forall c :: 0 <= c < 3 ==> At(q, c) == if c < j then At(p, c) else 0.0
  {
    Coord(if 0 < j then p.x else 0.0, if 1 < j then p.y else 0.0, if 2 < j then p.z else 0.0)
  }

  /** Column j of row i against the rows k before it. */
  method CompareColumn(p: seq<seq<int>>, floats: seq<Coord>, i: nat, j: nat, f: real,
                       ghost t: seq<Coord>, ghost n: seq<nat>)
    returns (p': seq<seq<int>>)
    requires |n| == |t| && i < |t| && |floats| == i + 1 && floats[..i] == t[..i]
    requires j < n[i] && j < 3 && f == At(t[i], j)
    requires Cells(p, t, n, i, j, 0, 1 + Below(t, i, j, 0))
    ensures Cells(p', t, n, i, j, i, 1 + Below(t, i, j, i))
  {
    p' := p;
    var k := 0;
    while k < i
      invariant 0 <= k <= i
      invariant Cells(p', t, n, i, j, k, 1 + Below(t, i, j, k))
    {
      assert floats[k] == t[k];
      ghost var q := Compared(p', t, i, j, k);
      KStep(p', t, n, i, j, k);
      if f < At(floats[k], j) {
        p' := p'[i := p'[i][j := p'[i][j] + 1]];
      } else if f > At(floats[k], j) {
        p' := p'[k := p'[k][j := p'[k][j] + 1]];
      }
      assert p' == q;
      k := k + 1;
    }
  }

  /** One line of the geometry, read into row i of floats and pattern:
   *  the loops over its fields j and the rows k before it. */
  method RankRow(p: seq<seq<int>>, floats: seq<Coord>, fields: seq<string>, parse: string -> real,
                 ghost t: seq<Coord>, ghost n: seq<nat>)
    returns (p': seq<seq<int>>, floats': seq<Coord>)
    requires |n| == |t| && |floats| < |t| && floats == t[..|floats|]
    requires |fields| <= 3 && n[|floats|] == |fields| && t[|floats|] == RowOf(fields, parse)
    requires Ranked(p, t, n, |floats|)
    ensures floats' == t[..|floats| + 1] && Ranked(p', t, n, |floats| + 1)
  {
    var i := |floats|;
    p' := p + [[0, 0, 0]];
    floats' := floats + [Coord(0.0, 0.0, 0.0)];
    RowStart(p, t, n, i);
    var j := 0;
    while j < |fields|
      invariant 0 <= j <= |fields|
      invariant |floats'| == i + 1 && floats'[..i] == t[..i] && floats'[i] == Partial(t[i], j)
      invariant Cells(p', t, n, i, j, 0, 0)
    {
      var f := parse(fields[j]);
      floats' := floats'[i := Set(floats'[i], j, f)];
      assert floats'[i] == Partial(t[i], j + 1);
      ColumnStart(p', t, n, i, j);
      p' := p'[i := p'[i][j := 1]];
      p' := CompareColumn(p', floats', i, j, f, t, n);
      NextColumn(p', t, n, i, j);
      j := j + 1;
    }
    RowDone(p', t, n, i);
    assert floats'[i] == t[i];
    assert floats' == t[..i + 1];
  }

  // ---------------------------------------------------------------------
  // What the ranks mean

  /** Over rows that all have a field c, Above counts what Below counts. */
  lemma {:induction false} AboveIsBelow(t: seq<Coord>, n: seq<nat>, r: nat, c: nat, lo: nat, hi: nat)
    requires |n| == |t| && r < |t| && lo <= hi <= |t|
    requires forall k :: lo <= k < hi ==> c < n[k]
    ensures Above(t, n, r, c, lo, hi) + Below(t, r, c, lo) == Below(t, r, c, hi)
    decreases hi - lo
  {
    if hi > lo {
      AboveIsBelow(t, n, r, c, lo, hi - 1);
    }
  }

  /** When every row has all three fields, an entry is 1 plus the number
   *  of rows whose value in that column is strictly greater. */
  lemma RankCounts(t: seq<Coord>, n: seq<nat>, m: nat, r: nat, c: nat)
    requires |n| == |t| && r < m <= |t| && c < 3
    requires forall k :: 0 <= k < m ==> n[k] == 3
    ensures Rank(t, n, m, r, c) == 1 + Below(t, r, c, m)
  {
    AboveIsBelow(t, n, r, c, r + 1, m);
  }

  /** Below depends on row r only through its value in column c. */
  lemma {:induction false} BelowValue(t: seq<Coord>, r: nat, s: nat, c: nat, hi: nat)
    requires r < |t| && s < |t| && hi <= |t| && At(t[r], c) == At(t[s], c)
    ensures Below(t, r, c, hi) == Below(t, s, c, hi)
    decreases hi
  {
    if hi > 0 {
      BelowValue(t, r, s, c, hi - 1);
    }
  }

  /** A row with a greater value has fewer rows above it, and strictly
   *  fewer once the lower row itself is counted. */
  lemma {:induction false} BelowOrder(t: seq<Coord>, r: nat, s: nat, c: nat, hi: nat)
    requires r < |t| && s < |t| && hi <= |t| && At(t[r], c) < At(t[s], c)
    ensures Below(t, s, c, hi) <= Below(t, r, c, hi)
    ensures s < hi ==> Below(t, s, c, hi) < Below(t, r, c, hi)
    decreases hi
  {
    if hi > 0 {
      BelowOrder(t, r, s, c, hi - 1);
    }
  }

  /** The ranks of a full pattern: rows with equal values in a column share
   *  its entry, a greater value gets a strictly smaller entry, and the
   *  largest value gets 1. */
  lemma RankedOrder(p: seq<seq<int>>, t: seq<Coord>, n: seq<nat>, m: nat, r: nat, s: nat, c: nat)
    requires |n| == |t| && m <= |t| && Ranked(p, t, n, m) && r < m && s < m && c < 3
    requires forall k :: 0 <= k < m ==> n[k] == 3
    ensures At(t[r], c) == At(t[s], c) ==> p[r][c] == p[s][c]
    ensures At(t[r], c) < At(t[s], c) ==> p[s][c] < p[r][c]
    ensures p[r][c] >= 1 && (p[r][c] == 1 <==> forall k :: 0 <= k < m ==> At(t[k], c) <= At(t[r], c))
  {
    RankCounts(t, n, m, r, c);
    RankCounts(t, n, m, s, c);
    if At(t[r], c) == At(t[s], c) {
      BelowValue(t, r, s, c, m);
    }
    if At(t[r], c) < At(t[s], c) {
      BelowOrder(t, r, s, c, m);
    }
    if exists k :: 0 <= k < m && At(t[k], c) > At(t[r], c) {
      var k :| 0 <= k < m && At(t[k], c) > At(t[r], c);
      BelowOrder(t, r, k, c, m);
    } else {
      BelowNone(t, r, c, m);
    }
  }

  /** No row above row r: Below is 0. */
  lemma {:induction false} BelowNone(t: seq<Coord>, r: nat, c: nat, hi: nat)
    requires r < |t| && hi <= |t| && forall k :: 0 <= k < hi ==> At(t[k], c) <= At(t[r], c)
    ensures Below(t, r, c, hi) == 0
    decreases hi
  {
    if hi > 0 {
      BelowNone(t, r, c, hi - 1);
    }
  }

  // ---------------------------------------------------------------------
  // Dummy atoms

  /** Pattern's dummy atom: its coordinates and, for each, the real
   *  coordinate 3x + y it equals, or -1. */
  datatype Dummy = Dummy(coords: seq<real>, matches: seq<int>)

  /** The first position 3x + y, rows from x on in row-major order, whose
   *  coordinate equals v; -1 if there is none. */
  function FirstMatch(t: seq<Coord>, v: real, x: nat): int
    decreases |t| - x
  {
    if x >= |t| then -1
    else if t[x].x == v then 3 * x
    else if t[x].y == v then 3 * x + 1
    else if t[x].z == v then 3 * x + 2
    else FirstMatch(t, v, x + 1)
  }

  /** -1 exactly when no coordinate from row x on equals v; otherwise the
   *  position of the first that does. */
  lemma {:induction false} FirstMatchMeans(t: seq<Coord>, v: real, x: nat)
    ensures FirstMatch(t, v, x) == -1 <==> forall a, c :: x <= a < |t| && 0 <= c < 3 ==> At(t[a], c) != v
    ensures FirstMatch(t, v, x) >= 0 ==>
      var m := FirstMatch(t, v, x);
      x <= m / 3 < |t| && At(t[m / 3], m % 3) == v
      && (forall a, c :: x <= a < m / 3 && 0 <= c < 3 ==> At(t[a], c) != v)
      && (forall c :: 0 <= c < m % 3 ==> At(t[m / 3], c) != v)
    decreases |t| - x
  {
    if x < |t| {
      FirstMatchMeans(t, v, x + 1);
      var m := FirstMatch(t, v, x);
      if m >= 0 {
        if At(t[x], 0) == v || At(t[x], 1) == v || At(t[x], 2) == v {
          DivUnique(m, 3, x, m - 3 * x);
        } else {
          assert At(t[x], 0) != v && At(t[x], 1) != v && At(t[x], 2) != v;
        }
      } else {
        assert At(t[x], 0) != v && At(t[x], 1) != v && At(t[x], 2) != v;
      }
    }
  }

  /** The dummy atom of a line with the given fields: each field parsed,
   *  and the first atom coordinate equal to it. */
  function DummyOf(t: seq<Coord>, fields: seq<string>, parse: string -> real): (d: Dummy)
    ensures |d.coords| == |d.matches| == |fields|
    decreases |fields|
  {
    if fields == [] then Dummy([], [])
    else
      var d := DummyOf(t, fields[..|fields| - 1], parse);
      var v := parse(fields[|fields| - 1]);
      Dummy(d.coords + [v], d.matches + [FirstMatch(t, v, 0)])
  }

  /** Coordinate f of a dummy atom is its field f parsed; its match is
   *  FirstMatch of that value. */
  lemma {:induction false} DummyAt(t: seq<Coord>, fields: seq<string>, parse: string -> real, f: nat)
    requires f < |fields|
    ensures DummyOf(t, fields, parse).coords[f] == parse(fields[f])
    ensures DummyOf(t, fields, parse).matches[f] == FirstMatch(t, parse(fields[f]), 0)
    decreases |fields|
  {
    if f < |fields| - 1 {
      DummyAt(t, fields[..|fields| - 1], parse, f);
    }
  }

  /** The labelled loop over floats[x][y] that stops at the first equal
   *  coordinate. */
  method FindMatch(floats: seq<Coord>, v: real) returns (m: int)
    ensures m == FirstMatch(floats, v, 0)
  {
    m := -1;
    var x := 0;
    while x < |floats|
      invariant 0 <= x <= |floats|
      invariant FirstMatch(floats, v, x) == FirstMatch(floats, v, 0)
    {
      var y := 0;
      while y < 3
        invariant 0 <= y <= 3
        invariant forall c :: 0 <= c < y ==> At(floats[x], c) != v
      {
        if At(floats[x], y) == v {
          m := 3 * x + y;
          assert FirstMatch(floats, v, x) == m by {
            if y == 1 { assert At(floats[x], 0) != v; }
            if y == 2 { assert At(floats[x], 0) != v && At(floats[x], 1) != v; }
          }
          return;
        }
        y := y + 1;
      }
      assert At(floats[x], 0) != v && At(floats[x], 1) != v && At(floats[x], 2) != v;
      x := x + 1;
    }
  }

  /** The loop over a dummy line's fields. */
  method ReadDummy(floats: seq<Coord>, fields: seq<string>, parse: string -> real) returns (d: Dummy)
    ensures d == DummyOf(floats, fields, parse)
  {
    d := Dummy([], []);
    var f := 0;
    while f < |fields|
      invariant 0 <= f <= |fields|
      invariant d == DummyOf(floats, fields[..f], parse)
    {
      var v := parse(fields[f]);
      var m := FindMatch(floats, v);
      assert fields[..f + 1][..f] == fields[..f];
      d := Dummy(d.coords + [v], d.matches + [m]);
      f := f + 1;
    }
    assert fields[..f] == fields;
  }

  /** The dummy atoms of the given lines. */
  function Dummies(t: seq<Coord>, lines: seq<string>, parse: string -> real): (ds: seq<Dummy>)
    ensures |ds| == |lines|
    decreases |lines|
  {
    if lines == [] then [] else Dummies(t, lines[..|lines| - 1], parse) + [DummyOf(t, Fields(lines[|lines| - 1]), parse)]
  }

  // ---------------------------------------------------------------------
  // The whole of Pattern

  /** How many of the lines are atoms: all but the last ndummy. */
  function RealCount(n: nat, ndummy: int): (r: nat)
    ensures r <= n
  {
    if ndummy <= 0 then n else if ndummy >= n then 0 else n - ndummy
  }

  /** One more dummy line. */
  lemma DummiesSnoc(t: seq<Coord>, lines: seq<string>, k: nat, i: nat, parse: string -> real)
    requires k <= i < |lines|
    ensures Dummies(t, lines[k..i + 1], parse) == Dummies(t, lines[k..i], parse) + [DummyOf(t, Fields(lines[i]), parse)]
  {
    assert lines[k..i + 1][..i - k] == lines[k..i];
  }

  /** A dummy line read against the atoms. */
  method DummyStep(dummies: seq<Dummy>, floats: seq<Coord>, lines: seq<string>, i: nat, parse: string -> real,
                   ghost t: seq<Coord>)
    returns (dummies': seq<Dummy>)
    requires floats == t && |t| <= i < |lines| && dummies == Dummies(t, lines[|t|..i], parse)
    ensures dummies' == Dummies(t, lines[|t|..i + 1], parse)
  {
    var d := ReadDummy(floats, Fields(lines[i]), parse);
    DummiesSnoc(t, lines, |t|, i, parse);
    dummies' := dummies + [d];
  }

  /** An atom line: None when it has more than three fields, else its
   *  ranks. */
  method AtomLine(p: seq<seq<int>>, floats: seq<Coord>, lines: seq<string>, parse: string -> real,
                  ghost t: seq<Coord>, ghost n: seq<nat>)
    returns (ok: bool, p': seq<seq<int>>, floats': seq<Coord>)
    requires |floats| < |t| <= |lines| && t == Table(lines[..|t|], parse) && n == Widths(lines[..|t|])
    requires floats == t[..|floats|] && Ranked(p, t, n, |floats|)
    ensures ok <==> n[|floats|] <= 3
    ensures ok ==> |floats'| == |floats| + 1 && floats' == t[..|floats| + 1] && Ranked(p', t, n, |floats| + 1)
  {
    var fields := Fields(lines[|floats|]);
    assert lines[..|t|][|floats|] == lines[|floats|];
    if |fields| > 3 {
      return false, p, floats;
    }
    p', floats' := RankRow(p, floats, fields, parse, t, n);
    ok := true;
  }

  /** Once every line is read, every atom line had at most three fields. */
  lemma PatternEnd(lines: seq<string>, m: nat, t: seq<Coord>, n: seq<nat>)
    requires m <= |lines| && n == Widths(lines[..m])
    requires forall k :: 0 <= k < m ==> n[k] <= 3
    ensures !exists k :: 0 <= k < m && |Fields(lines[k])| > 3
  {
    assert forall k :: 0 <= k < m ==> lines[..m][k] == lines[k];
  }

  /** Pattern's loop state after i lines: the atom lines so far have at
   *  most three fields and are ranked, the dummy lines so far are read. */
  predicate Read(lines: seq<string>, m: nat, t: seq<Coord>, n: seq<nat>, parse: string -> real, i: nat,
                 p: seq<seq<int>>, floats: seq<Coord>, dummies: seq<Dummy>)
  {
    m <= |lines| && t == Table(lines[..m], parse) && n == Widths(lines[..m])
    && i <= |lines| && |floats| == (if i < m then i else m)
    && (forall k :: 0 <= k < |floats| ==> n[k] <= 3)
    && floats == t[..|floats|] && Ranked(p, t, n, |floats|)
    && dummies == Dummies(t, lines[|floats|..i], parse)
  }

  /** One line of Pattern's loop: false when an atom line has more than
   *  three fields. */
  method PatternLine(lines: seq<string>, ndummy: int, parse: string -> real, i: nat,
                     p: seq<seq<int>>, floats: seq<Coord>, dummies: seq<Dummy>,
                     ghost m: nat, ghost t: seq<Coord>, ghost n: seq<nat>)
    returns (ok: bool, p': seq<seq<int>>, floats': seq<Coord>, dummies': seq<Dummy>)
    requires i < |lines| && m == RealCount(|lines|, ndummy) && Read(lines, m, t, n, parse, i, p, floats, dummies)
    ensures ok ==> Read(lines, m, t, n, parse, i + 1, p', floats', dummies')
    ensures !ok ==> i < m && |Fields(lines[i])| > 3
  {
    if i >= |lines| - ndummy {
      assert i >= m;
      dummies' := DummyStep(dummies, floats, lines, i, parse, t);
      return true, p, floats, dummies';
    }
    ok, p', floats' := AtomLine(p, floats, lines, parse, t, n);
    if !ok {
      assert lines[..m][i] == lines[i];
      return false, p, floats, dummies;
    }
    dummies' := dummies;
    assert lines[|floats'|..i + 1] == [];
  }

  /** Pattern's loop over the lines: all but the last ndummy are atoms
   *  and give the ranks of their coordinates, the rest dummy atoms. An
   *  atom line with more than three fields indexes floats[i] out of
   *  range (None). */
  method PatternOf(lines: seq<string>, ndummy: int, parse: string -> real)
    returns (r: Option<(seq<seq<int>>, seq<Dummy>)>)
    ensures var m := RealCount(|lines|, ndummy);
      r.None? <==> exists k :: 0 <= k < m && |Fields(lines[k])| > 3
    ensures r.Some? ==>
      var m := RealCount(|lines|, ndummy); var t := Table(lines[..m], parse);
      Ranked(r.value.0, t, Widths(lines[..m]), m) && r.value.1 == Dummies(t, lines[m..], parse)
  {
    ghost var m := RealCount(|lines|, ndummy);
    ghost var t := Table(lines[..m], parse);
    ghost var n := Widths(lines[..m]);
    var ok, pattern, floats, dummies := PatternLines(lines, ndummy, parse, m, t, n);
    if !ok {
      return None;
    }
    ReadAll(lines, m, t, n, parse, pattern, floats, dummies);
    r := Some((pattern, dummies));
  }

  /** The loop itself: it reads every line, or stops at the first atom
   *  line with more than three fields. */
  method PatternLines(lines: seq<string>, ndummy: int, parse: string -> real,
                      ghost m: nat, ghost t: seq<Coord>, ghost n: seq<nat>)
    returns (ok: bool, pattern: seq<seq<int>>, floats: seq<Coord>, dummies: seq<Dummy>)
    requires m == RealCount(|lines|, ndummy) && t == Table(lines[..m], parse) && n == Widths(lines[..m])
    ensures ok ==> Read(lines, m, t, n, parse, |lines|, pattern, floats, dummies)
    ensures !ok ==> exists k :: 0 <= k < m && |Fields(lines[k])| > 3
  {
    pattern, floats, dummies := [], [], [];
    var i := 0;
    ReadNone(lines, m, t, n, parse);
    while i < |lines|
      invariant i <= |lines| && Read(lines, m, t, n, parse, i, pattern, floats, dummies)
    {
      ok, pattern, floats, dummies := PatternLine(lines, ndummy, parse, i, pattern, floats, dummies, m, t, n);
      if !ok {
        assert 0 <= i < m && |Fields(lines[i])| > 3;
        return;
      }
      i := i + 1;
    }
    ok := true;
  }

  /** Pattern's loop state before the first line. */
  lemma ReadNone(lines: seq<string>, m: nat, t: seq<Coord>, n: seq<nat>, parse: string -> real)
    requires m <= |lines| && t == Table(lines[..m], parse) && n == Widths(lines[..m])
    ensures Read(lines, m, t, n, parse, 0, [], [], [])
  {
    assert lines[0..0] == [];
  }

  /** Pattern's loop state after the last line gives its result. */
  lemma ReadAll(lines: seq<string>, m: nat, t: seq<Coord>, n: seq<nat>, parse: string -> real,
                p: seq<seq<int>>, floats: seq<Coord>, dummies: seq<Dummy>)
    requires Read(lines, m, t, n, parse, |lines|, p, floats, dummies)
    ensures !exists k :: 0 <= k < m && |Fields(lines[k])| > 3
    ensures Ranked(p, t, n, m) && dummies == Dummies(t, lines[m..], parse)
  {
    PatternEnd(lines, m, t, n);
    assert |floats| == m && lines[m..|lines|] == lines[m..];
  }

  /** Pattern: PatternOf over the non-empty lines of geom. A negative
   *  ndummy is a negative capacity for the dummies slice (None). */
  method Pattern(geom: string, ndummy: int, parse: string -> real)
    returns (r: Option<(seq<seq<int>>, seq<Dummy>)>)
    ensures var lines := NonEmpty(GoSplit(geom, "\n")); var m := RealCount(|lines|, ndummy);
      r.None? <==> ndummy < 0 || exists k :: 0 <= k < m && |Fields(lines[k])| > 3
    ensures r.Some? ==>
      var lines := NonEmpty(GoSplit(geom, "\n")); var m := RealCount(|lines|, ndummy);
      var t := Table(lines[..m], parse);
      Ranked(r.value.0, t, Widths(lines[..m]), m) && r.value.1 == Dummies(t, lines[m..], parse)
  {
    if ndummy < 0 {
      return None;
    }
    var lines := CleanSplit(geom, "\n");
    r := PatternOf(lines, ndummy, parse);
  }

  // ---------------------------------------------------------------------
  // Swap

  /** Every row has columns i and j. */
  predicate Fits(rows: seq<seq<int>>, i: int, j: int) {
    forall x :: 0 <= x < |rows| ==> 0 <= i < |rows[x]| && 0 <= j < |rows[x]|
  }

  /** A row with columns i and j exchanged. */
  function SwapRow(row: seq<int>, i: int, j: int): seq<int>
    requires 0 <= i < |row| && 0 <= j < |row|
  {
    row[i := row[j]][j := row[i]]
  }

  /** The rows with columns i and j exchanged: column c of the result is
   *  column i when c is j, column j when c is i, else column c. */
  function SwapCols(rows: seq<seq<int>>, i: int, j: int): (r: seq<seq<int>>)
    requires Fits(rows, i, j)
    ensures |r| == |rows|
    decreases |rows|
  {
    if rows == [] then [] else SwapCols(rows[..|rows| - 1], i, j) + [SwapRow(rows[|rows| - 1], i, j)]
  }

  /** Swapping twice gives the rows back. */
  lemma SwapColsTwice(rows: seq<seq<int>>, i: int, j: int)
    requires Fits(rows, i, j)
    ensures Fits(SwapCols(rows, i, j), i, j) && SwapCols(SwapCols(rows, i, j), i, j) == rows
  {
    var a := SwapCols(rows, i, j);
    SwapColsRows(rows, i, j);
    assert Fits(a, i, j);
    SwapColsRows(a, i, j);
    var r := SwapCols(a, i, j);
    forall x | 0 <= x < |rows| ensures r[x] == rows[x] {
      assert |r[x]| == |rows[x]|;
    }
  }

  /** The order of the two columns does not matter. */
  lemma SwapColsSymmetric(rows: seq<seq<int>>, i: int, j: int)
    requires Fits(rows, i, j)
    ensures Fits(rows, j, i) && SwapCols(rows, i, j) == SwapCols(rows, j, i)
  {
    assert Fits(rows, j, i) by {
      forall x | 0 <= x < |rows| ensures 0 <= j < |rows[x]| && 0 <= i < |rows[x]| {
        assert 0 <= i < |rows[x]| && 0 <= j < |rows[x]|;
      }
    }
    SwapColsRows(rows, i, j);
    SwapColsRows(rows, j, i);
    var a, b := SwapCols(rows, i, j), SwapCols(rows, j, i);
    forall x | 0 <= x < |rows| ensures a[x] == b[x] {
      assert |a[x]| == |b[x]|;
    }
  }

  /** Row x of the result is row x swapped: column c is column i when c
   *  is j, column j when c is i, else column c. */
  lemma {:induction false} SwapColsRows(rows: seq<seq<int>>, i: int, j: int)
    requires Fits(rows, i, j)
    ensures forall x :: 0 <= x < |rows| ==> SwapCols(rows, i, j)[x] == SwapRow(rows[x], i, j)
    ensures forall x, c :: 0 <= x < |rows| && 0 <= c < |rows[x]| ==>
      |SwapCols(rows, i, j)[x]| == |rows[x]|
      && SwapCols(rows, i, j)[x][c] == rows[x][if c == i then j else if c == j then i else c]
    decreases |rows|
  {
    if rows != [] {
      var init := rows[..|rows| - 1];
      assert forall x :: 0 <= x < |init| ==> init[x] == rows[x];
      SwapColsRows(init, i, j);
    }
  }

  /** Swap: columns i and j of every row exchanged in place; a row
   *  without one of them panics (false), part way through. */
  method Swap(src: array<seq<int>>, i: int, j: int) returns (ok: bool)
    modifies src
    ensures ok <==> Fits(old(src[..]), i, j)
    ensures ok ==> src[..] == SwapCols(old(src[..]), i, j)
  {
    ghost var rows := src[..];
    var x := 0;
    while x < src.Length
      invariant 0 <= x <= src.Length
      invariant forall y :: 0 <= y < x ==> 0 <= i < |rows[y]| && 0 <= j < |rows[y]| && src[y] == SwapRow(rows[y], i, j)
      invariant forall y :: x <= y < src.Length ==> src[y] == rows[y]
    {
      var row := src[x];
      if !(0 <= i < |row| && 0 <= j < |row|) {
        return false;
      }
      src[x] := SwapRow(row, i, j);
      x := x + 1;
    }
    assert x == src.Length == |rows|;
    assert Fits(rows, i, j);
    SwapColsRows(rows, i, j);
    assert forall y :: 0 <= y < src.Length ==> src[..][y] == SwapCols(rows, i, j)[y];
    return true;
  }

  // ---------------------------------------------------------------------
  // CheckPattern and ApplyPattern

  /** The indices j of src, in increasing order, whose row equals row. */
  function Hits(row: seq<int>, src: seq<seq<int>>): (h: seq<int>)
    ensures forall k :: 0 <= k < |h| ==> 0 <= h[k] < |src| && src[h[k]] == row
    decreases |src|
  {
    if src == [] then []
    else Hits(row, src[..|src| - 1]) + (if src[|src| - 1] == row then [|src| - 1] else [])
  }

  /** Every index whose row equals row is a hit, and the hits increase. */
  lemma {:induction false} HitsComplete(row: seq<int>, src: seq<seq<int>>)
    ensures forall j :: 0 <= j < |src| && src[j] == row ==> j in Hits(row, src)
    ensures forall k, l :: 0 <= k < l < |Hits(row, src)| ==> Hits(row, src)[k] < Hits(row, src)[l]
    decreases |src|
  {
    if src != [] {
      var init := src[..|src| - 1];
      HitsComplete(row, init);
      forall j | 0 <= j < |init| && init[j] == row ensures j in Hits(row, src) {
        assert src[j] == init[j];
      }
    }
  }

  /** CheckPattern's result: for each dst row in turn, its hits in src. */
  function Order(dst: seq<seq<int>>, src: seq<seq<int>>): (o: seq<int>)
    decreases |dst|
  {
    if dst == [] then [] else Order(dst[..|dst| - 1], src) + Hits(dst[|dst| - 1], src)
  }

  /** Every entry of the order is a src row that equals some dst row. */
  lemma {:induction false} OrderSound(dst: seq<seq<int>>, src: seq<seq<int>>)
    ensures forall k :: 0 <= k < |Order(dst, src)| ==>
      0 <= Order(dst, src)[k] < |src| && exists i :: 0 <= i < |dst| && src[Order(dst, src)[k]] == dst[i]
    decreases |dst|
  {
    if dst != [] {
      var init := dst[..|dst| - 1];
      OrderSound(init, src);
      var o, h := Order(init, src), Hits(dst[|dst| - 1], src);
      forall k | 0 <= k < |o + h|
        ensures 0 <= (o + h)[k] < |src| && exists i :: 0 <= i < |dst| && src[(o + h)[k]] == dst[i]
      {
        if k < |o| {
          var i :| 0 <= i < |init| && src[o[k]] == init[i];
          assert src[(o + h)[k]] == dst[i];
        } else {
          assert src[(o + h)[k]] == dst[|dst| - 1];
        }
      }
    }
  }

  /** Exactly one row of src equals row. */
  predicate Unique(row: seq<int>, src: seq<seq<int>>) {
    exists j :: 0 <= j < |src| && src[j] == row && forall k :: 0 <= k < |src| && src[k] == row ==> k == j
  }

  /** The hits among the first n rows, when only row j equals row. */
  lemma {:induction false} HitsPrefix(row: seq<int>, src: seq<seq<int>>, j: nat, n: nat)
    requires j < |src| && src[j] == row && n <= |src|
    requires forall k :: 0 <= k < |src| && src[k] == row ==> k == j
    ensures Hits(row, src[..n]) == if n > j then [j] else []
    decreases n
  {
    if n > 0 {
      HitsPrefix(row, src, j, n - 1);
      assert src[..n][..n - 1] == src[..n - 1];
    }
  }

  lemma HitsUnique(row: seq<int>, src: seq<seq<int>>) returns (j: nat)
    requires Unique(row, src)
    ensures j < |src| && src[j] == row && Hits(row, src) == [j]
  {
    j :| 0 <= j < |src| && src[j] == row && forall k :: 0 <= k < |src| && src[k] == row ==> k == j;
    HitsPrefix(row, src, j, |src|);
    assert src[..|src|] == src;
  }

  /** When each dst row equals exactly one src row, the order has one
   *  entry per dst row, and entry i is where dst's row i is in src. */
  lemma {:induction false} OrderUnique(dst: seq<seq<int>>, src: seq<seq<int>>)
    requires forall i :: 0 <= i < |dst| ==> Unique(dst[i], src)
    ensures |Order(dst, src)| == |dst|
    ensures forall i :: 0 <= i < |dst| ==> 0 <= Order(dst, src)[i] < |src| && src[Order(dst, src)[i]] == dst[i]
    decreases |dst|
  {
    if dst != [] {
      var n := |dst| - 1;
      var init := dst[..n];
      assert forall i :: 0 <= i < |init| ==> Unique(init[i], src) by {
        forall i | 0 <= i < |init| ensures Unique(init[i], src) {
          assert init[i] == dst[i];
        }
      }
      OrderUnique(init, src);
      var j := HitsUnique(dst[n], src);
      OrderStep(dst, src, j);
    }
  }

  /** One more dst row whose only hit is j. */
  lemma OrderStep(dst: seq<seq<int>>, src: seq<seq<int>>, j: nat)
    requires dst != [] && j < |src| && src[j] == dst[|dst| - 1] && Hits(dst[|dst| - 1], src) == [j]
    requires var init := dst[..|dst| - 1];
      |Order(init, src)| == |init| &&
      forall i :: 0 <= i < |init| ==> 0 <= Order(init, src)[i] < |src| && src[Order(init, src)[i]] == init[i]
    ensures |Order(dst, src)| == |dst|
    ensures forall i :: 0 <= i < |dst| ==> 0 <= Order(dst, src)[i] < |src| && src[Order(dst, src)[i]] == dst[i]
  {
    var n := |dst| - 1;
    var init := dst[..n];
    var o := Order(init, src) + [j];
    assert Order(dst, src) == o;
    forall i | 0 <= i < |dst| ensures 0 <= o[i] < |src| && src[o[i]] == dst[i] {
      if i < n {
        assert o[i] == Order(init, src)[i] && init[i] == dst[i];
      }
    }
  }

  /** CheckPattern: the outer loop over dst rows. */
  method CheckPattern(dst: seq<seq<int>>, src: seq<seq<int>>) returns (order: seq<int>)
    ensures order == Order(dst, src)
  {
    order := [];
    var i := 0;
    while i < |dst|
      invariant 0 <= i <= |dst| && order == Order(dst[..i], src)
    {
      order := AppendHits(order, dst[i], src);
      assert dst[..i + 1][..i] == dst[..i];
      i := i + 1;
    }
    assert dst[..i] == dst;
  }

  /** CheckPattern's inner loop over src rows, appending each match. */
  method AppendHits(before: seq<int>, row: seq<int>, src: seq<seq<int>>) returns (order: seq<int>)
    ensures order == before + Hits(row, src)
  {
    order := before;
    var j := 0;
    while j < |src|
      invariant 0 <= j <= |src| && order == before + Hits(row, src[..j])
    {
      assert src[..j + 1][..j] == src[..j];
      if row == src[j] {
        order := order + [j];
      }
      j := j + 1;
    }
    assert src[..j] == src;
  }

  /** ApplyPattern's result: the entries of lines at ord's indices; an
   *  index out of range panics (None). */
  function Applied<T>(ord: seq<int>, lines: seq<T>): (r: Option<seq<T>>)
    ensures r.Some? <==> forall k :: 0 <= k < |ord| ==> 0 <= ord[k] < |lines|
    ensures r.Some? ==> |r.value| == |ord| && forall k :: 0 <= k < |ord| ==> r.value[k] == lines[ord[k]]
    decreases |ord|
  {
    if ord == [] then Some([])
    else
      var last := ord[|ord| - 1];
      match Applied(ord[..|ord| - 1], lines)
      case None => None
      case Some(init) => if 0 <= last < |lines| then Some(init + [lines[last]]) else None
  }

  /** ApplyPattern: the loop appending lines[ord[i]]. */
  method ApplyPattern(ord: seq<int>, lines: seq<string>) returns (r: Option<seq<string>>)
    ensures r == Applied(ord, lines)
  {
    var ordered: seq<string> := [];
    var i := 0;
    while i < |ord|
      invariant 0 <= i <= |ord| && Applied(ord[..i], lines) == Some(ordered)
    {
      assert ord[..i + 1][..i] == ord[..i];
      if !(0 <= ord[i] < |lines|) {
        assert Applied(ord[..i + 1], lines) == None;
        AppliedNone(ord, lines, i);
        return None;
      }
      ordered := ordered + [lines[ord[i]]];
      i := i + 1;
    }
    assert ord[..i] == ord;
    return Some(ordered);
  }

  lemma AppliedNone<T>(ord: seq<int>, lines: seq<T>, i: nat)
    requires i < |ord| && !(0 <= ord[i] < |lines|)
    ensures Applied(ord, lines) == None
  {
  }

  /** Ordering the src rows by the order of a dst whose rows each occur
   *  exactly once in src gives dst back. */
  lemma AppliedOrder(dst: seq<seq<int>>, src: seq<seq<int>>)
    requires forall i :: 0 <= i < |dst| ==> Unique(dst[i], src)
    ensures Applied(Order(dst, src), src) == Some(dst)
  {
    OrderUnique(dst, src);
    var r := Applied(Order(dst, src), src);
    assert r.Some?;
    assert r.value == dst;
  }

  // ---------------------------------------------------------------------
  // MatchPattern

  /** The columns MatchPattern exchanges at stage s >= 1: 1 and 2 at odd
   *  stages, 0 and 1 at even ones. */
  function Stage(s: nat): seq<int> {
    if s % 2 == 0 then [0, 1] else [1, 2]
  }

  /** The swaps made up to stage s. */
  function Swaps(s: nat): (w: seq<seq<int>>)
    ensures |w| == s && forall k :: 0 <= k < s ==> w[k] == Stage(k + 1)
  {
    if s == 0 then [] else Swaps(s - 1) + [Stage(s)]
  }

  /** The src rows after the swaps of stages 1 .. s; None when a row is
   *  too short for one of them. */
  function Arranged(rows: seq<seq<int>>, s: nat): Option<seq<seq<int>>> {
    if s == 0 then Some(rows)
    else match Arranged(rows, s - 1)
      case None => None
      case Some(a) => if Fits(a, Stage(s)[0], Stage(s)[1]) then Some(SwapCols(a, Stage(s)[0], Stage(s)[1])) else None
  }

  /** What MatchPattern returns; Panicked where Swap indexes out of range. */
  datatype Match = Matched(swaps: seq<seq<int>>, order: seq<int>) | Unmatched | Panicked

  /** Stages s .. 5: the first arrangement whose order has one entry per
   *  dst row. */
  function MatchFrom(dst: seq<seq<int>>, rows: seq<seq<int>>, s: nat): Match
    decreases 6 - s
  {
    if s >= 6 then Unmatched
    else match Arranged(rows, s)
      case None => Panicked
      case Some(a) =>
        var o := Order(dst, a);
        if |o| == |dst| then Matched(Swaps(s), o) else MatchFrom(dst, rows, s + 1)
  }

  /** MatchPattern: up to six stages, each swap made in place on src. */
  method MatchPattern(dst: seq<seq<int>>, src: array<seq<int>>) returns (r: Match)
    modifies src
    ensures r == MatchFrom(dst, old(src[..]), 0)
    ensures r.Matched? ==> Arranged(old(src[..]), |r.swaps|) == Some(src[..])
    ensures r.Unmatched? ==> Arranged(old(src[..]), 5) == Some(src[..])
  {
    ghost var rows := src[..];
    var swaps: seq<seq<int>> := [];
    var s := 0;
    while s < 6
      invariant 0 <= s <= 6 && MatchFrom(dst, rows, s) == MatchFrom(dst, rows, 0)
      invariant var d := if s == 0 then 0 else s - 1;
        Arranged(rows, d) == Some(src[..]) && swaps == Swaps(d)
    {
      var order;
      if s == 0 {
        order := CheckPattern(dst, src[..]);
      } else {
        ghost var a := src[..];
        var st := if s % 2 == 0 then [0, 1] else [1, 2];
        assert st == Stage(s) && Arranged(rows, s - 1) == Some(a);
        var ok := Swap(src, st[0], st[1]);
        if !ok {
          assert Arranged(rows, s) == None;
          return Panicked;
        }
        assert Arranged(rows, s) == Some(src[..]);
        order := CheckPattern(dst, src[..]);
        swaps := swaps + [st];
      }
      assert Arranged(rows, s) == Some(src[..]) && swaps == Swaps(s);
      if |order| == |dst| {
        return Matched(swaps, order);
      }
      assert MatchFrom(dst, rows, s) == MatchFrom(dst, rows, s + 1);
      s := s + 1;
    }
    return Unmatched;
  }

  /** Stage u's arrangement exists and its order falls short. */
  predicate Passed(dst: seq<seq<int>>, rows: seq<seq<int>>, u: nat) {
    match Arranged(rows, u)
    case None => false
    case Some(a) => |Order(dst, a)| != |dst|
  }

  /** A match is the order of the first arrangement, from stage s on,
   *  with one entry per dst row: stage t. */
  lemma {:induction false} MatchFromMeans(dst: seq<seq<int>>, rows: seq<seq<int>>, s: nat) returns (t: nat)
    requires s <= 6 && MatchFrom(dst, rows, s).Matched?
    ensures s <= t < 6 && Arranged(rows, t).Some?
    ensures MatchFrom(dst, rows, s) == Matched(Swaps(t), Order(dst, Arranged(rows, t).value))
    ensures |Order(dst, Arranged(rows, t).value)| == |dst|
    ensures forall u :: s <= u < t ==> Passed(dst, rows, u)
    decreases 6 - s
  {
    MatchFromStage(dst, rows, s);
    if |Order(dst, Arranged(rows, s).value)| != |dst| {
      t := MatchFromMeans(dst, rows, s + 1);
      PassedFrom(dst, rows, s, t);
    } else {
      t := s;
    }
  }

  /** Stage s of a match exists; it is the match when its order has one
   *  entry per dst row, and otherwise the match comes from stage s + 1. */
  lemma MatchFromStage(dst: seq<seq<int>>, rows: seq<seq<int>>, s: nat)
    requires s <= 6 && MatchFrom(dst, rows, s).Matched?
    ensures s < 6 && Arranged(rows, s).Some?
    ensures var o := Order(dst, Arranged(rows, s).value);
      if |o| == |dst| then MatchFrom(dst, rows, s) == Matched(Swaps(s), o)
      else MatchFrom(dst, rows, s) == MatchFrom(dst, rows, s + 1)
  {
  }

  /** A stage that falls short, followed by stages that fall short. */
  lemma PassedFrom(dst: seq<seq<int>>, rows: seq<seq<int>>, s: nat, t: nat)
    requires s < 6 && Arranged(rows, s).Some? && |Order(dst, Arranged(rows, s).value)| != |dst|
    requires forall u :: s + 1 <= u < t ==> Passed(dst, rows, u)
    ensures forall u :: s <= u < t ==> Passed(dst, rows, u)
  {
    assert Passed(dst, rows, s);
    forall u | s <= u < t ensures Passed(dst, rows, u) {
      if u > s {
        assert s + 1 <= u;
      }
    }
  }

  // ---------------------------------------------------------------------
  // SwapStr

  /** Three strings formatted into one, as fmt.Sprintf with a format of
   *  three verbs. */
  type Format3 = (string, string, string) -> string

  /** A field list with entries x and y exchanged. */
  function SwapFields(f: seq<string>, x: int, y: int): seq<string>
    requires 0 <= x < |f| && 0 <= y < |f|
  {
    f[x := f[y]][y := f[x]]
  }

  /** One string of SwapStr: its fields with x and y exchanged, the first
   *  three written with format; None where Go indexes out of range. */
  function SwapLine(line: string, x: int, y: int, format: Format3): Option<string> {
    var f := Fields(line);
    if 0 <= x < |f| && 0 <= y < |f| && 3 <= |f| then
      var g := SwapFields(f, x, y);
      Some(format(g[0], g[1], g[2]))
    else None
  }

  /** One pass of SwapStr's inner loop over every string. */
  function SwapLines(lines: seq<string>, x: int, y: int, format: Format3): (r: Option<seq<string>>)
    ensures r.Some? ==> |r.value| == |lines|
    decreases |lines|
  {
    if lines == [] then Some([])
    else match SwapLines(lines[..|lines| - 1], x, y, format)
      case None => None
      case Some(init) =>
        match SwapLine(lines[|lines| - 1], x, y, format)
        case None => None
        case Some(l) => Some(init + [l])
  }

  /** SwapStr's result: one pass per swap pair, in order; None where a pair
   *  has fewer than two entries or a string panics. */
  function SwapStrs(swaps: seq<seq<int>>, lines: seq<string>, format: Format3): Option<seq<string>>
    decreases |swaps|
  {
    if swaps == [] then Some(lines)
    else match SwapStrs(swaps[..|swaps| - 1], lines, format)
      case None => None
      case Some(cur) =>
        var sw := swaps[|swaps| - 1];
        if |sw| < 2 then None else SwapLines(cur, sw[0], sw[1], format)
  }

  /** A string that panics makes the whole pass panic. */
  lemma {:induction false} SwapLinesNone(lines: seq<string>, x: int, y: int, format: Format3, s: nat, n: nat)
    requires s < n <= |lines| && SwapLine(lines[s], x, y, format).None?
    ensures SwapLines(lines[..n], x, y, format).None?
    decreases n
  {
    assert lines[..n][..n - 1] == lines[..n - 1];
    if s < n - 1 {
      SwapLinesNone(lines, x, y, format, s, n - 1);
    }
  }

  /** A pass that panics makes SwapStr panic. */
  lemma {:induction false} SwapStrsNone(swaps: seq<seq<int>>, lines: seq<string>, format: Format3, i: nat, n: nat)
    requires i <= n <= |swaps| && SwapStrs(swaps[..i], lines, format).None?
    ensures SwapStrs(swaps[..n], lines, format).None?
    decreases n
  {
    if i < n {
      SwapStrsNone(swaps, lines, format, i, n - 1);
      assert swaps[..n][..n - 1] == swaps[..n - 1];
    }
  }

  /** SwapStr's inner loop: every string rewritten in place with fields
   *  x and y exchanged; false where Go panics, part way through. */
  method SwapPass(strs: array<string>, x: int, y: int, format: Format3) returns (ok: bool)
    modifies strs
    ensures ok <==> SwapLines(old(strs[..]), x, y, format).Some?
    ensures ok ==> strs[..] == SwapLines(old(strs[..]), x, y, format).value
  {
    ghost var cur := strs[..];
    var s := 0;
    while s < strs.Length
      invariant 0 <= s <= strs.Length
      invariant SwapLines(cur[..s], x, y, format) == Some(strs[..s])
      invariant strs[s..] == cur[s..]
    {
      assert cur[s] == strs[s];
      var fields := Fields(strs[s]);
      if !(0 <= x < |fields| && 0 <= y < |fields| && 3 <= |fields|) {
        SwapLinesNone(cur, x, y, format, s, |cur|);
        assert cur[..|cur|] == cur;
        return false;
      }
      var g := SwapFields(fields, x, y);
      strs[s] := format(g[0], g[1], g[2]);
      SwapLinesStep(cur, s, x, y, format);
      assert strs[..s + 1] == strs[..s] + [strs[s]];
      s := s + 1;
    }
    assert cur[..s] == cur && strs[..s] == strs[..];
    return true;
  }

  /** One more string in a pass. */
  lemma SwapLinesStep(lines: seq<string>, s: nat, x: int, y: int, format: Format3)
    requires s < |lines|
    ensures SwapLines(lines[..s + 1], x, y, format) ==
      match SwapLines(lines[..s], x, y, format)
      case None => None
      case Some(init) =>
        match SwapLine(lines[s], x, y, format)
        case None => None
        case Some(l) => Some(init + [l])
  {
    assert lines[..s + 1][..s] == lines[..s];
  }

  /** One more swap pair in SwapStr. */
  lemma SwapStrsStep(swaps: seq<seq<int>>, lines: seq<string>, format: Format3, i: nat)
    requires i < |swaps|
    ensures SwapStrs(swaps[..i + 1], lines, format) ==
      match SwapStrs(swaps[..i], lines, format)
      case None => None
      case Some(cur) => if |swaps[i]| < 2 then None else SwapLines(cur, swaps[i][0], swaps[i][1], format)
  {
    assert swaps[..i + 1][..i] == swaps[..i];
  }

  /** SwapStr: for each swap pair, every string of strs rewritten in
   *  place; false where Go panics, part way through. */
  method SwapStr(swaps: seq<seq<int>>, strs: array<string>, format: Format3) returns (ok: bool)
    modifies strs
    ensures ok <==> SwapStrs(swaps, old(strs[..]), format).Some?
    ensures ok ==> strs[..] == SwapStrs(swaps, old(strs[..]), format).value
  {
    ghost var start := strs[..];
    var i := 0;
    while i < |swaps|
      invariant 0 <= i <= |swaps| && SwapStrs(swaps[..i], start, format) == Some(strs[..])
    {
      SwapStrsStep(swaps, start, format, i);
      if |swaps[i]| < 2 {
        SwapStrsNone(swaps, start, format, i + 1, |swaps|);
        assert swaps[..|swaps|] == swaps;
        return false;
      }
      var ok := SwapPass(strs, swaps[i][0], swaps[i][1], format);
      if !ok {
        SwapStrsNone(swaps, start, format, i + 1, |swaps|);
        assert swaps[..|swaps|] == swaps;
        return false;
      }
      i := i + 1;
    }
    assert swaps[..i] == swaps;
    return true;
  }

  /** The fields after each swap pair in turn. */
  function Permuted(f: seq<string>, swaps: seq<seq<int>>): (g: seq<string>)
    requires |f| == 3 && forall i :: 0 <= i < |swaps| ==> |swaps[i]| >= 2 && 0 <= swaps[i][0] < 3 && 0 <= swaps[i][1] < 3
    ensures |g| == 3
    decreases |swaps|
  {
    if swaps == [] then f
    else
      var sw := swaps[|swaps| - 1];
      SwapFields(Permuted(f, swaps[..|swaps| - 1]), sw[0], sw[1])
  }

  /** A format that writes its three words so that they read back as the
   *  fields of the result. */
  ghost predicate Keeps(format: Format3) {
    forall a, b, c :: Word(a) && Word(b) && Word(c) ==> Fields(format(a, b, c)) == [a, b, c]
  }

  /** One pass over strings of three fields each: no string panics, and
   *  each is its fields with x and y exchanged, written with format. */
  lemma {:induction false} SwapLinesFields(lines: seq<string>, x: int, y: int, format: Format3)
    requires 0 <= x < 3 && 0 <= y < 3
    requires forall k :: 0 <= k < |lines| ==> |Fields(lines[k])| == 3
    ensures SwapLines(lines, x, y, format).Some?
    ensures forall k :: 0 <= k < |lines| ==>
      var g := SwapFields(Fields(lines[k]), x, y);
      SwapLines(lines, x, y, format).value[k] == format(g[0], g[1], g[2])
    decreases |lines|
  {
    if lines != [] {
      var n := |lines| - 1;
      var front := lines[..n];
      assert forall k :: 0 <= k < n ==> front[k] == lines[k];
      SwapLinesFields(front, x, y, format);
      var init := SwapLines(front, x, y, format).value;
      var g := SwapFields(Fields(lines[n]), x, y);
      var out := init + [format(g[0], g[1], g[2])];
      assert SwapLines(lines, x, y, format) == Some(out);
      forall k | 0 <= k < |lines|
        ensures var g := SwapFields(Fields(lines[k]), x, y); out[k] == format(g[0], g[1], g[2])
      {
        if k < n {
          assert out[k] == init[k] && front[k] == lines[k];
        }
      }
    }
  }

  /** A string of three fields with x and y exchanged, written with a
   *  format that keeps its words, reads back as the exchanged fields. */
  lemma KeepsSwap(line: string, x: int, y: int, format: Format3)
    requires Keeps(format) && 0 <= x < 3 && 0 <= y < 3 && |Fields(line)| == 3
    ensures var g := SwapFields(Fields(line), x, y); Fields(format(g[0], g[1], g[2])) == g
  {
    var g := SwapFields(Fields(line), x, y);
    assert Word(g[0]) && Word(g[1]) && Word(g[2]);
    assert [g[0], g[1], g[2]] == g;
  }

  /** SwapStr over strings of three fields each, with swap pairs inside
   *  the three columns and a format that keeps its words: it does not
   *  panic, and each string's fields are its old ones with every pair
   *  exchanged in turn. */
  lemma {:induction false} SwapStrsFields(swaps: seq<seq<int>>, lines: seq<string>, format: Format3)
    requires Keeps(format)
    requires forall i :: 0 <= i < |swaps| ==> |swaps[i]| >= 2 && 0 <= swaps[i][0] < 3 && 0 <= swaps[i][1] < 3
    requires forall k :: 0 <= k < |lines| ==> |Fields(lines[k])| == 3
    ensures SwapStrs(swaps, lines, format).Some? && |SwapStrs(swaps, lines, format).value| == |lines|
    ensures forall k :: 0 <= k < |lines| ==>
      Fields(SwapStrs(swaps, lines, format).value[k]) == Permuted(Fields(lines[k]), swaps)
    ensures swaps != [] ==> forall k :: 0 <= k < |lines| ==>
      var g := Permuted(Fields(lines[k]), swaps);
      SwapStrs(swaps, lines, format).value[k] == format(g[0], g[1], g[2])
    decreases |swaps|
  {
    if swaps != [] {
      var n := |swaps| - 1;
      var sw := swaps[n];
      SwapStrsFields(swaps[..n], lines, format);
      var cur := SwapStrs(swaps[..n], lines, format).value;
      SwapLinesFields(cur, sw[0], sw[1], format);
      var out := SwapLines(cur, sw[0], sw[1], format).value;
      assert SwapStrs(swaps, lines, format) == Some(out);
      forall k | 0 <= k < |lines|
        ensures var g := Permuted(Fields(lines[k]), swaps);
          out[k] == format(g[0], g[1], g[2]) && Fields(out[k]) == g
      {
        KeepsSwap(cur[k], sw[0], sw[1], format);
      }
    }
  }

  /** The format "%s %s %s". */
  function Spaced(a: string, b: string, c: string): string {
    a + (" " + (b + (" " + c)))
  }

  /** A space and a word-led string read back as the word and the
   *  string's remaining fields. */
  lemma SpaceWord(w: string, rest: string)
    requires Word(w) && (rest == [] || IsSpace(rest[0]))
    ensures Fields(" " + (w + rest)) == [w] + Fields(rest)
  {
    assert Blank(" ");
    FieldsAfterBlank(" ", w + rest);
    WordFirst(w, rest);
  }

  /** Three words joined by single spaces read back as themselves. */
  lemma SpacedFields(a: string, b: string, c: string)
    requires Word(a) && Word(b) && Word(c)
    ensures Fields(Spaced(a, b, c)) == [a, b, c]
  {
    SpaceWord(c, "");
    assert c + "" == c;
    var mid := " " + (b + (" " + c));
    SpaceWord(b, " " + c);
    WordFirst(a, mid);
  }

  lemma SpacedKeeps()
    ensures Keeps(Spaced)
  {
    forall a, b, c | Word(a) && Word(b) && Word(c) ensures Fields(Spaced(a, b, c)) == [a, b, c] {
      SpacedFields(a, b, c);
    }
  }

  /** The swaps (0, 1) then (1, 2) rotate three fields left. */
  lemma RotateLeft(swaps: seq<seq<int>>, f: seq<string>)
    requires swaps == [[0, 1], [1, 2]] && |f| == 3
    ensures Permuted(f, swaps) == [f[1], f[2], f[0]]
  {
    var s1 := swaps[..1];
    assert s1 == [[0, 1]] && s1[..0] == [];
    assert Permuted(f, s1[..0]) == f;
    var p1 := Permuted(f, s1);
    assert p1 == SwapFields(f, 0, 1);
    assert p1[0] == f[1] && p1[1] == f[0] && p1[2] == f[2];
    var p2 := SwapFields(p1, 1, 2);
    assert p2[0] == f[1] && p2[1] == f[2] && p2[2] == f[0];
    assert p2 == [f[1], f[2], f[0]];
    assert |swaps| - 1 == 1 && swaps[1] == [1, 2] && swaps[..1] == s1;
  }

  /** One line of three words under the swaps (0, 1) then (1, 2). */
  lemma RotatedLine(swaps: seq<seq<int>>, line: string, a: string, b: string, c: string)
    requires swaps == [[0, 1], [1, 2]] && Word(a) && Word(b) && Word(c) && line == Spaced(a, b, c)
    ensures |Fields(line)| == 3 && Permuted(Fields(line), swaps) == [b, c, a]
  {
    SpacedFields(a, b, c);
    RotateLeft(swaps, Fields(line));
  }

  /** Lines of three words each under the swaps (0, 1) then (1, 2): each
   *  line is rotated left by one word. */
  lemma RotatedLines(swaps: seq<seq<int>>, lines: seq<string>, a: seq<string>, b: seq<string>, c: seq<string>)
    requires swaps == [[0, 1], [1, 2]] && |a| == |lines| && |b| == |lines| && |c| == |lines|
    requires forall k :: 0 <= k < |lines| ==>
      Word(a[k]) && Word(b[k]) && Word(c[k]) && lines[k] == Spaced(a[k], b[k], c[k])
    ensures SwapStrs(swaps, lines, Spaced).Some?
    ensures |SwapStrs(swaps, lines, Spaced).value| == |lines|
    ensures forall k :: 0 <= k < |lines| ==> SwapStrs(swaps, lines, Spaced).value[k] == Spaced(b[k], c[k], a[k])
  {
    forall k | 0 <= k < |lines| ensures |Fields(lines[k])| == 3 && Permuted(Fields(lines[k]), swaps) == [b[k], c[k], a[k]] {
      RotatedLine(swaps, lines[k], a[k], b[k], c[k]);
    }
    SpacedKeeps();
    SwapStrsFields(swaps, lines, Spaced);
  }

  /** No row equals row: no hits. */
  lemma HitsNone(row: seq<int>, src: seq<seq<int>>)
    requires forall j :: 0 <= j < |src| ==> src[j] != row
    ensures Hits(row, src) == []
  {
  }

  /** The order of a dst whose rows each occur exactly once in src, src's
   *  rows being distinct: entry i is the index of dst's row i. */
  lemma OrderOf(dst: seq<seq<int>>, src: seq<seq<int>>, o: seq<int>)
    requires forall j, k :: 0 <= j < k < |src| ==> src[j] != src[k]
    requires |o| == |dst| && forall i :: 0 <= i < |dst| ==> 0 <= o[i] < |src| && src[o[i]] == dst[i]
    ensures Order(dst, src) == o
  {
    forall i | 0 <= i < |dst| ensures Unique(dst[i], src) {
      assert src[o[i]] == dst[i];
    }
    OrderUnique(dst, src);
    var r := Order(dst, src);
    forall i | 0 <= i < |dst| ensures r[i] == o[i] {
      assert src[r[i]] == src[o[i]];
    }
  }

  /** The two patterns of the aluminium oxide test geometries: the same
   *  columns, rows in another order. */
  lemma MatchRows()
    ensures MatchFrom([[2, 1, 1], [4, 2, 1], [1, 2, 1], [2, 4, 1]],
                      [[4, 2, 1], [1, 2, 1], [2, 1, 1], [2, 4, 1]], 0)
         == Matched([], [2, 0, 1, 3])
  {
    var d: seq<seq<int>> := [[2, 1, 1], [4, 2, 1], [1, 2, 1], [2, 4, 1]];
    var r: seq<seq<int>> := [[4, 2, 1], [1, 2, 1], [2, 1, 1], [2, 4, 1]];
    OrderOf(d, r, [2, 0, 1, 3]);
  }

  /** A geometry with its y and z columns exchanged matches after the
   *  first swap. */
  lemma MatchColumns(d: seq<seq<int>>, r: seq<seq<int>>)
    requires d == [[2, 1, 1], [4, 2, 1], [1, 2, 1], [2, 4, 1]]
    requires r == [[2, 1, 1], [4, 1, 2], [1, 1, 2], [2, 1, 4]]
    ensures MatchFrom(d, r, 0) == Matched([[1, 2]], [0, 1, 2, 3])
  {
    ColumnsUnswapped(d, r);
    MatchAt(d, r, 0, r);
    ColumnsSwapped(d, r);
    ColumnsOrder(d);
    MatchAt(d, r, 1, d);
    SwapsOne();
  }

  lemma ColumnsOrder(d: seq<seq<int>>)
    requires d == [[2, 1, 1], [4, 2, 1], [1, 2, 1], [2, 4, 1]]
    ensures Order(d, d) == [0, 1, 2, 3]
  {
    OrderOf(d, d, [0, 1, 2, 3]);
  }

  lemma SwapsOne()
    ensures Swaps(1) == [[1, 2]]
  {
    assert Stage(1) == [1, 2];
  }

  /** One stage of MatchFrom with its arrangement in hand. */
  lemma MatchAt(dst: seq<seq<int>>, rows: seq<seq<int>>, s: nat, a: seq<seq<int>>)
    requires s < 6 && Arranged(rows, s) == Some(a)
    ensures |Order(dst, a)| == |dst| ==> MatchFrom(dst, rows, s) == Matched(Swaps(s), Order(dst, a))
    ensures |Order(dst, a)| != |dst| ==> MatchFrom(dst, rows, s) == MatchFrom(dst, rows, s + 1)
  {
  }

  lemma ColumnsUnswapped(d: seq<seq<int>>, r: seq<seq<int>>)
    requires d == [[2, 1, 1], [4, 2, 1], [1, 2, 1], [2, 4, 1]]
    requires r == [[2, 1, 1], [4, 1, 2], [1, 1, 2], [2, 1, 4]]
    ensures |Order(d, r)| == 1
  {
    ColumnsFirst(d, r);
    ColumnsRest(d, r);
    OrderNoMore(d, r, 1);
  }

  lemma ColumnsFirst(d: seq<seq<int>>, r: seq<seq<int>>)
    requires d == [[2, 1, 1], [4, 2, 1], [1, 2, 1], [2, 4, 1]]
    requires r == [[2, 1, 1], [4, 1, 2], [1, 1, 2], [2, 1, 4]]
    ensures |Order(d[..1], r)| == 1
  {
    assert r[1][0] != d[0][0] && r[2][0] != d[0][0] && r[3][2] != d[0][2];
    HitsPrefix(d[0], r, 0, 4);
    assert r[..4] == r && d[..1][..0] == [];
    assert Order(d[..1], r) == Hits(d[0], r);
  }

  lemma ColumnsRest(d: seq<seq<int>>, r: seq<seq<int>>)
    requires d == [[2, 1, 1], [4, 2, 1], [1, 2, 1], [2, 4, 1]]
    requires r == [[2, 1, 1], [4, 1, 2], [1, 1, 2], [2, 1, 4]]
    ensures forall i :: 1 <= i < |d| ==> Hits(d[i], r) == []
  {
    ColumnsMiss(d[1], r, [0, 1, 0, 0]);
    ColumnsMiss(d[2], r, [0, 0, 1, 0]);
    ColumnsMiss(d[3], r, [1, 0, 0, 1]);
  }

  /** A row that differs from each src row j in column cols[j] has no
   *  hits. */
  lemma ColumnsMiss(row: seq<int>, r: seq<seq<int>>, cols: seq<nat>)
    requires |cols| == |r| == 4 && |row| == 3 && forall j :: 0 <= j < 4 ==> |r[j]| == 3
    requires cols[0] < 3 && r[0][cols[0]] != row[cols[0]]
    requires cols[1] < 3 && r[1][cols[1]] != row[cols[1]]
    requires cols[2] < 3 && r[2][cols[2]] != row[cols[2]]
    requires cols[3] < 3 && r[3][cols[3]] != row[cols[3]]
    ensures Hits(row, r) == []
  {
    forall j | 0 <= j < |r| ensures r[j] != row {
      assert r[j][cols[j]] != row[cols[j]];
    }
    HitsNone(row, r);
  }

  /** dst rows from n on that occur nowhere in src add nothing to the
   *  order. */
  lemma {:induction false} OrderNoMore(dst: seq<seq<int>>, src: seq<seq<int>>, n: nat)
    requires n <= |dst| && forall i :: n <= i < |dst| ==> Hits(dst[i], src) == []
    ensures Order(dst, src) == Order(dst[..n], src)
    decreases |dst|
  {
    if |dst| > n {
      var m := |dst| - 1;
      var init := dst[..m];
      forall i | n <= i < |init| ensures Hits(init[i], src) == [] {
        assert init[i] == dst[i];
      }
      OrderNoMore(init, src, n);
      assert init[..n] == dst[..n];
      assert Hits(dst[m], src) == [];
      assert Order(dst, src) == Order(init, src) + Hits(dst[m], src);
    } else {
      assert dst[..n] == dst;
    }
  }

  lemma ColumnsSwapped(d: seq<seq<int>>, r: seq<seq<int>>)
    requires d == [[2, 1, 1], [4, 2, 1], [1, 2, 1], [2, 4, 1]]
    requires r == [[2, 1, 1], [4, 1, 2], [1, 1, 2], [2, 1, 4]]
    ensures Arranged(r, 1) == Some(d)
  {
    forall x | 0 <= x < |r| ensures |r[x]| == 3 {
      assert x == 0 || x == 1 || x == 2 || x == 3;
    }
    assert Fits(r, 1, 2) && Stage(1) == [1, 2];
    SwapColsRows(r, 1, 2);
    var w := SwapCols(r, 1, 2);
    assert w[0] == SwapRow(r[0], 1, 2) == d[0];
    assert w[1] == SwapRow(r[1], 1, 2) == d[1];
    assert w[2] == SwapRow(r[2], 1, 2) == d[2];
    assert w[3] == SwapRow(r[3], 1, 2) == d[3];
    assert w == d;
  }

  /** The pattern of the Swap test: columns 0 and 1 exchanged. */
  lemma SwapExample(r: seq<seq<int>>, d: seq<seq<int>>)
    requires r == [[2, 1, 1], [4, 2, 1], [1, 2, 1], [2, 4, 1]]
    requires d == [[1, 2, 1], [2, 4, 1], [2, 1, 1], [4, 2, 1]]
    ensures Fits(r, 0, 1) && SwapCols(r, 0, 1) == d
  {
    forall x | 0 <= x < |r| ensures |r[x]| == 3 {
      assert x == 0 || x == 1 || x == 2 || x == 3;
    }
    assert Fits(r, 0, 1);
    SwapColsRows(r, 0, 1);
    var w := SwapCols(r, 0, 1);
    assert w[0] == SwapRow(r[0], 0, 1) == d[0];
    assert w[1] == SwapRow(r[1], 0, 1) == d[1];
    assert w[2] == SwapRow(r[2], 0, 1) == d[2];
    assert w[3] == SwapRow(r[3], 0, 1) == d[3];
    assert w == d;
  }

  // ---------------------------------------------------------------------
  // SecondLine

  /** The lines SecondLine works on: the head split at newlines with the
   *  last piece dropped, as if it were the empty piece after a final
   *  newline. */
  function HeadLines(head: string): (ls: seq<string>)
    ensures |ls| == |Split(head, "\n")| - 1
    ensures forall k :: 0 <= k < |ls| ==> ls[k] == Split(head, "\n")[k]
  {
    var pieces := Split(head, "\n");
    pieces[..|pieces| - 1]
  }

  /** The input directives for the Cartesian transform of freqs: fields 3,
   *  6, 10, 13 and 14 become 4, 2, 3, 0 and 0. */
  function Directives(fields: seq<string>): (g: seq<string>)
    requires |fields| >= 15
    ensures |g| == |fields|
  {
    fields[3 := "4"][6 := "2"][10 := "3"][13 := "0"][14 := "0"]
  }

  /** The directives set, every other field kept. */
  lemma DirectivesAt(fields: seq<string>)
    requires |fields| >= 15
    ensures var g := Directives(fields);
      g[3] == "4" && g[6] == "2" && g[10] == "3" && g[13] == "0" && g[14] == "0"
      && forall k :: 0 <= k < |fields| && k != 3 && k != 6 && k != 10 && k != 13 && k != 14 ==> g[k] == fields[k]
  {
  }

  /** The line SecondLine returns for a head, or None where Go panics:
   *  fewer than two lines, or fewer than fifteen fields on the second. */
  function SecondOf(head: string): Option<string> {
    var ls := HeadLines(head);
    if |ls| < 2 || |Fields(ls[1])| < 15 then None
    else Some(Padded(Directives(Fields(ls[1])), 5))
  }

  /** The "%5s" loop of SecondLine: every field right-aligned in width w,
   *  written one after the other. */
  method PadFields(fields: seq<string>, w: nat) returns (buf: string)
    ensures buf == Padded(fields, w)
  {
    buf := "";
    for k := 0 to |fields|
      invariant buf == Padded(fields[..k], w)
    {
      PaddedSnoc(fields[..k], fields[k], w);
      assert fields[..k + 1] == fields[..k] + [fields[k]];
      buf := buf + PadLeft(fields[k], w);
    }
    assert fields[..|fields|] == fields;
  }

  /** The Intder struct: an intder input file split around its geometry. */
  class Intder {
    var head: string
    var geometry: string
    var tail: string
    var pattern: seq<seq<int>>
    var dummies: seq<Dummy>

    constructor (head: string, geometry: string, tail: string)
      ensures this.head == head && this.geometry == geometry && this.tail == tail
      ensures pattern == [] && dummies == []
    {
      this.head := head;
      this.geometry := geometry;
      this.tail := tail;
      pattern := [];
      dummies := [];
    }

    /** SecondLine: rewrites the second line of the head with the
     *  directives, each field right-aligned in width 5, and joins the lines
     *  back into the head. */
    method SecondLine() returns (line: Option<string>)
      modifies this
      ensures line == SecondOf(old(head))
      ensures line.Some? ==> head == Join(HeadLines(old(head))[1 := line.value], "\n")
      ensures line.None? ==> head == old(head)
      ensures geometry == old(geometry) && tail == old(tail)
      ensures pattern == old(pattern) && dummies == old(dummies)
    {
      var lines := HeadLines(head);
      if |lines| < 2 {
        return None;
      }
      var fields := Fields(lines[1]);
      if |fields| < 15 {
        return None;
      }
      fields := Directives(fields);
      var buf := PadFields(fields, 5);
      lines := lines[1 := buf];
      head := Join(lines, "\n");
      line := Some(buf);
    }
  }

  /** The new second line reads back as the old fields with the directives
   *  set, and is five characters per field, when every field is shorter
   *  than five characters. */
  lemma SecondLineFields(head: string)
    requires SecondOf(head).Some?
    requires forall k :: 0 <= k < |Fields(HeadLines(head)[1])| ==> |Fields(HeadLines(head)[1])[k]| < 5
    ensures Fields(SecondOf(head).value) == Directives(Fields(HeadLines(head)[1]))
    ensures |SecondOf(head).value| == 5 * |Fields(HeadLines(head)[1])|
  {
    var f := Fields(HeadLines(head)[1]);
    var g := Directives(f);
    DirectivesAt(f);
    assert Word("4") && Word("2") && Word("3") && Word("0");
    assert forall k :: 0 <= k < |g| ==> Word(g[k]) && |g[k]| < 5;
    PaddedFields(g, 5);
    PaddedLength(g, 5);
  }

  /** A head that ends in a newline: SecondLine works on exactly its lines,
   *  and those lines join back to the head without its final newline. */
  lemma HeadLinesTrailing(s: string)
    ensures HeadLines(s + "\n") == Split(s, "\n")
    ensures Join(HeadLines(s + "\n"), "\n") == s
  {
    SplitTrailing(s, '\n');
    var pieces := Split(s, "\n");
    assert (pieces + [""])[..|pieces|] == pieces;
    JoinSplit(s, "\n");
  }

  /** A head that does not end in a newline loses its last line: the lines
   *  SecondLine works on and that line join back to the head. */
  lemma HeadLinesDropLast(head: string)
    ensures var pieces := Split(head, "\n");
      HeadLines(head) + [pieces[|pieces| - 1]] == pieces
      && (HeadLines(head) != [] ==> Join(HeadLines(head), "\n") + "\n" + pieces[|pieces| - 1] == head)
  {
    var pieces := Split(head, "\n");
    var ls := HeadLines(head);
    assert ls + [pieces[|pieces| - 1]] == pieces;
    JoinSplit(head, "\n");
    if ls != [] {
      JoinSnoc(ls, pieces[|pieces| - 1], "\n");
    }
  }
}
