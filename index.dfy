/** index.go: positions of force constants in the packed 2-, 3- and
 *  4-dimensional arrays. */
module PackedIndex {
  import opened Text

  // ---------------------------------------------------------------------
  // sort.Ints

  predicate Sorted(s: seq<int>) {
    forall a, b :: 0 <= a < b < |s| ==> s[a] <= s[b]
  }

  /** A value no larger than the head of a sorted sequence may lead it. */
  lemma ConsSorted(v: int, t: seq<int>)
    requires Sorted(t) && (t != [] ==> v <= t[0])
    ensures Sorted([v] + t)
  {
    forall a, b | 0 <= a < b < |[v] + t| ensures ([v] + t)[a] <= ([v] + t)[b] {
      if a == 0 && b > 1 {
        assert t[0] <= t[b - 1];
      }
    }
  }

  /** x put into its place in the sorted s. */
  function Insert(x: int, s: seq<int>): (r: seq<int>)
    requires Sorted(s)
    ensures |r| == |s| + 1 && Sorted(r)
    ensures r[0] == if s == [] || x <= s[0] then x else s[0]
    decreases |s|
  {
    if s == [] || x <= s[0] then
      ConsSorted(x, s);
      [x] + s
    else
      SortedTail(s);
      var t := Insert(x, s[1..]);
      assert s == [s[0]] + s[1..];
      assert |s| > 1 ==> s[0] <= s[1];
      ConsSorted(s[0], t);
      [s[0]] + t
  }

  /** Insert adds x to the elements and keeps the others. */
  lemma {:induction false} InsertPermutes(x: int, s: seq<int>)
    requires Sorted(s)
    ensures multiset(Insert(x, s)) == multiset(s) + multiset{x}
    decreases |s|
  {
    if s != [] && x > s[0] {
      SortedTail(s);
      InsertPermutes(x, s[1..]);
      assert s == [s[0]] + s[1..];
    }
  }

  /** The ascending arrangement of s. */
  function SortInts(s: seq<int>): (r: seq<int>)
    ensures |r| == |s| && Sorted(r)
    decreases |s|
  {
    if s == [] then []
    else Insert(s[0], SortInts(s[1..]))
  }

  /** SortInts keeps the elements: its result is a permutation of s. */
  lemma {:induction false} SortIntsPermutes(s: seq<int>)
    ensures multiset(SortInts(s)) == multiset(s)
    decreases |s|
  {
    if s != [] {
      SortIntsPermutes(s[1..]);
      InsertPermutes(s[0], SortInts(s[1..]));
      assert s == [s[0]] + s[1..];
    }
  }

  lemma SortedTail(s: seq<int>)
    requires Sorted(s) && s != []
    ensures Sorted(s[1..]) && forall x :: x in multiset(s[1..]) ==> s[0] <= x
  {
    assert s == [s[0]] + s[1..];
  }

  /** The head of an ascending sequence is its least element. */
  lemma SortedHead(s: seq<int>, x: int)
    requires Sorted(s) && x in multiset(s)
    ensures s != [] && s[0] <= x
  {
    var k :| 0 <= k < |s| && s[k] == x;
  }

  lemma TailMultiset(s: seq<int>)
    requires s != []
    ensures multiset(s[1..]) == multiset(s) - multiset{s[0]}
  {
    assert s == [s[0]] + s[1..];
  }

  /** Two ascending sequences with the same elements are equal. */
  lemma {:induction false} SortedUnique(a: seq<int>, b: seq<int>)
    requires Sorted(a) && Sorted(b) && multiset(a) == multiset(b)
    ensures a == b
    decreases |a|
  {
    if a != [] {
      SameHeads(a, b);
      SortedUnique(a[1..], b[1..]);
      assert a == [a[0]] + a[1..] && b == [b[0]] + b[1..];
    } else {
      assert |b| == |multiset(b)| == 0;
    }
  }

  /** Two ascending sequences with the same elements start alike, and their
   *  tails are again ascending with the same elements. */
  lemma SameHeads(a: seq<int>, b: seq<int>)
    requires Sorted(a) && Sorted(b) && multiset(a) == multiset(b) && a != []
    ensures b != [] && a[0] == b[0]
    ensures Sorted(a[1..]) && Sorted(b[1..]) && multiset(a[1..]) == multiset(b[1..])
  {
    assert a[0] in multiset(a);
    SortedHead(b, a[0]);
    assert b[0] in multiset(b);
    SortedHead(a, b[0]);
    TailMultiset(a);
    TailMultiset(b);
    SortedTail(a);
    SortedTail(b);
  }

  // ---------------------------------------------------------------------
  // The packed positions

  /** Number of sorted pairs 1 <= i <= j' with j' < j. */
  function Tri(j: int): nat
    decreases j
  {
    if j <= 1 then 0 else Tri(j - 1) + (j - 1)
  }

  /** Number of sorted triples whose largest index is below k. */
  function Tet(k: int): nat
    decreases k
  {
    if k <= 1 then 0 else Tet(k - 1) + Tri(k)
  }

  /** Number of sorted quadruples whose largest index is below l. */
  function Pent(l: int): nat
    decreases l
  {
    if l <= 1 then 0 else Pent(l - 1) + Tet(l)
  }

  /** (j-1)j/2 with Go's division. */
  function Pairs(j: int): int {
    Quo((j - 1) * j, 2)
  }

  /** (k-1)k(k+1)/6 with Go's division. */
  function Triples(k: int): int {
    Quo((k - 1) * k * (k + 1), 6)
  }

  /** (l-1)l(l+1)(l+2)/24 with Go's division. */
  function Quads(l: int): int {
    Quo((l - 1) * l * (l + 1) * (l + 2), 24)
  }

  const WrongCount := "wrong number of indices in call to Index"

  /** The switch in Index (index.go:30-51) on an already ordered id. */
  function Positions(ncoords: int, id: seq<int>): Result<seq<int>, string> {
    if |id| == 2 then
      if id[0] == id[1] then Ok([ncoords * (id[0] - 1) + id[1] - 1])
      else Ok([ncoords * (id[0] - 1) + id[1] - 1, ncoords * (id[1] - 1) + id[0] - 1])
    else if |id| == 3 then
      Ok([id[0] + Pairs(id[1]) + Triples(id[2]) - 1])
    else if |id| == 4 then
      Ok([id[0] + Pairs(id[1]) + Triples(id[2]) + Quads(id[3]) - 1])
    else Err(WrongCount)
  }

  /** Index (index.go:26-52): sorts the caller's slice unless nosort,
   *  then computes the positions. */
  method Index(ncoords: int, nosort: bool, id: array<int>) returns (r: Result<seq<int>, string>)
    modifies id
    ensures id[..] == if nosort then old(id[..]) else SortInts(old(id[..]))
    ensures r == Positions(ncoords, id[..])
  {
    if !nosort {
      var s := SortInts(id[..]);
      forall k | 0 <= k < id.Length {
        id[k] := s[k];
      }
    }
    r := Positions(ncoords, id[..]);
  }

  /** Only two, three or four indices have a position. */
  lemma PositionsDefined(ncoords: int, id: seq<int>)
    ensures Positions(ncoords, id).Ok? <==> 2 <= |id| <= 4
    ensures Positions(ncoords, id).Err? ==> Positions(ncoords, id).error == WrongCount
  {
  }

  /** With sorting, the result does not depend on the order of the indices. */
  lemma OrderIndependent(ncoords: int, p: seq<int>, q: seq<int>)
    requires multiset(p) == multiset(q)
    ensures Positions(ncoords, SortInts(p)) == Positions(ncoords, SortInts(q))
  {
    SortIntsPermutes(p);
    SortIntsPermutes(q);
    SortedUnique(SortInts(p), SortInts(q));
  }

  /** Row-major cell (a, b) of an n x n grid, 1-based. */
  function Cell(n: int, a: int, b: int): int {
    n * (a - 1) + b - 1
  }

  lemma MulAtLeast(x: int, n: int)
    requires x >= 1 && n >= 0
    ensures x * n >= n
  {
    assert x * n - n == (x - 1) * n;
  }

  /** Cells of the grid lie in [0, n*n). */
  lemma CellRange(n: int, a: int, b: int)
    requires 1 <= a <= n && 1 <= b <= n
    ensures 0 <= Cell(n, a, b) < n * n
  {
    MulAtLeast(n - a + 1, n);
    assert n * (a - 1) + (n - a + 1) * n == n * n;
  }

  lemma CellStep(n: int, a: int, b: int, a2: int, b2: int)
    requires a > a2 && 1 <= b <= n && 1 <= b2 <= n
    ensures Cell(n, a, b) > Cell(n, a2, b2)
  {
    MulAtLeast(a - a2, n);
    assert n * (a - 1) - n * (a2 - 1) == (a - a2) * n;
  }

  /** Distinct cells of the grid have distinct positions. */
  lemma CellInjective(n: int, a: int, b: int, a2: int, b2: int)
    requires 1 <= a <= n && 1 <= b <= n && 1 <= a2 <= n && 1 <= b2 <= n
    ensures 0 <= Cell(n, a, b) < n * n
    ensures Cell(n, a, b) == Cell(n, a2, b2) ==> a == a2 && b == b2
  {
    CellRange(n, a, b);
    if a > a2 {
      CellStep(n, a, b, a2, b2);
    }
    if a2 > a {
      CellStep(n, a2, b2, a, b);
    }
  }

  /** Two indices of an n x n grid: the diagonal cell alone when equal,
   *  else both mirror cells, which are distinct. */
  lemma PairPositions(n: int, i: int, j: int)
    requires 1 <= i <= n && 1 <= j <= n
    ensures var r := Positions(n, [i, j]);
      r.Ok? && |r.value| == (if i == j then 1 else 2) &&
      r.value[0] == Cell(n, i, j) &&
      (i != j ==> r.value[1] == Cell(n, j, i) && r.value[0] != r.value[1]) &&
      forall p :: p in r.value ==> 0 <= p < n * n
  {
    CellInjective(n, i, j, j, i);
    CellInjective(n, j, i, i, j);
  }

  /** Different unordered pairs get disjoint positions. */
  lemma PairsDisjoint(n: int, i: int, j: int, i2: int, j2: int)
    requires 1 <= i <= n && 1 <= j <= n && 1 <= i2 <= n && 1 <= j2 <= n
    requires Positions(n, [i, j]).value[0] in Positions(n, [i2, j2]).value
    ensures (i == i2 && j == j2) || (i == j2 && j == i2)
  {
    CellInjective(n, i, j, i2, j2);
    CellInjective(n, i, j, j2, i2);
  }

  lemma TriClosed(j: int)
    requires j >= 1
    ensures 2 * Tri(j) == (j - 1) * j
    decreases j
  {
    if j > 1 {
      TriClosed(j - 1);
    }
  }

  lemma TetClosed(k: int)
    requires k >= 1
    ensures 6 * Tet(k) == (k - 1) * k * (k + 1)
    decreases k
  {
    if k > 1 {
      TetClosed(k - 1);
      TriClosed(k);
      assert (k - 1) * k * (k + 1) == (k - 2) * (k - 1) * k + 3 * ((k - 1) * k);
    }
  }

  lemma PentClosed(l: int)
    requires l >= 1
    ensures 24 * Pent(l) == (l - 1) * l * (l + 1) * (l + 2)
    decreases l
  {
    if l > 1 {
      PentClosed(l - 1);
      TetClosed(l);
      assert (l - 1) * l * (l + 1) * (l + 2) == (l - 2) * (l - 1) * l * (l + 1) + 4 * ((l - 1) * l * (l + 1));
    }
  }

  /** The truncating divisions in the formulas are exact: they count the
   *  sorted index tuples below the larger indices. */
  /** The truncating divisions in the formulas are exact: they count the
   *  sorted index tuples below the larger indices. */
  lemma ClosedForms(j: int)
    requires j >= 1
    ensures Pairs(j) == Tri(j) && Triples(j) == Tet(j) && Quads(j) == Pent(j)
  {
    TriClosed(j);
    TetClosed(j);
    PentClosed(j);
    assert Quo(2 * Tri(j), 2) == Tri(j);
    assert Quo(6 * Tet(j), 6) == Tet(j);
    assert Quo(24 * Pent(j), 24) == Pent(j);
  }

  lemma TripleCounts(i: int, j: int, k: int)
    requires 1 <= j && 1 <= k
    ensures Positions(0, [i, j, k]) == Ok([i - 1 + Tri(j) + Tet(k)])
  {
    ClosedForms(j);
    ClosedForms(k);
  }

  lemma QuadCounts(i: int, j: int, k: int, l: int)
    requires 1 <= j && 1 <= k && 1 <= l
    ensures Positions(0, [i, j, k, l]) == Ok([i - 1 + Tri(j) + Tet(k) + Pent(l)])
  {
    ClosedForms(j);
    ClosedForms(k);
    ClosedForms(l);
  }

  lemma {:induction false} TriMono(a: int, b: int)
    requires a <= b
    ensures Tri(a) <= Tri(b)
    decreases b - a
  {
    if a < b {
      TriMono(a, b - 1);
    }
  }

  lemma {:induction false} TetMono(a: int, b: int)
    requires a <= b
    ensures Tet(a) <= Tet(b)
    decreases b - a
  {
    if a < b {
      TetMono(a, b - 1);
    }
  }

  /** A sorted pair (i, j) lands in the block [Tri(j), Tri(j+1)). */
  lemma PairBlock(i: int, j: int)
    requires 1 <= i <= j
    ensures Tri(j) <= i - 1 + Tri(j) < Tri(j + 1)
  {
  }

  /** A sorted triple lands in the block of its largest index. */
  lemma TripleBlock(i: int, j: int, k: int)
    requires 1 <= i <= j <= k
    ensures Tet(k) <= i - 1 + Tri(j) + Tet(k) < Tet(k + 1)
  {
    TriMono(j + 1, k + 1);
  }

  /** A sorted quadruple lands in the block of its largest index. */
  lemma QuadBlock(i: int, j: int, k: int, l: int)
    requires 1 <= i <= j <= k <= l
    ensures Pent(l) <= i - 1 + Tri(j) + Tet(k) + Pent(l) < Pent(l + 1)
  {
    TripleBlock(i, j, k);
    TetMono(k + 1, l + 1);
  }

  /** Blocks of larger indices start later. */
  lemma {:induction false} BlocksOrdered(a: int, b: int)
    requires 1 <= a < b
    ensures Tri(a + 1) <= Tri(b) && Tet(a + 1) <= Tet(b) && Pent(a + 1) <= Pent(b)
    decreases b - a
  {
    if a + 1 < b {
      BlocksOrdered(a, b - 1);
    }
  }

  /** Distinct sorted triples have distinct positions. */
  lemma TripleInjective(i: int, j: int, k: int, i2: int, j2: int, k2: int)
    requires 1 <= i <= j <= k && 1 <= i2 <= j2 <= k2
    requires Positions(0, [i, j, k]) == Positions(0, [i2, j2, k2])
    ensures i == i2 && j == j2 && k == k2
  {
    TripleCounts(i, j, k);
    TripleCounts(i2, j2, k2);
    TripleBlock(i, j, k);
    TripleBlock(i2, j2, k2);
    if k < k2 { BlocksOrdered(k, k2); }
    if k2 < k { BlocksOrdered(k2, k); }
    PairBlock(i, j);
    PairBlock(i2, j2);
    if j < j2 { BlocksOrdered(j, j2); }
    if j2 < j { BlocksOrdered(j2, j); }
  }

  /** Distinct sorted quadruples have distinct positions. */
  lemma QuadInjective(i: int, j: int, k: int, l: int, i2: int, j2: int, k2: int, l2: int)
    requires 1 <= i <= j <= k <= l && 1 <= i2 <= j2 <= k2 <= l2
    requires Positions(0, [i, j, k, l]) == Positions(0, [i2, j2, k2, l2])
    ensures i == i2 && j == j2 && k == k2 && l == l2
  {
    QuadCounts(i, j, k, l);
    QuadCounts(i2, j2, k2, l2);
    QuadBlock(i, j, k, l);
    QuadBlock(i2, j2, k2, l2);
    if l < l2 { BlocksOrdered(l, l2); }
    if l2 < l { BlocksOrdered(l2, l); }
    assert Positions(0, [i, j, k]) == Positions(0, [i2, j2, k2]) by {
      TripleCounts(i, j, k);
      TripleCounts(i2, j2, k2);
    }
    TripleInjective(i, j, k, i2, j2, k2);
  }

  // ---------------------------------------------------------------------
  // E2dIndex

  /** IntAbs (molpro.go:564-569). */
  function IntAbs(n: int): (r: int)
    ensures r >= 0 && (r == n || r == -n)
  {
    if n < 0 then -1 * n else n
  }

  /** A step index on the 2ncoords grid: -n becomes |n| + ncoords. */
  function GridIndex(ncoords: int, n: int): int {
    if n < 0 then IntAbs(n) + ncoords else n
  }

  function GridIndices(ncoords: int, ns: seq<int>): (r: seq<int>)
    ensures |r| == |ns|
    ensures forall k :: 0 <= k < |ns| ==> r[k] == GridIndex(ncoords, ns[k])
    decreases |ns|
  {
    if ns == [] then [] else GridIndices(ncoords, ns[..|ns| - 1]) + [GridIndex(ncoords, ns[|ns| - 1])]
  }

  /** E2dIndex (index.go:12-22). */
  method E2dIndex(ncoords: int, ns: seq<int>) returns (r: Result<seq<int>, string>)
    ensures r == Positions(2 * ncoords, SortInts(GridIndices(ncoords, ns)))
  {
    var out: seq<int> := [];
    var k := 0;
    while k < |ns|
      invariant 0 <= k <= |ns|
      invariant out == GridIndices(ncoords, ns[..k])
    {
      assert ns[..k + 1][..k] == ns[..k];
      if ns[k] < 0 {
        out := out + [IntAbs(ns[k]) + ncoords];
      } else {
        out := out + [ns[k]];
      }
      k := k + 1;
    }
    assert ns[..k] == ns;
    var id := new int[|out|](p requires 0 <= p < |out| => out[p]);
    assert id[..] == out;
    r := Index(2 * ncoords, false, id);
  }

  /** Negative steps occupy the second half of the 2ncoords grid, so each
   *  step maps to a distinct grid index. */
  lemma GridIndexInjective(ncoords: int, m: int, n: int)
    requires 1 <= IntAbs(m) <= ncoords && 1 <= IntAbs(n) <= ncoords
    ensures 1 <= GridIndex(ncoords, m) <= 2 * ncoords
    ensures GridIndex(ncoords, m) == GridIndex(ncoords, n) ==> m == n
  {
  }

  lemma SortedAlready(s: seq<int>)
    requires Sorted(s)
    ensures SortInts(s) == s
  {
    SortIntsPermutes(s);
    SortedUnique(SortInts(s), s);
  }

  /** The values the E2dIndex tests expect. */
  lemma E2dIndexExample1()
    ensures Positions(18, SortInts(GridIndices(9, [1, -9]))) == Ok([17, 306])
  {
    GridExample1();
    PositionsExample1();
    E2dIndexCase(9, [1, -9], [1, 18], Ok([17, 306]));
  }

  /** E2dIndex on steps whose grid indices come out ascending. */
  lemma E2dIndexCase(ncoords: int, ns: seq<int>, grid: seq<int>, out: Result<seq<int>, string>)
    requires GridIndices(ncoords, ns) == grid && Sorted(grid) && Positions(2 * ncoords, grid) == out
    ensures Positions(2 * ncoords, SortInts(GridIndices(ncoords, ns))) == out
  {
    SortedAlready(grid);
  }

  lemma GridExample1()
    ensures GridIndices(9, [1, -9]) == [1, 18]
  {
    assert [1, -9][..1] == [1];
  }

  lemma PositionsExample1()
    ensures Positions(18, [1, 18]) == Ok([17, 306])
  {
  }

  lemma E2dIndexExample2()
    ensures Positions(18, SortInts(GridIndices(9, [-9, -9]))) == Ok([323])
  {
    assert GridIndices(9, [-9, -9]) == [18, 18];
    SortedAlready([18, 18]);
  }

  lemma E2dIndexExample3()
    ensures Positions(12, SortInts(GridIndices(6, [-1, -1]))) == Ok([78])
  {
    assert GridIndices(6, [-1, -1]) == [7, 7];
    SortedAlready([7, 7]);
  }

  /** The value the Index test expects. */
  lemma IndexExample()
    ensures Positions(9, SortInts([1, 1])) == Ok([0])
  {
    SortedAlready([1, 1]);
  }
}
