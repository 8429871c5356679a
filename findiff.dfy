/** findiff.go: the finite-difference stencils of the force constants.
 *  Make1D .. Make4D return, for the coordinates of one derivative, the
 *  displaced calculations whose energies combine into it: each with an
 *  integer coefficient, a job name, the coordinates it is displaced along
 *  (a negative entry steps backwards) and the shared list of coordinates
 *  being differentiated. The job names come from HashName, whose counter
 *  every table row with a name moves on; the reference geometry's row is
 *  named "E0" and takes no name from the counter.
 *
 *  Every element also carries the table's Scale, which the Go code works
 *  out from the configured step sizes; here it is a parameter. The float64
 *  coefficients are the integers the tables hold. */
module FinDiff {
  import opened Text
  import opened HashName

  /** One element of a table literal before its name is drawn: the
   *  coefficient, whether the name is a fresh HashName() or "E0", and the
   *  steps. */
  datatype Row = Row(coeff: int, hashed: bool, steps: seq<int>)

  /** {coeff, HashName(), steps, index, scale} */
  function H(coeff: int, steps: seq<int>): Row {
    Row(coeff, true, steps)
  }

  /** {coeff, "E0", []int{}, index, scale} */
  function E0(coeff: int): Row {
    Row(coeff, false, [])
  }

  /** A table: the Index every element shares, and its rows in order. */
  datatype Stencil = Stencil(index: seq<int>, rows: seq<Row>)

  /** ProtoCalc: Coeff, Name, Steps, Index and Scale. */
  datatype Proto = Proto(coeff: int, name: string, steps: seq<int>, index: seq<int>, scale: real)

  // ---------------------------------------------------------------------
  // The tables. Within one order the switch's cases repeat a few tables
  // with the coordinates renamed; each is written once, over x, y, z, w.

  /** The first derivative along x. */
  function D1(x: int): Stencil {
    Stencil([x], [
      H(1, [x]),
      H(-1, [-x])
    ])
  }

  /** The second derivative along x. */
  function D2Same(x: int): Stencil {
    Stencil([x, x], [
      H(1, [x, x]),
      E0(-2),
      H(1, [-x, -x])
    ])
  }

  /** The mixed second derivative along x and y. */
  function D2Distinct(x: int, y: int): Stencil {
    Stencil([x, y], [
      H(1, [x, y]),
      H(-1, [x, -y]),
      H(-1, [-x, y]),
      H(1, [-x, -y])
    ])
  }

  /** The third derivative along x. */
  function D3Same(x: int): Stencil {
    Stencil([x, x, x], [
      H(1, [x, x, x]),
      H(-3, [x]),
      H(3, [-x]),
      H(-1, [-x, -x, -x])
    ])
  }

  /** Twice along x, once along y. */
  function D3TwoOne(x: int, y: int): Stencil {
    Stencil([x, x, y], [
      H(1, [x, x, y]),
      H(-2, [y]),
      H(1, [-x, -x, y]),
      H(-1, [x, x, -y]),
      H(2, [-y]),
      H(-1, [-x, -x, -y])
    ])
  }

  /** Once along each of x, y and z. */
  function D3Distinct(x: int, y: int, z: int): Stencil {
    Stencil([x, y, z], [
      H(1, [x, y, z]),
      H(-1, [x, -y, z]),
      H(-1, [-x, y, z]),
      H(1, [-x, -y, z]),
      H(-1, [x, y, -z]),
      H(1, [x, -y, -z]),
      H(1, [-x, y, -z]),
      H(-1, [-x, -y, -z])
    ])
  }

  /** The fourth derivative along x. */
  function D4Same(x: int): Stencil {
    Stencil([x, x, x, x], [
      H(1, [x, x, x, x]),
      H(-4, [x, x]),
      E0(6),
      H(-4, [-x, -x]),
      H(1, [-x, -x, -x, -x])
    ])
  }

  /** Three times along x, once along y. */
  function D4ThreeOne(x: int, y: int): Stencil {
    Stencil([x, x, x, y], [
      H(1, [x, x, x, y]),
      H(-3, [x, y]),
      H(3, [-x, y]),
      H(-1, [-x, -x, -x, y]),
      H(-1, [x, x, x, -y]),
      H(3, [x, -y]),
      H(-3, [-x, -y]),
      H(1, [-x, -x, -x, -y])
    ])
  }

  /** Twice along x, once along y and once along z. */
  function D4TwoOneOne(x: int, y: int, z: int): Stencil {
    Stencil([x, x, y, z], [
      H(1, [x, x, y, z]),
      H(-2, [y, z]),
      H(1, [-x, -x, y, z]),
      H(-1, [x, x, -y, z]),
      H(2, [-y, z]),
      H(-1, [-x, -x, -y, z]),
      H(-1, [x, x, y, -z]),
      H(2, [y, -z]),
      H(-1, [-x, -x, y, -z]),
      H(1, [x, x, -y, -z]),
      H(-2, [-y, -z]),
      H(1, [-x, -x, -y, -z])
    ])
  }

  /** Twice along x and twice along y. */
  function D4TwoTwo(x: int, y: int): Stencil {
    Stencil([x, x, y, y], [
      H(1, [x, x, y, y]),
      H(1, [-x, -x, -y, -y]),
      H(1, [-x, -x, y, y]),
      H(1, [x, x, -y, -y]),
      H(-2, [x, x]),
      H(-2, [y, y]),
      H(-2, [-x, -x]),
      H(-2, [-y, -y]),
      E0(4)
    ])
  }

  /** Once along each of x, y, z and w. */
  function D4Distinct(x: int, y: int, z: int, w: int): Stencil {
    Stencil([x, y, z, w], [
      H(1, [x, y, z, w]),
      H(-1, [x, -y, z, w]),
      H(-1, [-x, y, z, w]),
      H(1, [-x, -y, z, w]),
      H(-1, [x, y, -z, w]),
      H(1, [x, -y, -z, w]),
      H(1, [-x, y, -z, w]),
      H(-1, [-x, -y, -z, w]),
      H(-1, [x, y, z, -w]),
      H(1, [x, -y, z, -w]),
      H(1, [-x, y, z, -w]),
      H(-1, [-x, -y, z, -w]),
      H(1, [x, y, -z, -w]),
      H(-1, [x, -y, -z, -w]),
      H(-1, [-x, y, -z, -w]),
      H(1, [-x, -y, -z, -w])
    ])
  }

  // ---------------------------------------------------------------------
  // The switch statements: a case's table, in the order the cases are listed

  /** Make1D has a single table. */
  function Table1(i: int): Stencil {
    D1(i)
  }

  function Table2(i: int, j: int): Option<Stencil> {
    if i == j then Some(D2Same(i))
    else if i != j then Some(D2Distinct(i, j))
    else None
  }

  function Table3(i: int, j: int, k: int): Option<Stencil> {
    if i == j && i == k then Some(D3Same(i))
    else if i == j && i != k then Some(D3TwoOne(i, k))
    else if i == k && i != j then Some(D3TwoOne(i, j))
    else if j == k && i != j then Some(D3TwoOne(j, i))
    else if i != j && i != k && j != k then Some(D3Distinct(i, j, k))
    else None
  }

  function Table4(i: int, j: int, k: int, l: int): Option<Stencil> {
    // all the same
    if i == j && i == k && i == l then Some(D4Same(i))
    // three and one
    else if i == j && i == k && i != l then Some(D4ThreeOne(i, l))
    else if i == j && i == l && i != k then Some(D4ThreeOne(i, k))
    else if i == k && i == l && i != j then Some(D4ThreeOne(i, j))
    else if j == k && j == l && j != i then Some(D4ThreeOne(j, i))
    // two and one and one
    else if i == j && i != k && i != l && k != l then Some(D4TwoOneOne(i, k, l))
    else if i == k && i != j && i != l && j != l then Some(D4TwoOneOne(i, j, l))
    else if i == l && i != j && i != k && j != k then Some(D4TwoOneOne(i, k, j))
    else if j == k && j != i && j != l && i != l then Some(D4TwoOneOne(j, i, l))
    else if j == l && j != i && j != k && i != k then Some(D4TwoOneOne(j, i, k))
    else if k == l && k != i && k != j && i != j then Some(D4TwoOneOne(k, i, j))
    // two and two
    else if i == j && k == l && i != k then Some(D4TwoTwo(i, k))
    else if i == k && j == l && i != j then Some(D4TwoTwo(i, j))
    else if i == l && j == k && i != j then Some(D4TwoTwo(i, j))
    // all different
    else if i != j && i != k && i != l && j != k && j != l && k != l then Some(D4Distinct(i, j, k, l))
    else None
  }

  // ---------------------------------------------------------------------
  // Drawing the names

  /** How many rows draw a name from the counter. */
  function Hashed(rows: seq<Row>): nat
    decreases |rows|
  {
    if rows == [] then 0
    else Hashed(rows[..|rows| - 1]) + (if rows[|rows| - 1].hashed then 1 else 0)
  }

  /** The name row p gets when the counter stood at n before the table:
   *  one HashName() call for each named row before it has gone by. */
  function NameAt(rows: seq<Row>, n: nat, p: nat): string
    requires p < |rows|
  {
    if rows[p].hashed then JobName(n + Hashed(rows[..p])) else "E0"
  }

  /** The first m elements of the table, named from counter n on. */
  function Named(st: Stencil, scale: real, n: nat, m: nat): seq<Proto>
    requires m <= |st.rows|
    decreases m
  {
    if m == 0 then []
    else
      var row := st.rows[m - 1];
      Named(st, scale, n, m - 1) + [Proto(row.coeff, NameAt(st.rows, n, m - 1), row.steps, st.index, scale)]
  }

  /** The slice a table literal evaluates to. */
  function Protos(st: Stencil, scale: real, n: nat): seq<Proto> {
    Named(st, scale, n, |st.rows|)
  }

  /** Evaluating a table literal: its elements in order, each HashName()
   *  taking the counter's current value and moving it on. */
  method Build(jobs: JobCounter, st: Stencil, scale: real) returns (protos: seq<Proto>)
    modifies jobs
    ensures protos == Protos(st, scale, old(jobs.jobNum))
    ensures jobs.jobNum == old(jobs.jobNum) + Hashed(st.rows)
  {
    ghost var n := jobs.jobNum;
    protos := [];
    var m := 0;
    while m < |st.rows|
      invariant m <= |st.rows|
      invariant protos == Named(st, scale, n, m)
      invariant jobs.jobNum == n + Hashed(st.rows[..m])
    {
      var row := st.rows[m];
      var name := "E0";
      if row.hashed {
        name := jobs.Next();
      }
      assert name == NameAt(st.rows, n, m);
      HashedStep(st.rows, m);
      NamedStep(st, scale, n, m);
      protos := protos + [Proto(row.coeff, name, row.steps, st.index, scale)];
      m := m + 1;
    }
    assert st.rows[..m] == st.rows;
  }

  lemma NamedStep(st: Stencil, scale: real, n: nat, m: nat)
    requires m < |st.rows|
    ensures Named(st, scale, n, m + 1)
      == Named(st, scale, n, m) + [Proto(st.rows[m].coeff, NameAt(st.rows, n, m), st.rows[m].steps, st.index, scale)]
  {
  }

  lemma HashedStep(rows: seq<Row>, m: nat)
    requires m < |rows|
    ensures Hashed(rows[..m + 1]) == Hashed(rows[..m]) + (if rows[m].hashed then 1 else 0)
  {
    assert rows[..m + 1][..m] == rows[..m];
  }

  method Make1D(jobs: JobCounter, scale: real, i: int) returns (protos: seq<Proto>)
    modifies jobs
    ensures protos == Protos(Table1(i), scale, old(jobs.jobNum))
    ensures jobs.jobNum == old(jobs.jobNum) + Hashed(Table1(i).rows)
  {
    protos := Build(jobs, Table1(i), scale);
  }

  /** The switch has no "No cases matched" panic to reach: some case
   *  always holds. */
  method Make2D(jobs: JobCounter, scale: real, i: int, j: int) returns (protos: seq<Proto>)
    modifies jobs
    ensures Table2(i, j).Some?
    ensures protos == Protos(Table2(i, j).value, scale, old(jobs.jobNum))
    ensures jobs.jobNum == old(jobs.jobNum) + Hashed(Table2(i, j).value.rows)
  {
    protos := Build(jobs, Table2(i, j).value, scale);
  }

  method Make3D(jobs: JobCounter, scale: real, i: int, j: int, k: int) returns (protos: seq<Proto>)
    modifies jobs
    ensures Table3(i, j, k).Some?
    ensures protos == Protos(Table3(i, j, k).value, scale, old(jobs.jobNum))
    ensures jobs.jobNum == old(jobs.jobNum) + Hashed(Table3(i, j, k).value.rows)
  {
    protos := Build(jobs, Table3(i, j, k).value, scale);
  }

  method Make4D(jobs: JobCounter, scale: real, i: int, j: int, k: int, l: int) returns (protos: seq<Proto>)
    modifies jobs
    ensures Table4(i, j, k, l).Some?
    ensures protos == Protos(Table4(i, j, k, l).value, scale, old(jobs.jobNum))
    ensures jobs.jobNum == old(jobs.jobNum) + Hashed(Table4(i, j, k, l).value.rows)
  {
    protos := Build(jobs, Table4(i, j, k, l).value, scale);
  }

  // ---------------------------------------------------------------------
  // What every table promises

  function CoeffSum(rows: seq<Row>): int
    decreases |rows|
  {
    if rows == [] then 0 else CoeffSum(rows[..|rows| - 1]) + rows[|rows| - 1].coeff
  }

  function Eq(a: int, b: int): nat {
    if a == b then 1 else 0
  }

  /** How many geometries a central difference for the derivative along
   *  args samples: the product, over the distinct coordinates, of one more
   *  than the times each is differentiated. Among up to four coordinates
   *  the number of equal pairs tells the patterns of repetition apart. */
  function Samples(args: seq<int>): nat
    requires 1 <= |args| <= 4
  {
    if |args| == 1 then 2
    else if |args| == 2 then (if args[0] == args[1] then 3 else 4)
    else if |args| == 3 then
      var pairs := Eq(args[0], args[1]) + Eq(args[0], args[2]) + Eq(args[1], args[2]);
      if pairs == 3 then 4          // (3 + 1)
      else if pairs == 1 then 6     // (2 + 1) * (1 + 1)
      else 8                        // (1 + 1)^3
    else
      var pairs := Eq(args[0], args[1]) + Eq(args[0], args[2]) + Eq(args[0], args[3]) +
                   Eq(args[1], args[2]) + Eq(args[1], args[3]) + Eq(args[2], args[3]);
      if pairs == 6 then 5          // (4 + 1)
      else if pairs == 3 then 8     // (3 + 1) * (1 + 1)
      else if pairs == 2 then 9     // (2 + 1) * (2 + 1)
      else if pairs == 1 then 12    // (2 + 1) * (1 + 1) * (1 + 1)
      else 16                       // (1 + 1)^4
  }

  /** How many of the coordinates are the one at position t. */
  function Occ(args: seq<int>, t: nat): nat
    requires t < |args| <= 4
  {
    var v := args[t];
    Eq(args[0], v) + (if |args| > 1 then Eq(args[1], v) else 0) +
    (if |args| > 2 then Eq(args[2], v) else 0) + (if |args| > 3 then Eq(args[3], v) else 0)
  }

  /** Every coordinate is differentiated an even number of times: then,
   *  and only then, the stencil samples the reference geometry itself. */
  predicate AllEven(args: seq<int>)
    requires |args| <= 4
  {
    forall t :: 0 <= t < |args| ==> Occ(args, t) % 2 == 0
  }

  /** index and args name the same coordinates. */
  predicate SameCoordinates(index: seq<int>, args: seq<int>) {
    && |index| == |args|
    && (forall t :: 0 <= t < |args| ==> args[t] in index)
    && (forall t :: 0 <= t < |index| ==> index[t] in args)
  }

  /** A step moves along one of the differentiated coordinates. */
  predicate Along(s: int, index: seq<int>) {
    s in index || -s in index
  }

  /** What a row of a table of the given order keeps to: it is named "E0"
   *  exactly when it takes no step; it takes at most one step per
   *  differentiation, and a number of the same parity as the order; every
   *  step is along a coordinate of the shared index. */
  predicate RowOk(row: Row, order: nat, index: seq<int>) {
    && (row.hashed <==> row.steps != [])
    && |row.steps| <= order && (order - |row.steps|) % 2 == 0
    && (forall t :: 0 <= t < |row.steps| ==> Along(row.steps[t], index))
  }

  /** Every row keeps to RowOk, and the coefficients cancel, so a constant
   *  energy differentiates to zero. */
  predicate RowsSound(st: Stencil, order: nat) {
    && CoeffSum(st.rows) == 0
    && (forall p :: 0 <= p < |st.rows| ==> RowOk(st.rows[p], order, st.index))
  }

  /** What the table for the derivative along args is: its rows keep to
   *  RowsSound; its shared index has as many coordinates as args, and the same ones; it samples
   *  Samples(args) geometries, and all but the reference geometry (sampled
   *  exactly when every multiplicity is even) draw a job name. */
  predicate Sound(st: Stencil, args: seq<int>) {
    && 1 <= |args| <= 4
    && RowsSound(st, |args|)
    && SameCoordinates(st.index, args)
    && |st.rows| == Samples(args)
    && Hashed(st.rows) == |st.rows| - (if AllEven(args) then 1 else 0)
  }

  /** A coefficient column's sum, read off its running totals. */
  lemma {:induction false} SumByTotals(rows: seq<Row>, totals: seq<int>)
    requires |totals| == |rows| + 1 && totals[0] == 0
    requires forall k :: 0 <= k < |rows| ==> totals[k + 1] == totals[k] + rows[k].coeff
    ensures CoeffSum(rows) == totals[|rows|]
    decreases |rows|
  {
    if rows != [] {
      var init := rows[..|rows| - 1];
      assert forall k :: 0 <= k < |init| ==> init[k] == rows[k];
      SumByTotals(init, totals[..|rows|]);
    }
  }

  /** Every row but row e (if e is one) draws a name. */
  lemma {:induction false} HashedCount(rows: seq<Row>, e: int)
    requires forall p :: 0 <= p < |rows| ==> (rows[p].hashed <==> p != e)
    ensures Hashed(rows) == |rows| - (if 0 <= e < |rows| then 1 else 0)
    decreases |rows|
  {
    if rows != [] {
      var init := rows[..|rows| - 1];
      assert forall p :: 0 <= p < |init| ==> init[p] == rows[p];
      HashedCount(init, e);
    }
  }

  /** A coordinate differentiated an odd number of times keeps the
   *  reference geometry out of the stencil. */
  lemma OddAt(args: seq<int>, t: nat)
    requires t < |args| <= 4 && Occ(args, t) % 2 == 1
    ensures !AllEven(args)
  {
  }

  lemma D1Rows(x: int)
    ensures forall p :: 0 <= p < |D1(x).rows| ==> RowOk(D1(x).rows[p], 1, D1(x).index)
  {
  }

  lemma D1Counts(x: int)
    ensures CoeffSum(D1(x).rows) == 0
    ensures |D1(x).rows| == 2 && Hashed(D1(x).rows) == 2
  {
    var rows := D1(x).rows;
    SumByTotals(rows, [0, 1, 0]);
    HashedCount(rows, -1);
  }

  lemma D1Sound(x: int)
    ensures RowsSound(D1(x), 1)
    ensures |D1(x).rows| == 2 && Hashed(D1(x).rows) == 2
  {
    D1Rows(x);
    D1Counts(x);
  }

  lemma D2SameRows(x: int)
    ensures forall p :: 0 <= p < |D2Same(x).rows| ==> RowOk(D2Same(x).rows[p], 2, D2Same(x).index)
  {
  }

  lemma D2SameCounts(x: int)
    ensures CoeffSum(D2Same(x).rows) == 0
    ensures |D2Same(x).rows| == 3 && Hashed(D2Same(x).rows) == 2
  {
    var rows := D2Same(x).rows;
    SumByTotals(rows, [0, 1, -1, 0]);
    HashedCount(rows, 1);
  }

  lemma D2SameSound(x: int)
    ensures RowsSound(D2Same(x), 2)
    ensures |D2Same(x).rows| == 3 && Hashed(D2Same(x).rows) == 2
  {
    D2SameRows(x);
    D2SameCounts(x);
  }

  lemma D2DistinctRows(x: int, y: int)
    ensures forall p :: 0 <= p < |D2Distinct(x, y).rows| ==> RowOk(D2Distinct(x, y).rows[p], 2, D2Distinct(x, y).index)
  {
  }

  lemma D2DistinctCounts(x: int, y: int)
    ensures CoeffSum(D2Distinct(x, y).rows) == 0
    ensures |D2Distinct(x, y).rows| == 4 && Hashed(D2Distinct(x, y).rows) == 4
  {
    var rows := D2Distinct(x, y).rows;
    SumByTotals(rows, [0, 1, 0, -1, 0]);
    HashedCount(rows, -1);
  }

  lemma D2DistinctSound(x: int, y: int)
    ensures RowsSound(D2Distinct(x, y), 2)
    ensures |D2Distinct(x, y).rows| == 4 && Hashed(D2Distinct(x, y).rows) == 4
  {
    D2DistinctRows(x, y);
    D2DistinctCounts(x, y);
  }

  lemma D3SameRows(x: int)
    ensures forall p :: 0 <= p < |D3Same(x).rows| ==> RowOk(D3Same(x).rows[p], 3, D3Same(x).index)
  {
  }

  lemma D3SameCounts(x: int)
    ensures CoeffSum(D3Same(x).rows) == 0
    ensures |D3Same(x).rows| == 4 && Hashed(D3Same(x).rows) == 4
  {
    var rows := D3Same(x).rows;
    SumByTotals(rows, [0, 1, -2, 1, 0]);
    HashedCount(rows, -1);
  }

  lemma D3SameSound(x: int)
    ensures RowsSound(D3Same(x), 3)
    ensures |D3Same(x).rows| == 4 && Hashed(D3Same(x).rows) == 4
  {
    D3SameRows(x);
    D3SameCounts(x);
  }

  lemma D3TwoOneRows(x: int, y: int)
    ensures forall p :: 0 <= p < |D3TwoOne(x, y).rows| ==> RowOk(D3TwoOne(x, y).rows[p], 3, D3TwoOne(x, y).index)
  {
  }

  lemma D3TwoOneCounts(x: int, y: int)
    ensures CoeffSum(D3TwoOne(x, y).rows) == 0
    ensures |D3TwoOne(x, y).rows| == 6 && Hashed(D3TwoOne(x, y).rows) == 6
  {
    var rows := D3TwoOne(x, y).rows;
    SumByTotals(rows, [0, 1, -1, 0, -1, 1, 0]);
    HashedCount(rows, -1);
  }

  lemma D3TwoOneSound(x: int, y: int)
    ensures RowsSound(D3TwoOne(x, y), 3)
    ensures |D3TwoOne(x, y).rows| == 6 && Hashed(D3TwoOne(x, y).rows) == 6
  {
    D3TwoOneRows(x, y);
    D3TwoOneCounts(x, y);
  }

  lemma D3DistinctRows(x: int, y: int, z: int)
    ensures forall p :: 0 <= p < |D3Distinct(x, y, z).rows| ==> RowOk(D3Distinct(x, y, z).rows[p], 3, D3Distinct(x, y, z).index)
  {
  }

  lemma D3DistinctCounts(x: int, y: int, z: int)
    ensures CoeffSum(D3Distinct(x, y, z).rows) == 0
    ensures |D3Distinct(x, y, z).rows| == 8 && Hashed(D3Distinct(x, y, z).rows) == 8
  {
    var rows := D3Distinct(x, y, z).rows;
    SumByTotals(rows, [0, 1, 0, -1, 0, -1, 0, 1, 0]);
    HashedCount(rows, -1);
  }

  lemma D3DistinctSound(x: int, y: int, z: int)
    ensures RowsSound(D3Distinct(x, y, z), 3)
    ensures |D3Distinct(x, y, z).rows| == 8 && Hashed(D3Distinct(x, y, z).rows) == 8
  {
    D3DistinctRows(x, y, z);
    D3DistinctCounts(x, y, z);
  }

  lemma D4SameRows(x: int)
    ensures forall p :: 0 <= p < |D4Same(x).rows| ==> RowOk(D4Same(x).rows[p], 4, D4Same(x).index)
  {
  }

  lemma D4SameCounts(x: int)
    ensures CoeffSum(D4Same(x).rows) == 0
    ensures |D4Same(x).rows| == 5 && Hashed(D4Same(x).rows) == 4
  {
    var rows := D4Same(x).rows;
    SumByTotals(rows, [0, 1, -3, 3, -1, 0]);
    HashedCount(rows, 2);
  }

  lemma D4SameSound(x: int)
    ensures RowsSound(D4Same(x), 4)
    ensures |D4Same(x).rows| == 5 && Hashed(D4Same(x).rows) == 4
  {
    D4SameRows(x);
    D4SameCounts(x);
  }

  lemma D4ThreeOneRows(x: int, y: int)
    ensures forall p :: 0 <= p < |D4ThreeOne(x, y).rows| ==> RowOk(D4ThreeOne(x, y).rows[p], 4, D4ThreeOne(x, y).index)
  {
  }

  lemma D4ThreeOneCounts(x: int, y: int)
    ensures CoeffSum(D4ThreeOne(x, y).rows) == 0
    ensures |D4ThreeOne(x, y).rows| == 8 && Hashed(D4ThreeOne(x, y).rows) == 8
  {
    var rows := D4ThreeOne(x, y).rows;
    SumByTotals(rows, [0, 1, -2, 1, 0, -1, 2, -1, 0]);
    HashedCount(rows, -1);
  }

  lemma D4ThreeOneSound(x: int, y: int)
    ensures RowsSound(D4ThreeOne(x, y), 4)
    ensures |D4ThreeOne(x, y).rows| == 8 && Hashed(D4ThreeOne(x, y).rows) == 8
  {
    D4ThreeOneRows(x, y);
    D4ThreeOneCounts(x, y);
  }

  lemma D4TwoOneOneRows(x: int, y: int, z: int)
    ensures forall p :: 0 <= p < |D4TwoOneOne(x, y, z).rows| ==> RowOk(D4TwoOneOne(x, y, z).rows[p], 4, D4TwoOneOne(x, y, z).index)
  {
  }

  lemma D4TwoOneOneCounts(x: int, y: int, z: int)
    ensures CoeffSum(D4TwoOneOne(x, y, z).rows) == 0
    ensures |D4TwoOneOne(x, y, z).rows| == 12 && Hashed(D4TwoOneOne(x, y, z).rows) == 12
  {
    var rows := D4TwoOneOne(x, y, z).rows;
    SumByTotals(rows, [0, 1, -1, 0, -1, 1, 0, -1, 1, 0, 1, -1, 0]);
    HashedCount(rows, -1);
  }

  lemma D4TwoOneOneSound(x: int, y: int, z: int)
    ensures RowsSound(D4TwoOneOne(x, y, z), 4)
    ensures |D4TwoOneOne(x, y, z).rows| == 12 && Hashed(D4TwoOneOne(x, y, z).rows) == 12
  {
    D4TwoOneOneRows(x, y, z);
    D4TwoOneOneCounts(x, y, z);
  }

  lemma D4TwoTwoRows(x: int, y: int)
    ensures forall p :: 0 <= p < |D4TwoTwo(x, y).rows| ==> RowOk(D4TwoTwo(x, y).rows[p], 4, D4TwoTwo(x, y).index)
  {
  }

  lemma D4TwoTwoCounts(x: int, y: int)
    ensures CoeffSum(D4TwoTwo(x, y).rows) == 0
    ensures |D4TwoTwo(x, y).rows| == 9 && Hashed(D4TwoTwo(x, y).rows) == 8
  {
    var rows := D4TwoTwo(x, y).rows;
    SumByTotals(rows, [0, 1, 2, 3, 4, 2, 0, -2, -4, 0]);
    HashedCount(rows, 8);
  }

  lemma D4TwoTwoSound(x: int, y: int)
    ensures RowsSound(D4TwoTwo(x, y), 4)
    ensures |D4TwoTwo(x, y).rows| == 9 && Hashed(D4TwoTwo(x, y).rows) == 8
  {
    D4TwoTwoRows(x, y);
    D4TwoTwoCounts(x, y);
  }

  lemma D4DistinctRows(x: int, y: int, z: int, w: int)
    ensures forall p :: 0 <= p < |D4Distinct(x, y, z, w).rows| ==> RowOk(D4Distinct(x, y, z, w).rows[p], 4, D4Distinct(x, y, z, w).index)
  {
  }

  lemma D4DistinctCounts(x: int, y: int, z: int, w: int)
    ensures CoeffSum(D4Distinct(x, y, z, w).rows) == 0
    ensures |D4Distinct(x, y, z, w).rows| == 16 && Hashed(D4Distinct(x, y, z, w).rows) == 16
  {
    var rows := D4Distinct(x, y, z, w).rows;
    SumByTotals(rows, [0, 1, 0, -1, 0, -1, 0, 1, 0, -1, 0, 1, 0, 1, 0, -1, 0]);
    HashedCount(rows, -1);
  }

  lemma D4DistinctSound(x: int, y: int, z: int, w: int)
    ensures RowsSound(D4Distinct(x, y, z, w), 4)
    ensures |D4Distinct(x, y, z, w).rows| == 16 && Hashed(D4Distinct(x, y, z, w).rows) == 16
  {
    D4DistinctRows(x, y, z, w);
    D4DistinctCounts(x, y, z, w);
  }
  lemma D1Args(x: int, args: seq<int>)
    requires args == [x]
    ensures 1 <= |args| <= 4 && SameCoordinates([x], args)
    ensures Samples(args) == 2 && AllEven(args) == false
  {
    OddAt(args, 0);
  }

  lemma D2SameArgs(x: int, args: seq<int>)
    requires args == [x, x]
    ensures 1 <= |args| <= 4 && SameCoordinates([x, x], args)
    ensures Samples(args) == 3 && AllEven(args) == true
  {
  }

  lemma D2DistinctArgs(x: int, y: int, args: seq<int>)
    requires x != y
    requires args == [x, y]
    ensures 1 <= |args| <= 4 && SameCoordinates([x, y], args)
    ensures Samples(args) == 4 && AllEven(args) == false
  {
    OddAt(args, 0);
  }

  lemma D3SameArgs(x: int, args: seq<int>)
    requires args == [x, x, x]
    ensures 1 <= |args| <= 4 && SameCoordinates([x, x, x], args)
    ensures Samples(args) == 4 && AllEven(args) == false
  {
    OddAt(args, 0);
  }

  lemma D3TwoOneArgs(x: int, y: int, args: seq<int>)
    requires x != y
    requires args == [x, x, y] || args == [x, y, x] || args == [y, x, x]
    ensures 1 <= |args| <= 4 && SameCoordinates([x, x, y], args)
    ensures Samples(args) == 6 && AllEven(args) == false
  {
    if args == [x, x, y] {
      OddAt(args, 2);
    } else if args == [x, y, x] {
      OddAt(args, 1);
    } else if args == [y, x, x] {
      OddAt(args, 0);
    }
  }

  lemma D3DistinctArgs(x: int, y: int, z: int, args: seq<int>)
    requires x != y && x != z && y != z
    requires args == [x, y, z]
    ensures 1 <= |args| <= 4 && SameCoordinates([x, y, z], args)
    ensures Samples(args) == 8 && AllEven(args) == false
  {
    OddAt(args, 0);
  }

  lemma D4SameArgs(x: int, args: seq<int>)
    requires args == [x, x, x, x]
    ensures 1 <= |args| <= 4 && SameCoordinates([x, x, x, x], args)
    ensures Samples(args) == 5 && AllEven(args) == true
  {
  }

  lemma D4ThreeOneArgs(x: int, y: int, args: seq<int>)
    requires x != y
    requires args == [x, x, x, y] || args == [x, x, y, x] || args == [x, y, x, x] || args == [y, x, x, x]
    ensures 1 <= |args| <= 4 && SameCoordinates([x, x, x, y], args)
    ensures Samples(args) == 8 && AllEven(args) == false
  {
    if args == [x, x, x, y] {
      OddAt(args, 0);
    } else if args == [x, x, y, x] {
      OddAt(args, 0);
    } else if args == [x, y, x, x] {
      OddAt(args, 0);
    } else if args == [y, x, x, x] {
      OddAt(args, 1);
    }
  }

  lemma D4TwoOneOneArgs(x: int, y: int, z: int, args: seq<int>)
    requires x != y && x != z && y != z
    requires args == [x, x, y, z] || args == [x, y, x, z] || args == [x, z, y, x] || args == [y, x, x, z] || args == [y, x, z, x] || args == [y, z, x, x]
    ensures 1 <= |args| <= 4 && SameCoordinates([x, x, y, z], args)
    ensures Samples(args) == 12 && AllEven(args) == false
  {
    if args == [x, x, y, z] {
      OddAt(args, 2);
    } else if args == [x, y, x, z] {
      OddAt(args, 1);
    } else if args == [x, z, y, x] {
      OddAt(args, 2);
    } else if args == [y, x, x, z] {
      OddAt(args, 0);
    } else if args == [y, x, z, x] {
      OddAt(args, 0);
    } else if args == [y, z, x, x] {
      OddAt(args, 0);
    }
  }

  lemma D4TwoTwoArgs(x: int, y: int, args: seq<int>)
    requires x != y
    requires args == [x, x, y, y] || args == [x, y, x, y] || args == [x, y, y, x]
    ensures 1 <= |args| <= 4 && SameCoordinates([x, x, y, y], args)
    ensures Samples(args) == 9 && AllEven(args) == true
  {
  }

  lemma D4DistinctArgs(x: int, y: int, z: int, w: int, args: seq<int>)
    requires x != y && x != z && x != w && y != z && y != w && z != w
    requires args == [x, y, z, w]
    ensures 1 <= |args| <= 4 && SameCoordinates([x, y, z, w], args)
    ensures Samples(args) == 16 && AllEven(args) == false
  {
    OddAt(args, 0);
  }

  lemma Table1Sound(i: int)
    ensures Sound(Table1(i), [i])
  {
    D1Sound(i);
    D1Args(i, [i]);
  }

  lemma Table2Sound(i: int, j: int)
    ensures Table2(i, j).Some? && Sound(Table2(i, j).value, [i, j])
  {
    if i == j {
      D2SameSound(i);
      D2SameArgs(i, [i, j]);
    } else if i != j {
      D2DistinctSound(i, j);
      D2DistinctArgs(i, j, [i, j]);
    }
  }

  lemma Table3Sound(i: int, j: int, k: int)
    ensures Table3(i, j, k).Some? && Sound(Table3(i, j, k).value, [i, j, k])
  {
    if i == j && i == k {
      D3SameSound(i);
      D3SameArgs(i, [i, j, k]);
    } else if i == j && i != k {
      D3TwoOneSound(i, k);
      D3TwoOneArgs(i, k, [i, j, k]);
    } else if i == k && i != j {
      D3TwoOneSound(i, j);
      D3TwoOneArgs(i, j, [i, j, k]);
    } else if j == k && i != j {
      D3TwoOneSound(j, i);
      D3TwoOneArgs(j, i, [i, j, k]);
    } else if i != j && i != k && j != k {
      D3DistinctSound(i, j, k);
      D3DistinctArgs(i, j, k, [i, j, k]);
    }
  }

  lemma Table4Sound(i: int, j: int, k: int, l: int)
    ensures Table4(i, j, k, l).Some? && Sound(Table4(i, j, k, l).value, [i, j, k, l])
  {
    if i == j {
      Table4SoundEq(i, j, k, l);
    } else {
      Table4SoundNe(i, j, k, l);
    }
  }

  lemma Table4SoundEq(i: int, j: int, k: int, l: int)
    requires i == j
    ensures Table4(i, j, k, l).Some? && Sound(Table4(i, j, k, l).value, [i, j, k, l])
  {
    if i == j && i == k && i == l {
      D4SameSound(i);
      D4SameArgs(i, [i, j, k, l]);
    } else if i == j && i == k && i != l {
      D4ThreeOneSound(i, l);
      D4ThreeOneArgs(i, l, [i, j, k, l]);
    } else if i == j && i == l && i != k {
      D4ThreeOneSound(i, k);
      D4ThreeOneArgs(i, k, [i, j, k, l]);
    } else if i == j && i != k && i != l && k != l {
      D4TwoOneOneSound(i, k, l);
      D4TwoOneOneArgs(i, k, l, [i, j, k, l]);
    } else if i == j && k == l && i != k {
      D4TwoTwoSound(i, k);
      D4TwoTwoArgs(i, k, [i, j, k, l]);
    }
  }

  lemma Table4SoundNe(i: int, j: int, k: int, l: int)
    requires i != j
    ensures Table4(i, j, k, l).Some? && Sound(Table4(i, j, k, l).value, [i, j, k, l])
  {
    if i == k {
      Table4SoundNeK(i, j, k, l);
    } else {
      Table4SoundNeOther(i, j, k, l);
    }
  }

  lemma Table4SoundNeK(i: int, j: int, k: int, l: int)
    requires i != j && i == k
    ensures Table4(i, j, k, l).Some? && Sound(Table4(i, j, k, l).value, [i, j, k, l])
  {
    if i == k && i == l && i != j {
      D4ThreeOneSound(i, j);
      D4ThreeOneArgs(i, j, [i, j, k, l]);
    } else if i == k && i != j && i != l && j != l {
      D4TwoOneOneSound(i, j, l);
      D4TwoOneOneArgs(i, j, l, [i, j, k, l]);
    } else if i == k && j == l && i != j {
      D4TwoTwoSound(i, j);
      D4TwoTwoArgs(i, j, [i, j, k, l]);
    }
  }

  lemma Table4SoundNeOther(i: int, j: int, k: int, l: int)
    requires i != j && i != k
    ensures Table4(i, j, k, l).Some? && Sound(Table4(i, j, k, l).value, [i, j, k, l])
  {
    if j == k && j == l && j != i {
      D4ThreeOneSound(j, i);
      D4ThreeOneArgs(j, i, [i, j, k, l]);
    } else if i == l && i != j && i != k && j != k {
      D4TwoOneOneSound(i, k, j);
      D4TwoOneOneArgs(i, k, j, [i, j, k, l]);
    } else if j == k && j != i && j != l && i != l {
      D4TwoOneOneSound(j, i, l);
      D4TwoOneOneArgs(j, i, l, [i, j, k, l]);
    } else if j == l && j != i && j != k && i != k {
      D4TwoOneOneSound(j, i, k);
      D4TwoOneOneArgs(j, i, k, [i, j, k, l]);
    } else if k == l && k != i && k != j && i != j {
      D4TwoOneOneSound(k, i, j);
      D4TwoOneOneArgs(k, i, j, [i, j, k, l]);
    } else if i == l && j == k && i != j {
      D4TwoTwoSound(i, j);
      D4TwoTwoArgs(i, j, [i, j, k, l]);
    } else if i != j && i != k && i != l && j != k && j != l && k != l {
      D4DistinctSound(i, j, k, l);
      D4DistinctArgs(i, j, k, l, [i, j, k, l]);
    }
  }



  // ---------------------------------------------------------------------
  // The slice a Make function returns

  function ProtoSum(ps: seq<Proto>): int
    decreases |ps|
  {
    if ps == [] then 0 else ProtoSum(ps[..|ps| - 1]) + ps[|ps| - 1].coeff
  }

  /** Element p of the first m protos: row p's coefficient and steps, the
   *  table's index, and the name the counter gave it. */
  lemma {:induction false} NamedAt(st: Stencil, scale: real, n: nat, m: nat, p: nat)
    requires p < m <= |st.rows|
    ensures |Named(st, scale, n, m)| == m
    ensures Named(st, scale, n, m)[p] == Proto(st.rows[p].coeff, NameAt(st.rows, n, p), st.rows[p].steps, st.index, scale)
    decreases m
  {
    if p < m - 1 {
      NamedAt(st, scale, n, m - 1, p);
    } else if m > 1 {
      NamedAt(st, scale, n, m - 1, 0);
    }
  }

  /** The protos carry the rows' coefficients, so they sum as the rows do. */
  lemma {:induction false} NamedSum(st: Stencil, scale: real, n: nat, m: nat)
    requires m <= |st.rows|
    ensures ProtoSum(Named(st, scale, n, m)) == CoeffSum(st.rows[..m])
    decreases m
  {
    if m > 0 {
      NamedSum(st, scale, n, m - 1);
      var ps := Named(st, scale, n, m);
      assert ps[..|ps| - 1] == Named(st, scale, n, m - 1);
      assert st.rows[..m][..m - 1] == st.rows[..m - 1];
    }
  }

  /** Each named row takes a later counter value than every named row
   *  before it. */
  lemma {:induction false} HashedGrows(rows: seq<Row>, p: nat, q: nat)
    requires p < q <= |rows| && rows[p].hashed
    ensures Hashed(rows[..p]) < Hashed(rows[..q])
    decreases q
  {
    assert rows[..q][..q - 1] == rows[..q - 1];
    if p < q - 1 {
      HashedGrows(rows, p, q - 1);
    }
  }

  /** What a Make function returns for a table: one proto per row with the
   *  row's coefficient and steps and the table's index, coefficients
   *  summing as the rows do, and the placeholder "E0" exactly for the row
   *  without steps. */
  lemma ProtosShape(st: Stencil, scale: real, n: nat)
    ensures var ps := Protos(st, scale, n);
      && |ps| == |st.rows|
      && ProtoSum(ps) == CoeffSum(st.rows)
      && forall p :: 0 <= p < |ps| ==>
           && ps[p].coeff == st.rows[p].coeff
           && ps[p].steps == st.rows[p].steps
           && ps[p].index == st.index
           && ps[p].scale == scale
           && (ps[p].name == "E0" <==> !st.rows[p].hashed)
  {
    var ps := Protos(st, scale, n);
    NamedSum(st, scale, n, |st.rows|);
    assert st.rows[..|st.rows|] == st.rows;
    if st.rows != [] {
      NamedAt(st, scale, n, |st.rows|, 0);
    }
    forall p | 0 <= p < |ps|
      ensures ps[p].coeff == st.rows[p].coeff && ps[p].steps == st.rows[p].steps && ps[p].index == st.index && ps[p].scale == scale
      ensures ps[p].name == "E0" <==> !st.rows[p].hashed
    {
      NamedAt(st, scale, n, |st.rows|, p);
      if st.rows[p].hashed {
        JobNameNotE0(n + Hashed(st.rows[..p]));
      }
    }
  }

  /** Job names never repeat: two rows share a name only when neither has
   *  steps, and the later of two named rows has the larger job number. */
  lemma ProtoNames(st: Stencil, scale: real, n: nat, p: nat, q: nat)
    requires p < q < |st.rows|
    ensures var ps := Protos(st, scale, n);
      && |ps| == |st.rows|
      && (ps[p].name == ps[q].name <==> !st.rows[p].hashed && !st.rows[q].hashed)
      && (st.rows[p].hashed && st.rows[q].hashed ==> JobNumber(ps[p].name) < JobNumber(ps[q].name))
  {
    var rows := st.rows;
    NamedAt(st, scale, n, |rows|, p);
    NamedAt(st, scale, n, |rows|, q);
    NamesDistinct(rows, n, p, q);
  }

  /** The same two facts about the names alone. */
  lemma NamesDistinct(rows: seq<Row>, n: nat, p: nat, q: nat)
    requires p < q < |rows|
    ensures NameAt(rows, n, p) == NameAt(rows, n, q) <==> !rows[p].hashed && !rows[q].hashed
    ensures rows[p].hashed && rows[q].hashed ==> JobNumber(NameAt(rows, n, p)) < JobNumber(NameAt(rows, n, q))
  {
    var a := n + Hashed(rows[..p]);
    var b := n + Hashed(rows[..q]);
    if rows[p].hashed {
      HashedGrows(rows, p, q);
      JobNameNotE0(a);
      JobNumberOfName(a);
      JobNumberOfName(b);
      JobNameInjective(a, b);
    }
    if rows[q].hashed {
      JobNameNotE0(b);
    }
  }
}
